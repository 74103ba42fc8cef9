/** Files written as RIFF prescribes are parsed back exactly. */
module WaveRoundTrip {
  import opened WaveFormat
  import opened WaveParser

  datatype Chunk = Chunk(id: int, body: seq<Byte>)

  /** A sound with everything that may stand around it in a file: chunks before the
      format and the data, more bytes in the format chunk, and anything behind. */
  datatype Wave = Wave(
    code: int, channels: int, samplerate: int, average: int, align: int, bits: int, payload: seq<Byte>,
    before: seq<Chunk>, extra: seq<Byte>, between: seq<Chunk>, after: seq<Byte>)

  predicate Writable(c: Chunk) {
    0 <= c.id < WORD && |c.body| < WORD
  }

  function WriteChunk(c: Chunk): (r: seq<Byte>)
    requires Writable(c)
    ensures |r| == 8 + |c.body|
  {
    Encode32(c.id) + Encode32(|c.body|) + c.body
  }

  ghost predicate AllWritable(cs: seq<Chunk>, not: int) {
    forall k :: 0 <= k < |cs| ==> Writable(cs[k]) && cs[k].id != not
  }

  ghost function WriteChunks(cs: seq<Chunk>, not: int): (r: seq<Byte>)
    requires AllWritable(cs, not)
    ensures |r| >= 8 * |cs|
  {
    if cs == [] then [] else WriteChunk(cs[0]) + WriteChunks(cs[1..], not)
  }

  /** Samples as they are, and sizes that agree: a sample of every channel takes `align` bytes,
      and a second `average` bytes, in the 32 bits that there are for them. */
  predicate Playable(w: Wave) {
    w.code == PCM && w.align == w.bits / 8 * w.channels && w.average == Wrap(w.samplerate * w.align)
  }

  predicate FieldsFit(w: Wave) {
    && 0 <= w.code < 0x1_0000 && 0 <= w.channels < 0x1_0000 && 0 <= w.samplerate < WORD
    && 0 <= w.average < WORD && 0 <= w.align < 0x1_0000 && 0 <= w.bits < 0x1_0000
  }

  /** The numbers fit their fields, and unknown chunks are unknown. */
  ghost predicate WellFormed(w: Wave) {
    && FieldsFit(w) && AllWritable(w.before, FMT_ID) && AllWritable(w.between, DATA_ID)
    && |w.payload| < WORD && |w.extra| + 16 < WORD
  }

  function FormatBody(w: Wave): (r: seq<Byte>)
    requires FieldsFit(w)
    ensures |r| == 16 + |w.extra|
  {
    Encode16(w.code) + Encode16(w.channels) + Encode32(w.samplerate) + Encode32(w.average) +
    Encode16(w.align) + Encode16(w.bits) + w.extra
  }

  /** What follows the format chunk. */
  ghost function Tail(w: Wave): seq<Byte>
    requires WellFormed(w)
  {
    WriteChunks(w.between, DATA_ID) + (WriteChunk(Chunk(DATA_ID, w.payload)) + w.after)
  }

  ghost function Body(w: Wave): seq<Byte>
    requires WellFormed(w)
  {
    WriteChunks(w.before, FMT_ID) + (WriteChunk(Chunk(FMT_ID, FormatBody(w))) + Tail(w))
  }

  ghost function File(w: Wave): seq<Byte>
    requires WellFormed(w) && |Body(w)| + 4 < WORD
  {
    Encode32(RIFF_ID) + Encode32(|Body(w)| + 4) + Encode32(WAVE_ID) + Body(w)
  }

  // ---------------------------------------------------------------- the walk

  lemma StandsPart(m: seq<Byte>, t: int, a: seq<Byte>, b: seq<Byte>, c: seq<Byte>)
    requires Stands(m, t, a + (b + c))
    ensures Stands(m, t, a) && Stands(m, t + |a|, b) && Stands(m, t + |a| + |b|, c)
  {
    StandsSplit(m, t, a, b + c);
    StandsSplit(m, t + |a|, b, c);
  }

  lemma ReadChunk(m: seq<Byte>, beyond: Memory, t: int, c: Chunk)
    requires Writable(c) && Stands(m, t, WriteChunk(c))
    ensures LE32(m, beyond, t) == c.id && LE32(m, beyond, t + 4) == |c.body| && Stands(m, t + 8, c.body)
  {
    assert WriteChunk(c) == Encode32(c.id) + (Encode32(|c.body|) + c.body);
    hide Encode32, LE32;
    StandsPart(m, t, Encode32(c.id), Encode32(|c.body|), c.body);
    Read32(m, beyond, t, c.id);
    Read32(m, beyond, t + 4, |c.body|);
  }

  /** The walk goes past chunks with other ids, and stops at the one it looks for. */
  lemma {:induction false} WalkOver(m: seq<Byte>, beyond: Memory, datalen: int, id: int, t: int, cs: seq<Chunk>, n: nat)
    requires AllWritable(cs, id) && |cs| <= n && 0 <= id < WORD
    requires Stands(m, t, WriteChunks(cs, id) + Encode32(id)) && t + |WriteChunks(cs, id)| + 4 <= datalen < WORD
    ensures WalkTo(m, beyond, datalen, id, t, n) == Exit(t + |WriteChunks(cs, id)|)
    decreases n
  {
    hide LE32, Encode32, WriteChunk;
    if cs == [] {
      assert WriteChunks(cs, id) + Encode32(id) == Encode32(id);
      Read32(m, beyond, t, id);
    } else {
      var c, rest := WriteChunk(cs[0]), WriteChunks(cs[1..], id);
      assert WriteChunks(cs, id) + Encode32(id) == c + (rest + Encode32(id));
      StandsSplit(m, t, c, rest + Encode32(id));
      ReadChunk(m, beyond, t, cs[0]);
      WalkOver(m, beyond, datalen, id, t + |c|, cs[1..], n - 1);
    }
  }

  // -------------------------------------------------------------- the pieces

  ghost function FmtAt(w: Wave): int
    requires AllWritable(w.before, FMT_ID)
  {
    12 + |WriteChunks(w.before, FMT_ID)|
  }

  ghost function BetweenAt(w: Wave): int
    requires AllWritable(w.before, FMT_ID)
  {
    FmtAt(w) + 24 + |w.extra|
  }

  ghost function DataAt(w: Wave): int
    requires AllWritable(w.before, FMT_ID) && AllWritable(w.between, DATA_ID)
  {
    BetweenAt(w) + |WriteChunks(w.between, DATA_ID)|
  }

  ghost predicate Holds(m: seq<Byte>, w: Wave)
    requires WellFormed(w) && |Body(w)| + 4 < WORD
  {
    Stands(m, 0, File(w))
  }

  lemma Header(m: seq<Byte>, beyond: Memory, w: Wave)
    requires WellFormed(w) && |Body(w)| + 4 < WORD && Holds(m, w)
    ensures IsWave(m, beyond) && LE32(m, beyond, 4) == |Body(w)| + 4 && Stands(m, 12, Body(w))
  {
    var a, b, c := Encode32(RIFF_ID), Encode32(|Body(w)| + 4), Encode32(WAVE_ID);
    assert File(w) == a + (b + (c + Body(w)));
    hide Encode32, Body, LE32, File, WellFormed, Stands;
    StandsPart(m, 0, a, b, c + Body(w));
    StandsSplit(m, 8, c, Body(w));
    Read32(m, beyond, 0, RIFF_ID);
    Read32(m, beyond, 4, |Body(w)| + 4);
    Read32(m, beyond, 8, WAVE_ID);
  }

  /** Where the format chunk, the chunks after it, and the data chunk stand. */
  lemma Layout(m: seq<Byte>, w: Wave)
    requires WellFormed(w) && Stands(m, 12, Body(w))
    ensures Stands(m, 12, WriteChunks(w.before, FMT_ID) + Encode32(FMT_ID))
    ensures Stands(m, FmtAt(w), WriteChunk(Chunk(FMT_ID, FormatBody(w))))
    ensures Stands(m, BetweenAt(w), WriteChunks(w.between, DATA_ID) + Encode32(DATA_ID))
    ensures Stands(m, DataAt(w), WriteChunk(Chunk(DATA_ID, w.payload)))
    ensures 12 + |Body(w)| == DataAt(w) + 8 + |w.payload| + |w.after|
  {
    hide FormatBody, Encode32;
    var f, d := Chunk(FMT_ID, FormatBody(w)), Chunk(DATA_ID, w.payload);
    StandsHead(m, 12, WriteChunks(w.before, FMT_ID), f, Tail(w));
    StandsHead(m, BetweenAt(w), WriteChunks(w.between, DATA_ID), d, w.after);
  }

  /** A list of chunks, one more chunk, and the rest. */
  lemma StandsHead(m: seq<Byte>, t: int, cs: seq<Byte>, c: Chunk, rest: seq<Byte>)
    requires Writable(c) && Stands(m, t, cs + (WriteChunk(c) + rest))
    ensures Stands(m, t, cs + Encode32(c.id)) && Stands(m, t + |cs|, WriteChunk(c))
    ensures Stands(m, t + |cs| + 8 + |c.body|, rest)
  {
    StandsPart(m, t, cs, WriteChunk(c), rest);
    var more := Encode32(|c.body|) + c.body + rest;
    assert cs + (WriteChunk(c) + rest) == (cs + Encode32(c.id)) + more;
    StandsSplit(m, t, cs + Encode32(c.id), more);
  }

  lemma FormatFields(m: seq<Byte>, beyond: Memory, w: Wave)
    requires WellFormed(w) && Stands(m, FmtAt(w) + 8, FormatBody(w))
    ensures var f := FmtAt(w);
            && LE16(m, beyond, f + 8) == w.code && LE16(m, beyond, f + 10) == w.channels
            && LE32(m, beyond, f + 12) == w.samplerate && LE32(m, beyond, f + 16) == w.average
            && LE16(m, beyond, f + 20) == w.align && LE16(m, beyond, f + 22) == w.bits
  {
    var t := FmtAt(w) + 8;
    var a, b, c, d := Encode16(w.code), Encode16(w.channels), Encode32(w.samplerate), Encode32(w.average);
    var e, g := Encode16(w.align), Encode16(w.bits);
    assert FormatBody(w) == a + (b + (c + (d + (e + (g + w.extra)))));
    hide Encode16, Encode32, LE16, LE32, WellFormed, FormatBody, FmtAt;
    StandsPart(m, t, a, b, c + (d + (e + (g + w.extra))));
    StandsPart(m, t + 4, c, d, e + (g + w.extra));
    StandsPart(m, t + 12, e, g, w.extra);
    FieldsRead(m, beyond, t, w);
  }

  lemma FieldsRead(m: seq<Byte>, beyond: Memory, t: int, w: Wave)
    requires WellFormed(w) && Stands(m, t, Encode16(w.code)) && Stands(m, t + 2, Encode16(w.channels))
    requires Stands(m, t + 4, Encode32(w.samplerate)) && Stands(m, t + 8, Encode32(w.average))
    requires Stands(m, t + 12, Encode16(w.align)) && Stands(m, t + 14, Encode16(w.bits))
    ensures LE16(m, beyond, t) == w.code && LE16(m, beyond, t + 2) == w.channels
    ensures LE32(m, beyond, t + 4) == w.samplerate && LE32(m, beyond, t + 8) == w.average
    ensures LE16(m, beyond, t + 12) == w.align && LE16(m, beyond, t + 14) == w.bits
  {
    hide Encode16, Encode32, LE16, LE32;
    Read16(m, beyond, t, w.code);
    Read16(m, beyond, t + 2, w.channels);
    Read32(m, beyond, t + 4, w.samplerate);
    Read32(m, beyond, t + 8, w.average);
    Read16(m, beyond, t + 12, w.align);
    Read16(m, beyond, t + 14, w.bits);
  }

  lemma SupportedFormat(m: seq<Byte>, beyond: Memory, f: int, w: Wave)
    requires LE32(m, beyond, f) == FMT_ID && LE16(m, beyond, f + 8) == w.code
    requires LE16(m, beyond, f + 10) == w.channels && LE32(m, beyond, f + 12) == w.samplerate
    requires LE32(m, beyond, f + 16) == w.average && LE16(m, beyond, f + 20) == w.align
    requires LE16(m, beyond, f + 22) == w.bits
    ensures Supported(m, beyond, f) <==> Playable(w)
  {
    hide LE16, LE32, Wrap;
  }

  lemma FmtSupported(m: seq<Byte>, beyond: Memory, w: Wave)
    requires WellFormed(w) && Stands(m, 12, Body(w))
    ensures var f := FmtAt(w);
            && (Supported(m, beyond, f) <==> Playable(w))
            && LE16(m, beyond, f + 10) == w.channels && LE16(m, beyond, f + 22) == w.bits
            && LE32(m, beyond, f + 12) == w.samplerate && LE32(m, beyond, f + 4) == 16 + |w.extra|
  {
    Layout(m, w);
    ReadChunk(m, beyond, FmtAt(w), Chunk(FMT_ID, FormatBody(w)));
    FormatFields(m, beyond, w);
    hide LE16, LE32, FormatBody, Encode16, Encode32, WriteChunk, FmtAt, Body, Wrap, Stands;
    SupportedFormat(m, beyond, FmtAt(w), w);
  }

  lemma FormatFound(m: seq<Byte>, beyond: Memory, w: Wave, datalen: nat)
    requires WellFormed(w) && Stands(m, 12, Body(w)) && datalen == 12 + |Body(w)| < 0x8000_0000
    ensures WalkTo(m, beyond, datalen, FMT_ID, 12, datalen) == Exit(FmtAt(w))
  {
    Layout(m, w);
    hide LE32, WalkTo, WriteChunk, Wrap, Stands, Body;
    WalkOver(m, beyond, datalen, FMT_ID, 12, w.before, datalen);
  }

  lemma AfterFormat(m: seq<Byte>, beyond: Memory, w: Wave)
    requires WellFormed(w) && Stands(m, 12, Body(w)) && 12 + |Body(w)| < 0x8000_0000
    ensures NextChunk(m, beyond, FmtAt(w)) == BetweenAt(w)
  {
    Layout(m, w);
    FmtSupported(m, beyond, w);
    hide LE16, LE32, Supported, WriteChunk, WriteChunks, Stands, Body, Wrap, WellFormed;
  }

  lemma DataFound(m: seq<Byte>, beyond: Memory, w: Wave, datalen: nat)
    requires WellFormed(w) && Stands(m, 12, Body(w)) && datalen == 12 + |Body(w)| < 0x8000_0000
    ensures WalkTo(m, beyond, datalen, DATA_ID, BetweenAt(w), datalen) == Exit(DataAt(w))
  {
    Layout(m, w);
    hide LE32, WalkTo, WriteChunk, WriteChunks, Wrap, Stands, Body, Encode32, FmtAt;
    WalkOver(m, beyond, datalen, DATA_ID, BetweenAt(w), w.between, datalen);
  }

  lemma DataRead(m: seq<Byte>, beyond: Memory, w: Wave)
    requires WellFormed(w) && Stands(m, 12, Body(w)) && 12 + |Body(w)| < 0x8000_0000
    ensures LE32(m, beyond, DataAt(w) + 4) == |w.payload| < 0x8000_0000 && Stands(m, DataAt(w) + 8, w.payload)
    ensures 0 <= DataAt(w) + 8 < 0x8000_0000
  {
    Layout(m, w);
    hide LE32, WriteChunk, WriteChunks, Wrap, Stands, Body, Encode32;
    ReadChunk(m, beyond, DataAt(w), Chunk(DATA_ID, w.payload));
  }

  /** Parsing a written file gives back what was written, the format and where the payload
      is, if it is PCM and its sizes agree, and refuses it if not; whatever chunks stand
      before, between and behind, and whatever is mapped after the file. */
  lemma ParseOfFile(m: seq<Byte>, beyond: Memory, w: Wave)
    requires WellFormed(w) && |Body(w)| + 12 < 0x8000_0000 && Holds(m, w)
    ensures var doffset := DataAt(w) + 8;
            && Parse(m, beyond, |File(w)|)
               == (if Playable(w) then Parsed(Info(w.channels, w.bits, w.samplerate, doffset, |w.payload|))
                   else Unsupported)
            && Stands(m, doffset, w.payload)
  {
    Header(m, beyond, w);
    FormatFound(m, beyond, w, |File(w)|);
    AfterFormat(m, beyond, w);
    FmtSupported(m, beyond, w);
    DataFound(m, beyond, w, |File(w)|);
    DataRead(m, beyond, w);
    hide LE16, LE32, Body, File, Supported, WalkTo, WellFormed, Stands, Holds, IsWave, Wrap, NextChunk;
    hide FmtAt, BetweenAt, DataAt;
  }

  /** Such a file is parsed in place without being changed, and with a wrong RIFF size
      it is corrected to what it should have been. */
  lemma CorrectedFile(m: seq<Byte>, w: Wave, size: int)
    requires WellFormed(w) && |Body(w)| + 12 < 0x8000_0000 && 0 <= size < WORD
    requires Stands(m, 0, Encode32(RIFF_ID) + Encode32(size) + Encode32(WAVE_ID) + Body(w)) && |m| >= 12
    ensures Holds(Corrected(m, |File(w)|), w)
  {
    var a, b, c := Encode32(RIFF_ID), Encode32(size), Encode32(WAVE_ID);
    FileParts(w);
    hide Wrap, Encode32, Body, File, WellFormed, Stands;
    Regroup(a, b, c, Body(w));
    StandsPart(m, 0, a, b, c + Body(w));
    SizeReplaced(m, a, Encode32(|Body(w)| + 4), c + Body(w));
  }

  lemma Regroup(a: seq<Byte>, b: seq<Byte>, c: seq<Byte>, d: seq<Byte>)
    ensures a + b + c + d == a + (b + (c + d))
  {
  }

  lemma FileParts(w: Wave)
    requires WellFormed(w) && |Body(w)| + 4 < WORD
    ensures File(w) == Encode32(RIFF_ID) + Encode32(|Body(w)| + 4) + (Encode32(WAVE_ID) + Body(w))
    ensures |File(w)| == 12 + |Body(w)|
  {
    hide Encode32, Body, WellFormed;
  }

  lemma SizeReplaced(m: seq<Byte>, a: seq<Byte>, d: seq<Byte>, rest: seq<Byte>)
    requires |a| == 4 && |d| == 4 && Stands(m, 0, a) && Stands(m, 8, rest)
    ensures Stands(m[..4] + d + m[8..], 0, a + d + rest)
  {
    var r := m[..4] + d + m[8..];
    assert r[0..|a + d + rest|] == m[0..4] + d + m[8..8 + |rest|];
  }
}
