/** Parsing a WAVE file: the chunk walk over the mapped bytes, and what it returns for
    files written as RIFF prescribes. */
module WaveParser {
  import opened WaveFormat

  datatype Info = Info(channels: int, format: int, samplerate: int, doffset: int, size: int)

  /** Hangs stands for a chunk walk that never ends. */
  datatype Result = Unsupported | Endless | Parsed(info: Info)

  predicate IsWave(m: seq<Byte>, beyond: Memory) {
    LE32(m, beyond, 0) == RIFF_ID && LE32(m, beyond, 8) == WAVE_ID
  }

  /** The mapped bytes with the RIFF size corrected to the length of the file. */
  function Corrected(m: seq<Byte>, datalen: int): (r: seq<Byte>)
    requires |m| >= 12
    ensures |r| == |m|
  {
    m[..4] + Encode32(Wrap(datalen - 8)) + m[8..]
  }

  /** The format chunk at `t` is PCM, and its sizes agree. */
  predicate Supported(m: seq<Byte>, beyond: Memory, t: int) {
    var channels, samplerate := LE16(m, beyond, t + 10), LE32(m, beyond, t + 12);
    var average, align, bits := LE32(m, beyond, t + 16), LE16(m, beyond, t + 20), LE16(m, beyond, t + 22);
    && LE32(m, beyond, t) == FMT_ID && LE16(m, beyond, t + 8) == PCM
    && average == Wrap(samplerate * align) && align == bits / 8 * channels
  }

  function InfoAt(m: seq<Byte>, beyond: Memory, fmt: int, data: int): Info {
    Info(LE16(m, beyond, fmt + 10), LE16(m, beyond, fmt + 22), LE32(m, beyond, fmt + 12),
      Signed(Wrap(data + 8)), Signed(LE32(m, beyond, data + 4)))
  }

  /** What comes after the format chunk was found. */
  function ParseFrom(m: seq<Byte>, beyond: Memory, datalen: nat, fmt: int): Result {
    if !Supported(m, beyond, fmt) then Unsupported
    else
      match WalkTo(m, beyond, datalen, DATA_ID, NextChunk(m, beyond, fmt), datalen)
      case Lost => Unsupported
      case Hangs => Endless
      case Exit(data) => Parsed(InfoAt(m, beyond, fmt, data))
  }

  function Parse(m: seq<Byte>, beyond: Memory, datalen: nat): Result {
    if !IsWave(m, beyond) then Unsupported
    else
      match WalkTo(m, beyond, datalen, FMT_ID, 12, datalen)
      case Lost => Unsupported
      case Hangs => Endless
      case Exit(fmt) => ParseFrom(m, beyond, datalen, fmt)
  }

  // ---------------------------------------------------------------- the parser

  /** The loop that looks for the format chunk, and again for the data chunk. More turns
      than there are bytes mean that it would never stop. */
  method FindChunk(data: array<Byte>, beyond: Memory, datalen: nat, id: int, from: int) returns (w: Walk)
    ensures w == WalkTo(data[..], beyond, datalen, id, from, datalen)
  {
    var tSize, turns := from, 0;
    while LE32(data[..], beyond, tSize) != id && tSize < datalen
      invariant 0 <= turns <= datalen
      invariant WalkTo(data[..], beyond, datalen, id, from, datalen) ==
                  WalkTo(data[..], beyond, datalen, id, tSize, datalen - turns)
      decreases datalen - turns
    {
      tSize := Wrap(tSize + LE32(data[..], beyond, tSize + 4) + 8);
      if tSize >= datalen { return Lost; }
      if turns == datalen { return Hangs; }
      turns := turns + 1;
    }
    w := Exit(tSize);
  }

  method CorrectSize(data: array<Byte>, beyond: Memory, size: int)
    requires data.Length >= 12
    modifies data
    ensures data[..] == Corrected(old(data[..]), size + 8)
  {
    var v := Wrap(size);
    ghost var m := data[..];
    if LE32(data[..], beyond, 4) != v {
      data[4], data[5], data[6], data[7] :=
        v % 0x1_0000 % 0x100, v % 0x1_0000 / 0x100, v / 0x1_0000 % 0x100, v / 0x1_0000 / 0x100;
      assert data[..] == m[..4] + Encode32(v) + m[8..];
    } else {
      Unchanged(data[..], beyond);
      assert data[..] == m[..4] + m[4..8] + m[8..];
    }
  }

  /** Reading a word and writing it again leaves the bytes as they were. */
  lemma Unchanged(m: seq<Byte>, beyond: Memory)
    requires |m| >= 12
    ensures Encode32(LE32(m, beyond, 4)) == m[4..8]
  {
    var lo, hi := LE16(m, beyond, 4), LE16(m, beyond, 6);
    Unchanged16(m, beyond, 4);
    Unchanged16(m, beyond, 6);
    Halves(lo, hi);
    assert m[4..8] == m[4..6] + m[6..8];
    hide LE16, Encode16;
  }

  lemma Unchanged16(m: seq<Byte>, beyond: Memory, t: int)
    requires 0 <= t && t + 2 <= |m|
    ensures Encode16(LE16(m, beyond, t)) == m[t..t + 2]
  {
  }

  lemma Halves(lo: int, hi: int)
    requires 0 <= lo < 0x1_0000 && 0 <= hi < 0x1_0000
    ensures (lo + 0x1_0000 * hi) % 0x1_0000 == lo && (lo + 0x1_0000 * hi) / 0x1_0000 == hi
  {
  }

  /** Parses the mapped file, of which the first `datalen` bytes are its contents. The
      RIFF size is corrected in place if it is not that of the file. */
  method ParseWave(data: array<Byte>, beyond: Memory, datalen: nat) returns (r: Result)
    requires data.Length >= 12 && datalen < 0x8000_0000
    modifies data
    ensures data[..] == if IsWave(old(data[..]), beyond) then Corrected(old(data[..]), datalen) else old(data[..])
    ensures r == Parse(data[..], beyond, datalen)
  {
    hide WalkTo, Supported, Corrected, LE16;
    if LE32(data[..], beyond, 0) != RIFF_ID || LE32(data[..], beyond, 8) != WAVE_ID { return Unsupported; }
    ghost var m := data[..];
    CorrectSize(data, beyond, datalen - 8);
    CorrectedIsWave(m, beyond, datalen);
    var fmt := FindChunk(data, beyond, datalen, FMT_ID, 12);
    if fmt == Lost { return Unsupported; }
    if fmt == Hangs { return Endless; }
    if !Supported(data[..], beyond, fmt.at) { return Unsupported; }
    var found := FindChunk(data, beyond, datalen, DATA_ID, NextChunk(data[..], beyond, fmt.at));
    if found == Lost { return Unsupported; }
    if found == Hangs { return Endless; }
    r := Parsed(InfoAt(data[..], beyond, fmt.at, found.at));
  }

  /** The correction does not touch the two identifiers. */
  lemma CorrectedIsWave(m: seq<Byte>, beyond: Memory, datalen: int)
    requires |m| >= 12
    ensures IsWave(Corrected(m, datalen), beyond) == IsWave(m, beyond)
  {
    var c := Corrected(m, datalen);
    assert forall i :: 0 <= i < 4 || 8 <= i < 12 ==> c[i] == m[i];
  }

  // ---------------------------------------------------------- does it ever end

  /** A chunk of size -8 leads back to itself. */
  lemma {:induction false} StandsStill(m: seq<Byte>, beyond: Memory, datalen: nat, id: int, t: int, n: nat)
    requires 0 <= t < datalen < WORD && LE32(m, beyond, t) != id && Signed(LE32(m, beyond, t + 4)) == -8
    ensures WalkTo(m, beyond, datalen, id, t, n) == Hangs
  {
    assert NextChunk(m, beyond, t) == t by { WholeTurn(t); }
    hide LE32, NextChunk;
    if n > 0 { StandsStill(m, beyond, datalen, id, t, n - 1); }
  }

  lemma WholeTurn(t: int)
    requires 0 <= t < WORD
    ensures Wrap(t + 0x1_0000_0000) == t
  {
  }

  /** So the parser does not return from a file whose first chunk is unknown and claims
      that size. */
  lemma EndlessFile(m: seq<Byte>, beyond: Memory, datalen: nat)
    requires IsWave(m, beyond) && 12 < datalen < 0x8000_0000
    requires LE32(m, beyond, 12) != FMT_ID && Signed(LE32(m, beyond, 16)) == -8
    ensures Parse(m, beyond, datalen) == Endless
    ensures forall n :: WalkTo(m, beyond, datalen, FMT_ID, 12, n) == Hangs
  {
    forall n: nat ensures WalkTo(m, beyond, datalen, FMT_ID, 12, n) == Hangs {
      StandsStill(m, beyond, datalen, FMT_ID, 12, n);
    }
  }

  /** The parser looks for the data chunk of this file from position `t` on. */
  ghost predicate SeeksData(m: seq<Byte>, beyond: Memory, datalen: nat, t: int) {
    var found := WalkTo(m, beyond, datalen, FMT_ID, 12, datalen);
    found.Exit? && Supported(m, beyond, found.at) && t == NextChunk(m, beyond, found.at)
  }

  /** The parser does not return exactly when the chunks of a WAVE file lead round in a
      circle before the one sought: the format chunk from the start of the file, or the
      data chunk from behind a format chunk that is supported. */
  lemma EndlessExactly(m: seq<Byte>, beyond: Memory, datalen: nat)
    ensures Parse(m, beyond, datalen) == Endless <==>
              IsWave(m, beyond)
              && (|| GoesRound(m, beyond, datalen, FMT_ID, 12)
                  || exists t :: SeeksData(m, beyond, datalen, t) && GoesRound(m, beyond, datalen, DATA_ID, t))
  {
    hide WalkTo, Supported, IsWave, GoesRound, NextChunk;
    HangsExactly(m, beyond, datalen, FMT_ID, 12);
    var found := WalkTo(m, beyond, datalen, FMT_ID, 12, datalen);
    if found.Exit? && Supported(m, beyond, found.at) {
      var t := NextChunk(m, beyond, found.at);
      assert SeeksData(m, beyond, datalen, t);
      NextIsNat(m, beyond, found.at);
      HangsExactly(m, beyond, datalen, DATA_ID, t);
    }
  }

  lemma NextIsNat(m: seq<Byte>, beyond: Memory, t: int)
    ensures 0 <= NextChunk(m, beyond, t)
  {
    hide LE32;
  }

  /** In particular the parser returns if each chunk it goes on from leads forward. */
  lemma ForwardFileEnds(m: seq<Byte>, beyond: Memory, datalen: nat)
    requires forall k: nat :: AllGoOn(m, beyond, datalen, FMT_ID, 12, k) ==> Forward(m, beyond, Visit(m, beyond, 12, k))
    requires forall t, k: nat :: SeeksData(m, beyond, datalen, t) && AllGoOn(m, beyond, datalen, DATA_ID, t, k)
               ==> Forward(m, beyond, Visit(m, beyond, t, k))
    ensures Parse(m, beyond, datalen) != Endless
  {
    hide WalkTo, Supported, IsWave, NextChunk, AllGoOn, Forward, Visit;
    ForwardEnds(m, beyond, datalen, FMT_ID, 12);
    var found := WalkTo(m, beyond, datalen, FMT_ID, 12, datalen);
    if found.Exit? && Supported(m, beyond, found.at) {
      var t := NextChunk(m, beyond, found.at);
      assert SeeksData(m, beyond, datalen, t);
      NextIsNat(m, beyond, found.at);
      ForwardEnds(m, beyond, datalen, DATA_ID, t);
    }
  }

  /** The chunk at `t` claims a size below 2 GB, its header counted in. */
  predicate OrdinarySize(m: seq<Byte>, beyond: Memory, t: int) {
    LE32(m, beyond, t + 4) < 0x7FFF_FFF8
  }

  lemma OrdinaryIsForward(m: seq<Byte>, beyond: Memory, datalen: nat, id: int, t: int, k: nat)
    requires 0 <= t && datalen <= 0x8000_0000 && AllGoOn(m, beyond, datalen, id, t, k)
    requires OrdinarySize(m, beyond, Visit(m, beyond, t, k))
    ensures Forward(m, beyond, Visit(m, beyond, t, k))
  {
    assert GoesOn(m, beyond, datalen, id, Visit(m, beyond, t, k));
    VisitNat(m, beyond, t, k);
    hide LE32, Visit;
    SizesLeadForward(m, beyond, Visit(m, beyond, t, k));
  }

  /** So the parser returns from every file below 2 GB whose chunks, where the walks go on
      from them, claim ordinary sizes; whatever stands inside the chunks. */
  lemma OrdinaryFileEnds(m: seq<Byte>, beyond: Memory, datalen: nat)
    requires datalen <= 0x8000_0000
    requires forall k: nat :: AllGoOn(m, beyond, datalen, FMT_ID, 12, k)
               ==> OrdinarySize(m, beyond, Visit(m, beyond, 12, k))
    requires forall t, k: nat :: SeeksData(m, beyond, datalen, t) && AllGoOn(m, beyond, datalen, DATA_ID, t, k)
               ==> OrdinarySize(m, beyond, Visit(m, beyond, t, k))
    ensures Parse(m, beyond, datalen) != Endless
  {
    hide AllGoOn, OrdinarySize, Forward, Visit, SeeksData, Parse;
    forall k: nat | AllGoOn(m, beyond, datalen, FMT_ID, 12, k) ensures Forward(m, beyond, Visit(m, beyond, 12, k)) {
      OrdinaryIsForward(m, beyond, datalen, FMT_ID, 12, k);
    }
    forall t, k: nat | SeeksData(m, beyond, datalen, t) && AllGoOn(m, beyond, datalen, DATA_ID, t, k)
      ensures Forward(m, beyond, Visit(m, beyond, t, k))
    {
      SeeksFromNat(m, beyond, datalen, t);
      OrdinaryIsForward(m, beyond, datalen, DATA_ID, t, k);
    }
    ForwardFileEnds(m, beyond, datalen);
  }

  lemma SeeksFromNat(m: seq<Byte>, beyond: Memory, datalen: nat, t: int)
    requires SeeksData(m, beyond, datalen, t)
    ensures 0 <= t
  {
    hide WalkTo, Supported, NextChunk;
    NextIsNat(m, beyond, WalkTo(m, beyond, datalen, FMT_ID, 12, datalen).at);
  }
}
