/** What one hears: which segment sounds in every millisecond of a tone. */
module ToneTrace {
  import opened Arithmetic
  import opened ToneScore
  import opened TonePlayer

  function Copies(i: int, n: int): (r: seq<int>)
    requires n >= 0
    ensures |r| == n && forall m :: 0 <= m < n ==> r[m] == i
  {
    seq(n, _ => i)
  }

  predicate Positive(chunks: seq<Chunk>) {
    forall k :: 0 <= k < |chunks| ==> chunks[k].ms > 0
  }

  /** The segment that sounds in each millisecond of these writes. */
  function Sound(chunks: seq<Chunk>): seq<int>
    requires Positive(chunks)
  {
    if chunks == [] then []
    else
      var n := |chunks| - 1;
      Sound(chunks[..n]) + Copies(chunks[n].segment, chunks[n].ms)
  }

  /** The score itself, millisecond by millisecond: each segment of the unrolled score
      for as long as it lasts. */
  ghost function Melody(score: seq<Segment>, toneTime: int, path: seq<int>): seq<int>
    requires TonePlayer.Valid(score, path)
  {
    if path == [] then []
    else
      var n := |path| - 1;
      Melody(score, toneTime, path[..n]) + Copies(path[n], Duration(score[path[n]], toneTime))
  }

  lemma SoundOneMore(chunks: seq<Chunk>, c: Chunk)
    requires Positive(chunks) && c.ms > 0
    ensures Positive(chunks + [c]) && Sound(chunks + [c]) == Sound(chunks) + Copies(c.segment, c.ms)
  {
    assert (chunks + [c])[..|chunks|] == chunks;
  }

  lemma PositiveAppend(a: seq<Chunk>, b: seq<Chunk>)
    requires Positive(a) && Positive(b)
    ensures Positive(a + b)
  {
  }

  lemma PositiveFront(chunks: seq<Chunk>)
    requires Positive(chunks) && chunks != []
    ensures Positive(chunks[..|chunks| - 1]) && chunks[|chunks| - 1].ms > 0
  {
  }

  lemma {:induction false} SoundAppend(a: seq<Chunk>, b: seq<Chunk>)
    requires Positive(a) && Positive(b)
    ensures Positive(a + b) && Sound(a + b) == Sound(a) + Sound(b)
  {
    PositiveAppend(a, b);
    if b == [] {
      assert a + b == a;
    } else {
      var n := |b| - 1;
      PositiveFront(b);
      SoundAppend(a, b[..n]);
      SoundOneMore(a + b[..n], b[n]);
      SoundOneMore(b[..n], b[n]);
      hide Sound, Positive, Copies;
      Regroup(a, b[..n], [b[n]]);
      Regroup(Sound(a), Sound(b[..n]), Copies(b[n].segment, b[n].ms));
      assert b[..n] + [b[n]] == b;
    }
  }

  lemma Regroup<T>(a: seq<T>, b: seq<T>, c: seq<T>)
    ensures a + b + c == a + (b + c)
  {
  }

  lemma {:induction false} SoundTotal(chunks: seq<Chunk>)
    requires Positive(chunks)
    ensures |Sound(chunks)| == Total(chunks)
  {
    if chunks != [] { SoundTotal(chunks[..|chunks| - 1]); }
  }

  lemma {:induction false} FullSlices(i: int, size: nat, count: nat)
    ensures var slices := SliceList(i, size, count, 0); Positive(slices) && Sound(slices) == Copies(i, count * 100)
  {
    if count > 0 {
      FullSlices(i, size, count - 1);
      assert SliceList(i, size, count, 0)[..count - 1] == SliceList(i, size, count - 1, 0);
    }
  }

  /** Cutting a segment into slices leaves out nothing. */
  lemma SlicesSound(i: int, s: Segment, d: nat)
    ensures var slices := Slices(i, s, d); Positive(slices) && Sound(slices) == Copies(i, d)
  {
    var size, count, rest := ToneSize(s), d / SLICE, d % SLICE;
    assert d == count * 100 + rest;
    FullSlices(i, size, count);
    if rest != 0 {
      var slices := SliceList(i, size, count, rest);
      assert slices[..count] == SliceList(i, size, count, 0);
      hide ToneSize;
    }
  }

  lemma {:induction false} StreamSound(score: seq<Segment>, toneTime: int, path: seq<int>)
    requires TonePlayer.Valid(score, path)
    ensures Positive(Stream(score, toneTime, path))
    ensures Sound(Stream(score, toneTime, path)) == Melody(score, toneTime, path)
  {
    if path != [] {
      var n := |path| - 1;
      var s := score[path[n]];
      hide Slices, Duration;
      StreamSound(score, toneTime, path[..n]);
      DurationNat(s, toneTime);
      SlicesSound(path[n], s, Duration(s, toneTime));
      SoundAppend(Stream(score, toneTime, path[..n]), Slices(path[n], s, Duration(s, toneTime)));
    }
  }

  lemma DurationNat(s: Segment, toneTime: int)
    requires s.ms == -1 || s.ms > 0
    ensures Duration(s, toneTime) >= 0
  {
  }

  lemma {:induction false} RepeatSound(pass: seq<Chunk>, p: nat)
    requires Positive(pass)
    ensures Positive(Repeat(pass, p)) && Sound(Repeat(pass, p)) == Repeat(Sound(pass), p)
  {
    if p > 0 {
      RepeatSound(pass, p - 1);
      SoundAppend(Repeat(pass, p - 1), pass);
    }
  }

  /** Going round: element `m` of a repetition is element `m` modulo the length. */
  lemma {:induction false} RepeatAt<T>(s: seq<T>, p: nat, m: nat)
    requires m < |Repeat(s, p)|
    ensures |s| > 0 && Repeat(s, p)[m] == s[m % |s|]
  {
    RepeatFront(s, p);
    if m < |s| {
      Small(m, |s|);
    } else {
      RepeatAt(s, p - 1, m - |s|);
      Wrap(m, |s|);
    }
  }

  lemma CutSound(c: Chunk, toneTime: int, before: seq<Chunk>, chunks: seq<Chunk>)
    requires Positive(before) && IsCut(c, toneTime, before, chunks)
    ensures Positive(chunks) && Sound(chunks) <= Sound(before + [c])
  {
    var cut := chunks[|before|];
    SoundAppend(before, [cut]);
    SoundAppend(before, [c]);
    SoundOne(cut);
    SoundOne(c);
    assert cut.ms <= c.ms && cut.segment == c.segment;
    assert Copies(cut.segment, cut.ms) <= Copies(c.segment, c.ms);
  }

  lemma SoundOne(c: Chunk)
    requires c.ms > 0
    ensures Sound([c]) == Copies(c.segment, c.ms)
  {
    assert [c][..0] == [];
  }

  lemma PartSound(pass: seq<Chunk>, p: nat, n: nat)
    requires Positive(pass) && n < |pass|
    ensures var before := Repeat(pass, p) + pass[..n];
            Positive(before) && Positive(before + [pass[n]]) && Sound(before + [pass[n]]) <= Repeat(Sound(pass), p + 1)
  {
    var part := Repeat(pass, p) + pass[..n + 1];
    assert Repeat(pass, p) + pass[..n] + [pass[n]] == part;
    RepeatSound(pass, p);
    SoundAppend(pass[..n + 1], pass[n + 1..]);
    SoundAppend(Repeat(pass, p), pass[..n + 1]);
    assert pass[..n + 1] + pass[n + 1..] == pass;
    hide Sound;
  }

  /** What was written is the beginning of the pass repeated for ever. */
  lemma FollowsSound(pass: seq<Chunk>, toneTime: int, chunks: seq<Chunk>)
    requires Positive(pass) && Follows(pass, toneTime, chunks)
    ensures Positive(chunks) && exists p :: Sound(chunks) <= Repeat(Sound(pass), p)
  {
    var p: nat, n: nat :| n < |pass| && IsCut(pass[n], toneTime, Repeat(pass, p) + pass[..n], chunks);
    hide IsCut, Sound, Positive, Repeat;
    PartSound(pass, p, n);
    CutSound(pass[n], toneTime, Repeat(pass, p) + pass[..n], chunks);
    assert Sound(chunks) <= Repeat(Sound(pass), p + 1);
  }

  /** In every millisecond of a tone one hears what the unrolled score, repeated for
      ever, says for it. */
  lemma ToneFollowsScore(score: seq<Segment>, toneTime: int, chunks: seq<Chunk>)
    requires WellFormed(score) && Follows(PassChunks(score, toneTime), toneTime, chunks)
    ensures Positive(chunks) && |Sound(chunks)| == Total(chunks)
    ensures var melody := Melody(score, toneTime, OnePass(score));
            forall m :: 0 <= m < |Sound(chunks)| ==> |melody| > 0 && Sound(chunks)[m] == melody[m % |melody|]
  {
    var path := OnePass(score);
    var pass := PassChunks(score, toneTime);
    StreamSound(score, toneTime, path);
    hide Follows, Sound, Melody, Stream, OnePass;
    FollowsSound(pass, toneTime, chunks);
    SoundTotal(chunks);
    var melody := Melody(score, toneTime, path);
    var p :| Sound(chunks) <= Repeat(melody, p);
    forall m | 0 <= m < |Sound(chunks)| ensures |melody| > 0 && Sound(chunks)[m] == melody[m % |melody|] {
      RepeatAt(melody, p, m);
    }
  }

  lemma {:induction false} MelodyAt(score: seq<Segment>, toneTime: int, path: seq<int>, k: nat, m: nat)
    requires TonePlayer.Valid(score, path) && k < |path|
    requires var start := |Melody(score, toneTime, path[..k])|;
             start <= m < start + Duration(score[path[k]], toneTime)
    ensures m < |Melody(score, toneTime, path)| && Melody(score, toneTime, path)[m] == path[k]
  {
    var n := |path| - 1;
    hide Duration;
    if k < n {
      assert path[..n][..k] == path[..k];
      MelodyAt(score, toneTime, path[..n], k, m);
    }
  }

  lemma InTime(pass: seq<Chunk>, toneTime: int, chunks: seq<Chunk>)
    requires Follows(pass, toneTime, chunks) && toneTime != -1
    ensures Total(chunks) <= toneTime
  {
    var p: nat, n: nat :| n < |pass| && IsCut(pass[n], toneTime, Repeat(pass, p) + pass[..n], chunks);
    var before := Repeat(pass, p) + pass[..n];
    TotalOne(before, Cut(pass[n], toneTime, Total(before)));
    hide Total, Repeat, WriteLength;
  }

  /** A segment that lasts the whole playing time is the last one heard. */
  lemma EndlessIsLast(score: seq<Segment>, toneTime: nat, chunks: seq<Chunk>, k: nat)
    requires WellFormed(score) && Follows(PassChunks(score, toneTime), toneTime, chunks)
    requires k < |OnePass(score)| && score[OnePass(score)[k]].ms == -1
    ensures Positive(chunks) && |Sound(chunks)| <= toneTime
    ensures forall m :: |Melody(score, toneTime, OnePass(score)[..k])| <= m < |Sound(chunks)| ==>
                          Sound(chunks)[m] == OnePass(score)[k]
  {
    var path := OnePass(score);
    var melody := Melody(score, toneTime, path);
    ToneFollowsScore(score, toneTime, chunks);
    InTime(PassChunks(score, toneTime), toneTime, chunks);
    hide Follows, Sound, Melody, Stream, OnePass, WellFormed, PassChunks;
    forall m | |Melody(score, toneTime, path[..k])| <= m < |Sound(chunks)| ensures Sound(chunks)[m] == path[k] {
      MelodyAt(score, toneTime, path, k, m);
      Small(m, |melody|);
    }
  }

  lemma RepeatIn<T>(s: seq<T>, p: nat, x: T)
    ensures x in Repeat(s, p) ==> x in s
  {
    if p > 0 { RepeatIn(s, p - 1, x); }
  }

  /** At most 100 ms of samples are generated at a time, in whole samples. */
  lemma SizeBound(s: Segment)
    ensures ToneSize(s) % 2 == 0 && ToneSize(s) <= 8820
  {
  }

  predicate Fits(score: seq<Segment>, c: Chunk) {
    && 0 <= c.segment < |score| && 0 < c.ms <= 100
    && c.bytes % 2 == 0 && 0 <= c.bytes <= ToneSize(score[c.segment]) <= 8820
  }

  lemma UncutFits(score: seq<Segment>, c: Chunk)
    requires 0 <= c.segment < |score| && 0 < c.ms <= 100 && c.bytes == ToneSize(score[c.segment])
    ensures Fits(score, c)
  {
    SizeBound(score[c.segment]);
    hide ToneSize;
  }

  lemma CutFits(score: seq<Segment>, c: Chunk, toneTime: int, before: int)
    requires Fits(score, c) && (toneTime == -1 || before < toneTime)
    ensures Fits(score, Cut(c, toneTime, before))
  {
    hide ToneSize, WriteLength;
    if toneTime != -1 && before + c.ms > toneTime { WriteFits(c.bytes, toneTime - before, c.ms); }
  }

  lemma PassFits(score: seq<Segment>, toneTime: int)
    requires WellFormed(score)
    ensures forall d :: d in PassChunks(score, toneTime) ==> Fits(score, d)
  {
    StreamWholes(score, toneTime, OnePass(score));
    hide Fits, Stream, OnePass, WellFormed, ToneSize;
    forall d | d in PassChunks(score, toneTime) ensures Fits(score, d) { UncutFits(score, d); }
  }

  /** Every write of a tone takes an even number of bytes, no more than were generated
      for its segment, for at most 100 ms. */
  lemma WritesFit(score: seq<Segment>, toneTime: int, chunks: seq<Chunk>, c: Chunk)
    requires WellFormed(score) && Follows(PassChunks(score, toneTime), toneTime, chunks) && c in chunks
    ensures 0 <= c.segment < |score| && 0 < c.ms <= 100
    ensures c.bytes % 2 == 0 && 0 <= c.bytes <= ToneSize(score[c.segment]) <= 8820
  {
    hide Stream, OnePass, WellFormed, ToneSize, Fits, Total, Cut, PassChunks;
    var pass := PassChunks(score, toneTime);
    PassFits(score, toneTime);
    var p: nat, n: nat :| n < |pass| && IsCut(pass[n], toneTime, Repeat(pass, p) + pass[..n], chunks);
    var before := Repeat(pass, p) + pass[..n];
    RepeatIn(pass, p, c);
    if c !in pass {
      assert pass[n] in pass && c !in before;
      CutFits(score, pass[n], toneTime, Total(before));
    }
    FitsMeaning(score, c);
  }

  lemma FitsMeaning(score: seq<Segment>, c: Chunk)
    requires Fits(score, c)
    ensures 0 <= c.segment < |score| && 0 < c.ms <= 100
    ensures c.bytes % 2 == 0 && 0 <= c.bytes <= ToneSize(score[c.segment]) <= 8820
  {
  }

  // ------------------------------------------------------- bytes and milliseconds

  /** An even number of bytes next to what `ms` milliseconds of 44100 samples of two bytes a
      second come to, that is, 88.2 bytes each. */
  predicate BytesFor(ms: int, bytes: int) {
    bytes % 2 == 0 && 882 * ms - 10 < 10 * bytes <= 882 * ms + 10
  }

  /** There is just one such number. */
  lemma BytesForUnique(ms: int, a: int, b: int)
    requires BytesFor(ms, a) && BytesFor(ms, b)
    ensures a == b
  {
  }

  /** What is generated for a segment of the score: one slice of 100 ms, or all of it. */
  predicate GeneratedFor(s: Segment, bytes: int) {
    if s.ms == -1 || s.ms >= 100 then bytes == 8820 else BytesFor(s.ms, bytes)
  }

  lemma SizeExactly(s: Segment)
    requires s.ms == -1 || s.ms > 0
    ensures GeneratedFor(s, ToneSize(s)) && ToneSize(s) % 2 == 0
  {
  }

  /** An even number of bytes next to the share of `size` bytes that `ms` of `whole`
      milliseconds are. */
  predicate ShareOf(size: int, ms: int, whole: int, bytes: int) {
    bytes % 2 == 0 && size * ms - whole < whole * bytes <= size * ms + whole
  }

  lemma ShareExactly(size: nat, played: int, duration: int)
    requires 0 < played <= duration
    ensures ShareOf(size, played, duration, WriteLength(size, played, duration))
  {
    DivisionFits(size, played, duration);
    var q := size * played / duration;
    var b := RoundUpToEven(q);
    assert size * played == duration * q + size * played % duration;
    assert b == q || b == q + 1;
    assert duration * (q + 1) == duration * q + duration;
  }

  /** A write plays `c.ms` of a slice of `whole` milliseconds, 100 or what is left of the
      segment at its end, for which `size` bytes are generated. */
  predicate WrittenExactly(score: seq<Segment>, toneTime: int, c: Chunk, whole: int, size: int, last: bool) {
    && 0 <= c.segment < |score| && 0 < c.ms <= whole <= 100
    && (whole == 100 || whole == Duration(score[c.segment], toneTime) % 100)
    && (!last ==> c.ms == whole)
    && GeneratedFor(score[c.segment], size) && ShareOf(size, c.ms, whole, c.bytes)
    && (c.ms == whole ==> c.bytes == size)
  }

  lemma {:induction false} StreamWholes(score: seq<Segment>, toneTime: int, path: seq<int>)
    requires TonePlayer.Valid(score, path)
    ensures forall c :: c in Stream(score, toneTime, path) ==>
              && 0 <= c.segment < |score| && (score[c.segment].ms == -1 || score[c.segment].ms > 0)
              && c.bytes == ToneSize(score[c.segment]) && 0 < c.ms <= 100
              && (c.ms == 100 || c.ms == Duration(score[c.segment], toneTime) % 100)
  {
    hide ToneSize, Duration;
    if path != [] { StreamWholes(score, toneTime, path[..|path| - 1]); }
  }

  lemma UncutExactly(score: seq<Segment>, toneTime: int, c: Chunk, last: bool)
    requires 0 <= c.segment < |score| && (score[c.segment].ms == -1 || score[c.segment].ms > 0)
    requires c.bytes == ToneSize(score[c.segment]) && 0 < c.ms <= 100
    requires c.ms == 100 || c.ms == Duration(score[c.segment], toneTime) % 100
    ensures WrittenExactly(score, toneTime, c, c.ms, c.bytes, last)
  {
    SizeExactly(score[c.segment]);
    ShareOfAll(c.bytes, c.ms);
    hide ToneSize, Duration, GeneratedFor, ShareOf;
  }

  lemma ShareOfAll(size: nat, ms: int)
    requires ms > 0 && size % 2 == 0
    ensures ShareOf(size, ms, ms, size)
  {
  }

  lemma CutExactly(score: seq<Segment>, toneTime: int, whole: Chunk, played: int, c: Chunk)
    requires 0 <= whole.segment < |score| && (score[whole.segment].ms == -1 || score[whole.segment].ms > 0)
    requires whole.bytes == ToneSize(score[whole.segment]) && 0 < played <= whole.ms <= 100
    requires whole.ms == 100 || whole.ms == Duration(score[whole.segment], toneTime) % 100
    requires c == Chunk(whole.segment, played, WriteLength(whole.bytes, played, whole.ms))
    ensures WrittenExactly(score, toneTime, c, whole.ms, whole.bytes, true)
  {
    SizeExactly(score[whole.segment]);
    ShareExactly(whole.bytes, played, whole.ms);
    WriteFits(whole.bytes, played, whole.ms);
    hide ToneSize, Duration, GeneratedFor, ShareOf, WriteLength;
  }

  /** Every write of a tone has the bytes that its milliseconds come to: all that is
      generated for its segment, or, for a last one that is cut, the share that was played. */
  lemma WritesExactly(score: seq<Segment>, toneTime: int, chunks: seq<Chunk>, k: nat)
    returns (milliseconds: int, size: int)
    requires WellFormed(score) && Follows(PassChunks(score, toneTime), toneTime, chunks) && k < |chunks|
    ensures WrittenExactly(score, toneTime, chunks[k], milliseconds, size, k == |chunks| - 1)
  {
    var pass := PassChunks(score, toneTime);
    StreamWholes(score, toneTime, OnePass(score));
    hide Stream, OnePass, WellFormed, ToneSize, Duration, WrittenExactly, Total, WriteLength;
    var p: nat, n: nat :| n < |pass| && IsCut(pass[n], toneTime, Repeat(pass, p) + pass[..n], chunks);
    var before := Repeat(pass, p) + pass[..n];
    var whole := pass[n];
    assert whole in pass;
    if k < |before| {
      assert chunks[k] == before[k];
      RepeatIn(pass, p, chunks[k]);
      assert chunks[k] in Repeat(pass, p) || chunks[k] in pass[..n];
      UncutExactly(score, toneTime, chunks[k], k == |chunks| - 1);
      milliseconds, size := chunks[k].ms, chunks[k].bytes;
    } else {
      var c := Cut(whole, toneTime, Total(before));
      assert chunks[k] == c;
      if c == whole {
        UncutExactly(score, toneTime, c, true);
      } else {
        CutExactly(score, toneTime, whole, toneTime - Total(before), c);
      }
      milliseconds, size := whole.ms, whole.bytes;
    }
  }
}
