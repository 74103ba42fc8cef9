/** Playing a tone score: slices of 100 ms, cut off at the playing time or when stopped. */
module TonePlayer {
  import opened Arithmetic
  import opened ToneScore

  const SLICE := 100

  /** One write to the audio device: from which segment, for how long, how many bytes. */
  datatype Chunk = Chunk(segment: int, ms: int, bytes: int)

  function Abs(n: int): nat {
    if n < 0 then -n else n
  }

  function Duration(s: Segment, toneTime: int): int {
    if s.ms == -1 then Abs(toneTime) else s.ms
  }

  function RoundUpToEven(n: nat): (r: nat)
    ensures r % 2 == 0 && n <= r <= n + 1
  {
    (n + 1) / 2 * 2
  }

  /** Bytes generated for a segment: 44100 Hz, 16 bits, one channel, at most one slice. */
  function ToneSize(s: Segment): nat {
    RoundUpToEven((if s.ms > SLICE || s.ms < 0 then SLICE else s.ms) * 882 / 10)
  }

  /** Bytes written when `played` of `duration` ms of a buffer are used. */
  function WriteLength(size: nat, played: int, duration: int): nat
    requires 0 < played <= duration
  {
    DivisionFits(size, played, duration);
    RoundUpToEven(size * played / duration)
  }

  lemma DivisionFits(size: nat, played: int, duration: int)
    requires 0 < played <= duration
    ensures 0 <= size * played / duration <= size
    ensures size * duration / duration == size
  {
    assert size * played <= size * duration;
    DivisionMonotone(size * played, size * duration, duration);
    DivisionExact(size, duration);
  }

  /** Every write is even and stays within the generated buffer; a full one uses all of it. */
  lemma WriteFits(size: nat, played: int, duration: int)
    requires 0 < played <= duration && size % 2 == 0
    ensures WriteLength(size, played, duration) % 2 == 0
    ensures WriteLength(size, played, duration) <= size
    ensures played == duration ==> WriteLength(size, played, duration) == size
  {
    DivisionFits(size, played, duration);
  }

  // ---------------------------------------------------------------- the stream

  /** Full slices, and a rest if there is one. */
  function SliceList(i: int, size: nat, count: nat, rest: nat): (r: seq<Chunk>)
    ensures |r| == count + if rest == 0 then 0 else 1
    ensures forall w :: 0 <= w < |r| ==> r[w] == Chunk(i, if w < count then SLICE else rest, size)
  {
    seq(count, _ => Chunk(i, SLICE, size)) + if rest == 0 then [] else [Chunk(i, rest, size)]
  }

  function Slices(i: int, s: Segment, d: nat): seq<Chunk> {
    SliceList(i, ToneSize(s), d / SLICE, d % SLICE)
  }

  ghost predicate Valid(score: seq<Segment>, path: seq<int>) {
    forall k :: 0 <= k < |path| ==> 0 <= path[k] < |score| && (score[path[k]].ms == -1 || score[path[k]].ms > 0)
  }

  /** The slices of the segments of a path, one after the other. */
  ghost function Stream(score: seq<Segment>, toneTime: int, path: seq<int>): seq<Chunk>
    requires Valid(score, path)
  {
    if path == [] then []
    else
      var n := |path| - 1;
      Stream(score, toneTime, path[..n]) + Slices(path[n], score[path[n]], Duration(score[path[n]], toneTime))
  }

  function Total(chunks: seq<Chunk>): int {
    if chunks == [] then 0 else Total(chunks[..|chunks| - 1]) + chunks[|chunks| - 1].ms
  }

  /** The last write is shortened so as not to exceed the playing time; -1 never ends. */
  function Cut(c: Chunk, toneTime: int, before: int): Chunk
    requires c.ms > 0 && c.bytes >= 0 && (toneTime == -1 || before < toneTime)
  {
    if before + c.ms > toneTime && toneTime != -1 then
      Chunk(c.segment, toneTime - before, WriteLength(c.bytes, toneTime - before, c.ms))
    else c
  }

  lemma TotalOne(a: seq<Chunk>, c: Chunk)
    ensures Total(a + [c]) == Total(a) + c.ms
  {
    assert (a + [c])[..|a|] == a;
  }

  lemma FullWrite(s: Segment, played: int, duration: int)
    requires 0 < played <= duration
    ensures played == duration ==> WriteLength(ToneSize(s), played, duration) == ToneSize(s)
  {
    WriteFits(ToneSize(s), played, duration);
  }

  /** `chunks` are those of before, some slices, and the next slice cut to the time. */
  ghost predicate CutShort(slices: seq<Chunk>, toneTime: int, before: seq<Chunk>, chunks: seq<Chunk>) {
    exists w :: 0 <= w < |slices| && IsCut(slices[w], toneTime, before + slices[..w], chunks)
  }

  ghost predicate IsCut(c: Chunk, toneTime: int, before: seq<Chunk>, chunks: seq<Chunk>) {
    c.ms > 0 && c.bytes >= 0 && (toneTime == -1 || Total(before) < toneTime)
    && chunks == before + [Cut(c, toneTime, Total(before))]
  }

  // ---------------------------------------------------------------- one segment

  /** Generates and writes one slice, no more of it than there is time for. */
  method PlaySlice(i: int, s: Segment, duration: int, toneTime: int, before: seq<Chunk>, already: int)
    returns (chunks: seq<Chunk>, played: int)
    requires duration > 0 && (toneTime == -1 || already < toneTime) && already == Total(before)
    ensures IsCut(Chunk(i, duration, ToneSize(s)), toneTime, before, chunks) && played == Total(chunks)
    ensures |chunks| == |before| + 1 && (toneTime == -1 || played <= toneTime)
    ensures played != toneTime ==> chunks == before + [Chunk(i, duration, ToneSize(s))]
  {
    var size := ToneSize(s);
    hide ToneSize;
    var playing := duration;
    if already + playing > toneTime && toneTime != -1 { playing := toneTime - already; }
    var c := Chunk(i, playing, WriteLength(size, playing, duration));
    FullWrite(s, playing, duration);
    TotalOne(before, c);
    chunks := before + [c];
    played := already + playing;
  }

  /** How many full slices a segment has, and what is left of it. */
  method WaveCount(s: Segment, toneTime: int, ghost i: int) returns (count: nat, rest: nat)
    requires s.ms == -1 || s.ms > 0
    ensures SliceList(i, ToneSize(s), count, rest) == Slices(i, s, Duration(s, toneTime))
    ensures toneTime != 0 ==> count + rest > 0
  {
    var d := if s.ms == -1 then Abs(toneTime) else s.ms;
    count, rest := d / SLICE, d % SLICE;
  }

  /** Plays a segment behind `before`; done when the time is up or a stop was seen, which
      is looked for after every write. */
  method PlaySlices(i: int, s: Segment, count: nat, rest: nat, toneTime: int, stopAfter: nat,
                    before: seq<Chunk>, already: int)
    returns (chunks: seq<Chunk>, played: int, done: bool)
    requires (toneTime == -1 || already < toneTime) && already == Total(before)
    requires (before == [] || |before| < stopAfter) && count + rest > 0
    ensures played == Total(chunks)
    ensures var slices := SliceList(i, ToneSize(s), count, rest);
            if done then CutShort(slices, toneTime, before, chunks) else chunks == before + slices
    ensures done ==> (played == toneTime || |chunks| >= stopAfter) && (|chunks| <= |before| + 1 || |chunks| <= stopAfter)
    ensures toneTime == -1 || played <= toneTime
    ensures !done ==> (toneTime == -1 || played < toneTime) && |before| < |chunks| < stopAfter
  {
    chunks, played, done := before, already, false;
    ghost var slices := SliceList(i, ToneSize(s), count, rest);
    hide ToneSize, SliceList, Total, IsCut;
    var w := 0;
    while w < count + 1
      invariant 0 <= w <= |slices|
      invariant chunks == before + slices[..w] && played == Total(chunks)
      invariant toneTime == -1 || played < toneTime
      invariant w > 0 ==> |chunks| < stopAfter
    {
      var duration := if w == count then rest else SLICE;
      if duration == 0 { break; }
      chunks, played := PlaySlice(i, s, duration, toneTime, chunks, played);
      if played == toneTime || |chunks| >= stopAfter {
        done := true;
        return;
      }
      assert slices[..w + 1] == slices[..w] + [slices[w]];
      w := w + 1;
    }
    assert slices[..w] == slices;
  }

  // ---------------------------------------------------------------- the whole tone

  lemma {:induction false} PlaysInside(score: seq<Segment>, p: Pos, path: seq<int>, q: Pos)
    requires Plays(score, p, path, q)
    ensures forall k :: 0 <= k < |path| ==> 0 <= path[k] < |score| - 1
    decreases |path|
  {
    if path != [] {
      PlaysInside(score, Next(score[p.index], p), path[1..], q);
      assert forall k :: 1 <= k < |path| ==> path[k] == path[1..][k - 1];
    }
  }

  /** The segments of one pass, in playing order. */
  ghost function OnePass(score: seq<Segment>): (path: seq<int>)
    requires WellFormed(score)
    ensures Valid(score, path) && Plays(score, Pos(0, 0), path, Pos(Count(score), 0))
    ensures path != []
  {
    InterpreterUnrolls(score, Count(score));
    var path := Unrolled(score, Count(score));
    PlaysInside(score, Pos(0, 0), path, Pos(Count(score), 0));
    path
  }

  ghost function PassChunks(score: seq<Segment>, toneTime: int): seq<Chunk>
    requires WellFormed(score)
  {
    Stream(score, toneTime, OnePass(score))
  }

  /** `chunks` repeats `pass` over and over, up to a last one cut to the playing time. */
  ghost predicate Follows(pass: seq<Chunk>, toneTime: int, chunks: seq<Chunk>) {
    exists p: nat, n: nat :: n < |pass| && IsCut(pass[n], toneTime, Repeat(pass, p) + pass[..n], chunks)
  }

  lemma {:induction false} StreamPrefix(score: seq<Segment>, toneTime: int, path: seq<int>, k: nat)
    requires Valid(score, path) && k < |path|
    ensures var head := Stream(score, toneTime, path[..k]);
            var slices := Slices(path[k], score[path[k]], Duration(score[path[k]], toneTime));
            head + slices <= Stream(score, toneTime, path)
  {
    var n := |path| - 1;
    hide Slices, Duration;
    if k < n {
      StreamPrefix(score, toneTime, path[..n], k);
      assert path[..n][..k] == path[..k];
    }
  }

  lemma CutFollows(score: seq<Segment>, toneTime: int, path: seq<int>, p: nat, k: nat, chunks: seq<Chunk>)
    requires Valid(score, path) && k < |path|
    requires var s := score[path[k]];
             CutShort(Slices(path[k], s, Duration(s, toneTime)), toneTime,
               Repeat(Stream(score, toneTime, path), p) + Stream(score, toneTime, path[..k]), chunks)
    ensures Follows(Stream(score, toneTime, path), toneTime, chunks)
  {
    StreamPrefix(score, toneTime, path, k);
    var s := score[path[k]];
    CutAt(Stream(score, toneTime, path), toneTime, p, Stream(score, toneTime, path[..k]),
      Slices(path[k], s, Duration(s, toneTime)), chunks);
  }

  lemma CutAt(pass: seq<Chunk>, toneTime: int, p: nat, head: seq<Chunk>, slices: seq<Chunk>, chunks: seq<Chunk>)
    requires head + slices <= pass && CutShort(slices, toneTime, Repeat(pass, p) + head, chunks)
    ensures Follows(pass, toneTime, chunks)
  {
    hide IsCut, Repeat;
    var w :| 0 <= w < |slices| && IsCut(slices[w], toneTime, Repeat(pass, p) + head + slices[..w], chunks);
    PrefixParts(pass, head, slices, w);
    assert Repeat(pass, p) + head + slices[..w] == Repeat(pass, p) + pass[..|head| + w];
  }

  lemma PrefixParts(pass: seq<Chunk>, head: seq<Chunk>, slices: seq<Chunk>, w: nat)
    requires head + slices <= pass && w < |slices|
    ensures |head| + w < |pass| && pass[|head| + w] == slices[w] && pass[..|head| + w] == head + slices[..w]
  {
    assert (head + slices)[..|head| + w] == head + slices[..w];
  }

  lemma StreamNext(score: seq<Segment>, toneTime: int, path: seq<int>, k: nat)
    requires Valid(score, path) && k < |path|
    ensures Stream(score, toneTime, path[..k + 1]) ==
              Stream(score, toneTime, path[..k]) + Slices(path[k], score[path[k]], Duration(score[path[k]], toneTime))
  {
    assert path[..k + 1][..k] == path[..k];
  }

  lemma PlaysNext(score: seq<Segment>, p: Pos, path: seq<int>, k: nat)
    requires k <= |path| && Plays(score, p, path[k..], Pos(Count(score), 0))
    requires WellFormed(score)
    ensures 0 <= p.index < |score| && (IsTerminator(score[p.index]) <==> k == |path|)
    ensures score[p.index].ms == -1 || score[p.index].ms > 0
    ensures k == |path| ==> p == Pos(Count(score), 0) && score[p.index].loopIndex == 0
    ensures k < |path| ==> p.index == path[k] && Plays(score, Next(score[p.index], p), path[k + 1..], Pos(Count(score), 0))
  {
    if k < |path| { assert path[k..][1..] == path[k + 1..]; }
  }

  /** After `p` passes and `k` segments of the next: what was written, and where the
      interpreter stands. */
  ghost predicate Standing(score: seq<Segment>, toneTime: int, p: nat, k: nat, pos: Pos, chunks: seq<Chunk>)
    requires WellFormed(score)
  {
    var path := OnePass(score);
    && k <= |path| && chunks == Repeat(PassChunks(score, toneTime), p) + Stream(score, toneTime, path[..k])
    && Plays(score, pos, path[k..], Pos(Count(score), 0))
  }

  ghost predicate AtEnd(score: seq<Segment>, k: nat)
    requires WellFormed(score)
  {
    k == |OnePass(score)|
  }

  lemma StandingStart(score: seq<Segment>, toneTime: int)
    requires WellFormed(score)
    ensures Standing(score, toneTime, 0, 0, Pos(0, 0), []) && !AtEnd(score, 0)
  {
    var path := OnePass(score);
    assert path[..0] == [] && path[0..] == path;
    NoStream(score, toneTime);
    assert Repeat(PassChunks(score, toneTime), 0) == [];
    hide Stream, Plays, WellFormed, OnePass, Repeat;
  }

  lemma StandingAt(score: seq<Segment>, toneTime: int, p: nat, k: nat, pos: Pos, chunks: seq<Chunk>)
    requires WellFormed(score) && Standing(score, toneTime, p, k, pos, chunks)
    ensures 0 <= pos.index < |score| && (score[pos.index].ms == -1 || score[pos.index].ms > 0)
    ensures IsTerminator(score[pos.index]) <==> AtEnd(score, k)
  {
    hide WellFormed, OnePass;
    PlaysNext(score, pos, OnePass(score), k);
  }

  lemma StandingAgain(score: seq<Segment>, toneTime: int, p: nat, k: nat, pos: Pos, chunks: seq<Chunk>)
    requires WellFormed(score) && Standing(score, toneTime, p, k, pos, chunks) && AtEnd(score, k)
    ensures 0 <= pos.index < |score|
    ensures Standing(score, toneTime, p + 1, 0, Pos(score[pos.index].loopIndex, pos.count), chunks) && !AtEnd(score, 0)
  {
    hide WellFormed, Stream, OnePass, Plays;
    var path := OnePass(score);
    PlaysNext(score, pos, path, k);
    assert path[..k] == path && path[..0] == [] && path[0..] == path;
    assert Stream(score, toneTime, []) == [] by { NoStream(score, toneTime); }
  }

  lemma NoStream(score: seq<Segment>, toneTime: int)
    ensures Stream(score, toneTime, []) == []
  {
  }

  lemma StandingNext(score: seq<Segment>, toneTime: int, p: nat, k: nat, pos: Pos, chunks: seq<Chunk>)
    requires WellFormed(score) && Standing(score, toneTime, p, k, pos, chunks) && !AtEnd(score, k)
    ensures 0 <= pos.index < |score|
    ensures var s := score[pos.index];
            Standing(score, toneTime, p, k + 1, Next(s, pos), chunks + Slices(pos.index, s, Duration(s, toneTime)))
  {
    hide WellFormed, OnePass, Next, Slices, Duration;
    var path := OnePass(score);
    PlaysNext(score, pos, path, k);
    StreamNext(score, toneTime, path, k);
  }

  lemma StandingCut(score: seq<Segment>, toneTime: int, p: nat, k: nat, pos: Pos, chunks: seq<Chunk>, all: seq<Chunk>)
    requires WellFormed(score) && Standing(score, toneTime, p, k, pos, chunks) && !AtEnd(score, k) && 0 <= pos.index < |score|
    requires var s := score[pos.index]; CutShort(Slices(pos.index, s, Duration(s, toneTime)), toneTime, chunks, all)
    ensures Follows(PassChunks(score, toneTime), toneTime, all)
  {
    hide WellFormed, OnePass, Next, Slices, Duration, CutShort, Follows;
    var path := OnePass(score);
    PlaysNext(score, pos, path, k);
    CutFollows(score, toneTime, path, p, k, all);
  }

  /** Plays a score until the playing time is up or a stop is seen at a write; -1 plays
      until stopped. */
  method RunTone(score: seq<Segment>, toneTime: int, stopAfter: nat) returns (chunks: seq<Chunk>)
    requires WellFormed(score) && toneTime >= -1
    ensures toneTime == 0 ==> chunks == []
    ensures toneTime != 0 ==> Follows(PassChunks(score, toneTime), toneTime, chunks)
    ensures toneTime != 0 ==> Total(chunks) == toneTime || |chunks| >= stopAfter
    ensures toneTime > 0 ==> Total(chunks) <= toneTime
    ensures |chunks| <= 1 || |chunks| <= stopAfter
  {
    chunks := [];
    if toneTime == 0 { return; }
    var curIndex, curCount := 0, 0;
    var played, done := 0, false;
    ghost var p: nat, k: nat := 0, 0;
    StandingStart(score, toneTime);
    hide WellFormed, OnePass, Standing, AtEnd, Next, Slices, Duration, SliceList, ToneSize, CutShort, Follows;
    while true
      invariant Standing(score, toneTime, p, k, Pos(curIndex, curCount), chunks)
      invariant played == Total(chunks) && (toneTime == -1 || played < toneTime)
      invariant chunks == [] || |chunks| < stopAfter
      decreases stopAfter + 1 - |chunks|, AtEnd(score, k)
    {
      StandingAt(score, toneTime, p, k, Pos(curIndex, curCount), chunks);
      var s := score[curIndex];
      var count, rest := WaveCount(s, toneTime, curIndex);
      if IsTerminator(s) {
        StandingAgain(score, toneTime, p, k, Pos(curIndex, curCount), chunks);
        curIndex := s.loopIndex;
        p, k := p + 1, 0;
        continue;
      }
      ghost var before := chunks;
      chunks, played, done := PlaySlices(curIndex, s, count, rest, toneTime, stopAfter, chunks, played);
      if done {
        StandingCut(score, toneTime, p, k, Pos(curIndex, curCount), before, chunks);
        return;
      }
      StandingNext(score, toneTime, p, k, Pos(curIndex, curCount), before);
      var next := Next(s, Pos(curIndex, curCount));
      curIndex, curCount := next.index, next.count;
      k := k + 1;
    }
  }
}
