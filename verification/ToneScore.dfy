/** Tone scores: segments with loop counters and back-jumps, ended by a terminator, and
    the plain list of segments that such a score stands for. */
module ToneScore {

  /** A lowest frequency of -1 marks the terminator; a time of -1 stands for the whole
      playing time. */
  datatype Segment = Segment(low: int, ms: int, loopCnt: int, loopIndex: int)

  /** Where the interpreter stands: the segment, and how often the current loop has
      jumped back. */
  datatype Pos = Pos(index: int, count: int)

  predicate IsTerminator(s: Segment) {
    s.low == -1
  }

  /** The terminator is last and jumps to the start; times are positive or -1; loop
      blocks point back and do not overlap. */
  ghost predicate WellFormed(score: seq<Segment>) {
    && |score| >= 2 && IsTerminator(score[|score| - 1]) && score[|score| - 1].loopIndex == 0
    && (forall j :: 0 <= j < |score| ==> score[j].ms == -1 || score[j].ms > 0)
    && forall j :: 0 <= j < |score| - 1 ==>
         && !IsTerminator(score[j]) && score[j].loopCnt >= 0
         && (score[j].loopCnt != 0 ==> 0 <= score[j].loopIndex <= j)
         && (score[j].loopCnt != 0 ==> forall k :: score[j].loopIndex <= k < j ==> score[k].loopCnt == 0)
  }

  function Count(score: seq<Segment>): int {
    |score| - 1
  }

  /** What follows once the segment at `p` has been played. */
  function Next(s: Segment, p: Pos): Pos {
    if s.loopCnt != 0 && p.count <= s.loopCnt then
      if p.count + 1 > s.loopCnt then Pos(p.index + 1, 0) else Pos(s.loopIndex, p.count + 1)
    else Pos(p.index + 1, p.count)
  }

  // --------------------------------------------------------- the plain score

  function Range(from: int, end: int): (r: seq<int>)
    requires from <= end
    ensures |r| == end - from && forall i :: 0 <= i < |r| ==> r[i] == from + i
  {
    seq(end - from, i requires 0 <= i < end - from => from + i)
  }

  function Repeat<T>(s: seq<T>, times: nat): seq<T> {
    if times == 0 then [] else Repeat(s, times - 1) + s
  }

  /** The first `k` segments in playing order: each block is played once more than its
      loop count says. */
  ghost function Unrolled(score: seq<Segment>, k: nat): seq<int>
    requires WellFormed(score) && k <= Count(score)
  {
    if k == 0 then []
    else
      var last := score[k - 1];
      if last.loopCnt == 0 then Unrolled(score, k - 1) + [k - 1]
      else Unrolled(score, last.loopIndex) + Repeat(Range(last.loopIndex, k), last.loopCnt + 1)
  }

  // --------------------------------------------------------- the interpreter

  predicate Inside(score: seq<Segment>, p: Pos) {
    0 <= p.index < |score| - 1
  }

  /** `path` is what the interpreter plays on its way from `p` to `q`. */
  ghost predicate Plays(score: seq<Segment>, p: Pos, path: seq<int>, q: Pos)
    decreases |path|
  {
    if path == [] then p == q
    else Inside(score, p) && p.index == path[0] && Plays(score, Next(score[p.index], p), path[1..], q)
  }

  lemma {:induction false} PlaysThen(score: seq<Segment>, p: Pos, a: seq<int>, q: Pos, b: seq<int>, r: Pos)
    requires Plays(score, p, a, q) && Plays(score, q, b, r)
    ensures Plays(score, p, a + b, r)
    decreases |a|
  {
    if a == [] {
      assert a + b == b;
    } else {
      PlaysThen(score, Next(score[p.index], p), a[1..], q, b, r);
      assert (a + b)[1..] == a[1..] + b;
    }
  }

  lemma PlaysOne(score: seq<Segment>, p: Pos)
    requires Inside(score, p)
    ensures Plays(score, p, [p.index], Next(score[p.index], p))
  {
    assert [p.index][1..] == [];
  }

  /** Up to the end of its block, segments follow one another, whatever the counter. */
  lemma {:induction false} Straight(score: seq<Segment>, from: int, end: int, count: int)
    requires 0 <= from <= end <= Count(score) && forall k :: from <= k < end ==> score[k].loopCnt == 0
    ensures Plays(score, Pos(from, count), Range(from, end), Pos(end, count))
    decreases end - from
  {
    if from < end {
      Straight(score, from + 1, end, count);
      assert Range(from, end)[1..] == Range(from + 1, end);
    }
  }

  /** Once through a block, to where its last segment leads. */
  lemma Through(score: seq<Segment>, j: int, count: nat)
    requires WellFormed(score) && 0 <= j < Count(score) && score[j].loopCnt != 0
    ensures var l := score[j].loopIndex;
            l <= j && Plays(score, Pos(l, count), Range(l, j + 1), Next(score[j], Pos(j, count)))
  {
    var l := score[j].loopIndex;
    Straight(score, l, j, count);
    PlaysOne(score, Pos(j, count));
    assert Range(l, j + 1) == Range(l, j) + [j];
    hide Plays, WellFormed, Next;
    PlaysThen(score, Pos(l, count), Range(l, j), Pos(j, count), [j], Next(score[j], Pos(j, count)));
  }

  /** From the start of a block, after `count` jumps back, to the place behind it. */
  lemma {:induction false} Looped(score: seq<Segment>, j: int, count: nat)
    requires WellFormed(score) && 0 <= j < Count(score) && score[j].loopCnt != 0 && count <= score[j].loopCnt
    ensures var l := score[j].loopIndex;
            l <= j && Plays(score, Pos(l, count), Repeat(Range(l, j + 1), score[j].loopCnt + 1 - count), Pos(j + 1, 0))
    decreases score[j].loopCnt - count
  {
    Through(score, j, count);
    hide Plays, WellFormed;
    var l := score[j].loopIndex;
    var block, n := Range(l, j + 1), score[j].loopCnt + 1 - count;
    RepeatFront(block, n);
    if n == 1 {
      assert block + Repeat(block, 0) == block;
    } else {
      Looped(score, j, count + 1);
      PlaysThen(score, Pos(l, count), block, Pos(l, count + 1), Repeat(block, n - 1), Pos(j + 1, 0));
    }
  }

  lemma {:induction false} RepeatFront<T>(s: seq<T>, n: nat)
    requires n > 0
    ensures Repeat(s, n) == s + Repeat(s, n - 1)
  {
    if n == 1 {
      assert [] + s == s + [];
    } else {
      RepeatFront(s, n - 1);
      assert s + Repeat(s, n - 2) + s == s + (Repeat(s, n - 2) + s);
    }
  }

  lemma UnrollOne(score: seq<Segment>, k: nat)
    requires WellFormed(score) && 0 < k <= Count(score) && score[k - 1].loopCnt == 0
    requires Plays(score, Pos(0, 0), Unrolled(score, k - 1), Pos(k - 1, 0))
    ensures Plays(score, Pos(0, 0), Unrolled(score, k), Pos(k, 0))
  {
    PlaysOne(score, Pos(k - 1, 0));
    hide Plays, WellFormed;
    PlaysThen(score, Pos(0, 0), Unrolled(score, k - 1), Pos(k - 1, 0), [k - 1], Pos(k, 0));
  }

  lemma UnrollBlock(score: seq<Segment>, k: nat)
    requires WellFormed(score) && 0 < k <= Count(score) && score[k - 1].loopCnt != 0
    requires var l := score[k - 1].loopIndex; 0 <= l < k && Plays(score, Pos(0, 0), Unrolled(score, l), Pos(l, 0))
    ensures Plays(score, Pos(0, 0), Unrolled(score, k), Pos(k, 0))
  {
    var last := score[k - 1];
    Looped(score, k - 1, 0);
    hide Plays;
    PlaysThen(score, Pos(0, 0), Unrolled(score, last.loopIndex), Pos(last.loopIndex, 0),
      Repeat(Range(last.loopIndex, k), last.loopCnt + 1), Pos(k, 0));
  }

  /** The interpreter plays the unrolled score, and leaves its counter at zero. */
  lemma {:induction false} InterpreterUnrolls(score: seq<Segment>, k: nat)
    requires WellFormed(score) && k <= Count(score)
    ensures Plays(score, Pos(0, 0), Unrolled(score, k), Pos(k, 0))
  {
    if k > 0 {
      hide Plays;
      if score[k - 1].loopCnt == 0 {
        InterpreterUnrolls(score, k - 1);
        UnrollOne(score, k);
      } else {
        InterpreterUnrolls(score, score[k - 1].loopIndex);
        UnrollBlock(score, k);
      }
    }
  }

  /** The loop count of the terminator plays no part, although some scores of the table
      give it one and call it a number of bursts. */
  lemma {:induction false} TerminatorCountIgnored(score: seq<Segment>, count: int, k: nat)
    requires WellFormed(score) && k <= Count(score)
    ensures var last := Count(score);
            var other := score[last := score[last].(loopCnt := count)];
            WellFormed(other) && Unrolled(other, k) == Unrolled(score, k)
  {
    if k > 0 {
      TerminatorCountIgnored(score, count, k - 1);
      if score[k - 1].loopCnt != 0 { TerminatorCountIgnored(score, count, score[k - 1].loopIndex); }
    }
  }

  /** One score of the table: two segments twenty times, then three more. */
  const CALL_SIGNAL: seq<Segment> := [
    Segment(2090, 32, 0, 0), Segment(2556, 64, 19, 0), Segment(2090, 32, 0, 0),
    Segment(2556, 48, 0, 0), Segment(0, 4000, 0, 0), Segment(-1, -1, 0, 0)]

  lemma CallSignalWellFormed()
    ensures WellFormed(CALL_SIGNAL)
  {
  }

  lemma CallSignalUnrolled()
    ensures WellFormed(CALL_SIGNAL) && Unrolled(CALL_SIGNAL, 5) == Repeat([0, 1], 20) + [2, 3, 4]
  {
    CallSignalWellFormed();
    var s := CALL_SIGNAL;
    var twenty := Repeat([0, 1], 20);
    assert s[1].loopCnt == 19 && s[1].loopIndex == 0;
    assert s[2].loopCnt == 0 && s[3].loopCnt == 0 && s[4].loopCnt == 0;
    assert Range(0, 2) == [0, 1];
    hide Repeat, WellFormed;
    assert Unrolled(s, 0) == [];
    assert Unrolled(s, 2) == [] + twenty == twenty;
    assert Unrolled(s, 3) == twenty + [2];
    assert Unrolled(s, 4) == twenty + [2] + [3];
    assert twenty + [2] + [3] + [4] == twenty + [2, 3, 4];
  }
}
