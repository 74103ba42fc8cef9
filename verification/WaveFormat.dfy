/** RIFF/WAVE files as bytes: little-endian numbers, chunks, and the walk over chunks. */
module WaveFormat {
  import opened Counting

  type Byte = b: int | 0 <= b < 256 witness 0

  /** The bytes behind the mapped file, whatever they are. */
  type Memory = int -> Byte

  const WORD := 0x1_0000_0000
  const RIFF_ID := 0x4646_4952
  const WAVE_ID := 0x4556_4157
  const FMT_ID := 0x2074_6D66
  const DATA_ID := 0x6174_6164
  const PCM := 1

  function ByteAt(m: seq<Byte>, beyond: Memory, i: int): Byte {
    if 0 <= i < |m| then m[i] else beyond(i)
  }

  function LE16(m: seq<Byte>, beyond: Memory, t: int): (r: int)
    ensures 0 <= r < 0x1_0000
  {
    ByteAt(m, beyond, t) + 0x100 * ByteAt(m, beyond, t + 1)
  }

  function LE32(m: seq<Byte>, beyond: Memory, t: int): (r: int)
    ensures 0 <= r < 0x1_0000_0000
  {
    LE16(m, beyond, t) + 0x1_0000 * LE16(m, beyond, t + 2)
  }

  function Encode16(v: int): (r: seq<Byte>)
    requires 0 <= v < 0x1_0000
    ensures |r| == 2
  {
    [v % 0x100, v / 0x100]
  }

  function Encode32(v: int): (r: seq<Byte>)
    requires 0 <= v < 0x1_0000_0000
    ensures |r| == 4
  {
    Encode16(v % 0x1_0000) + Encode16(v / 0x1_0000)
  }

  /** An unsigned 32-bit word wraps around. */
  function Wrap(v: int): (r: int)
    ensures 0 <= r < 0x1_0000_0000 && (0 <= v < 0x1_0000_0000 ==> r == v)
  {
    v % 0x1_0000_0000
  }

  /** The two's complement reading of a 32-bit word. */
  function Signed(v: int): int {
    if v < 0x8000_0000 then v else v - 0x1_0000_0000
  }

  // ------------------------------------------------------------ reading back

  /** The bytes `part` stand at position `t` of `m`. */
  predicate Stands(m: seq<Byte>, t: int, part: seq<Byte>) {
    0 <= t && t + |part| <= |m| && m[t..t + |part|] == part
  }

  lemma StandsAt(m: seq<Byte>, t: int, part: seq<Byte>, i: int)
    requires Stands(m, t, part) && 0 <= i < |part|
    ensures m[t + i] == part[i]
  {
    assert m[t..t + |part|][i] == part[i];
  }

  lemma StandsSplit(m: seq<Byte>, t: int, a: seq<Byte>, b: seq<Byte>)
    requires Stands(m, t, a + b)
    ensures Stands(m, t, a) && Stands(m, t + |a|, b)
  {
    assert m[t..t + |a|] == m[t..t + |a + b|][..|a|];
    assert m[t + |a|..t + |a + b|] == m[t..t + |a + b|][|a|..];
    assert (a + b)[..|a|] == a && (a + b)[|a|..] == b;
  }

  lemma Read16(m: seq<Byte>, beyond: Memory, t: int, v: int)
    requires 0 <= v < 0x1_0000 && Stands(m, t, Encode16(v))
    ensures LE16(m, beyond, t) == v
  {
    StandsAt(m, t, Encode16(v), 0);
    StandsAt(m, t, Encode16(v), 1);
  }

  lemma Read32(m: seq<Byte>, beyond: Memory, t: int, v: int)
    requires 0 <= v < 0x1_0000_0000 && Stands(m, t, Encode32(v))
    ensures LE32(m, beyond, t) == v
  {
    StandsSplit(m, t, Encode16(v % 0x1_0000), Encode16(v / 0x1_0000));
    Read16(m, beyond, t, v % 0x1_0000);
    Read16(m, beyond, t + 2, v / 0x1_0000);
  }

  // ---------------------------------------------------------------- the walk

  datatype Walk = Exit(at: int) | Lost | Hangs

  function NextChunk(m: seq<Byte>, beyond: Memory, t: int): int {
    Wrap(t + LE32(m, beyond, t + 4) + 8)
  }

  /** Goes from chunk to chunk until one has this id, or the end of the file is passed;
      at most `n` times on. The position is an unsigned word. */
  function WalkTo(m: seq<Byte>, beyond: Memory, datalen: int, id: int, t: int, n: nat): Walk
    decreases n
  {
    if LE32(m, beyond, t) == id || t >= datalen then Exit(t)
    else if NextChunk(m, beyond, t) >= datalen then Lost
    else if n == 0 then Hangs
    else WalkTo(m, beyond, datalen, id, NextChunk(m, beyond, t), n - 1)
  }

  /** Neither a chunk with this id nor the end of the file, neither here nor next. */
  predicate GoesOn(m: seq<Byte>, beyond: Memory, datalen: int, id: int, t: int) {
    LE32(m, beyond, t) != id && t < datalen && NextChunk(m, beyond, t) < datalen
  }

  /** The position after `k` chunks. */
  function Visit(m: seq<Byte>, beyond: Memory, t: int, k: nat): int {
    if k == 0 then t else NextChunk(m, beyond, Visit(m, beyond, t, k - 1))
  }

  lemma {:induction false} VisitFront(m: seq<Byte>, beyond: Memory, t: int, k: nat)
    ensures Visit(m, beyond, t, k + 1) == Visit(m, beyond, NextChunk(m, beyond, t), k)
  {
    hide NextChunk;
    if k > 0 { VisitFront(m, beyond, t, k - 1); }
  }

  ghost predicate AllGoOn(m: seq<Byte>, beyond: Memory, datalen: int, id: int, t: int, n: nat) {
    forall k :: 0 <= k <= n ==> GoesOn(m, beyond, datalen, id, Visit(m, beyond, t, k))
  }

  lemma AllGoOnStep(m: seq<Byte>, beyond: Memory, datalen: int, id: int, t: int, n: nat)
    requires n > 0
    ensures AllGoOn(m, beyond, datalen, id, t, n) <==>
              GoesOn(m, beyond, datalen, id, t) && AllGoOn(m, beyond, datalen, id, NextChunk(m, beyond, t), n - 1)
  {
    var next := NextChunk(m, beyond, t);
    assert Visit(m, beyond, t, 0) == t;
    forall k | 0 <= k <= n - 1 ensures Visit(m, beyond, t, k + 1) == Visit(m, beyond, next, k) {
      VisitFront(m, beyond, t, k);
    }
    hide Visit, GoesOn, NextChunk;
    if AllGoOn(m, beyond, datalen, id, t, n) {
      assert GoesOn(m, beyond, datalen, id, Visit(m, beyond, t, 0));
      forall k | 0 <= k <= n - 1 ensures GoesOn(m, beyond, datalen, id, Visit(m, beyond, next, k)) {
        assert GoesOn(m, beyond, datalen, id, Visit(m, beyond, t, k + 1));
      }
    } else if GoesOn(m, beyond, datalen, id, t) {
      var k :| 0 <= k <= n && !GoesOn(m, beyond, datalen, id, Visit(m, beyond, t, k));
      assert !GoesOn(m, beyond, datalen, id, Visit(m, beyond, next, k - 1));
    }
  }

  /** A walk hangs after `n` chunks exactly when it could go on from all of them. */
  lemma {:induction false} HangsMeaning(m: seq<Byte>, beyond: Memory, datalen: int, id: int, t: int, n: nat)
    ensures WalkTo(m, beyond, datalen, id, t, n) == Hangs <==> AllGoOn(m, beyond, datalen, id, t, n)
    decreases n
  {
    if n > 0 {
      HangsMeaning(m, beyond, datalen, id, NextChunk(m, beyond, t), n - 1);
      AllGoOnStep(m, beyond, datalen, id, t, n);
      hide AllGoOn, LE32, NextChunk;
    } else {
      assert Visit(m, beyond, t, 0) == t;
      hide LE32, NextChunk;
    }
  }

  /** The walk comes back to a chunk it has been at, with no reason to stop before. */
  ghost predicate GoesRound(m: seq<Byte>, beyond: Memory, datalen: int, id: int, t: int) {
    exists i: nat, j: nat :: i < j && Visit(m, beyond, t, i) == Visit(m, beyond, t, j)
      && forall k: nat :: k < j ==> GoesOn(m, beyond, datalen, id, Visit(m, beyond, t, k))
  }

  lemma GoesRoundForEver(m: seq<Byte>, beyond: Memory, datalen: int, id: int, t: int, n: nat)
    requires GoesRound(m, beyond, datalen, id, t)
    ensures AllGoOn(m, beyond, datalen, id, t, n)
  {
    hide Visit, GoesOn;
    var i: nat, j: nat :| i < j && Visit(m, beyond, t, i) == Visit(m, beyond, t, j)
      && forall k: nat :: k < j ==> GoesOn(m, beyond, datalen, id, Visit(m, beyond, t, k));
    forall k | 0 <= k <= n ensures GoesOn(m, beyond, datalen, id, Visit(m, beyond, t, k)) {
      var s := Around(m, beyond, t, i, j, k, j);
      if s == j { assert GoesOn(m, beyond, datalen, id, Visit(m, beyond, t, i)); }
    }
  }

  /** More chunks than there are positions: two of them are the same. */
  lemma AllGoOnGoesRound(m: seq<Byte>, beyond: Memory, datalen: nat, id: int, t: int)
    requires 0 <= t && AllGoOn(m, beyond, datalen, id, t, datalen)
    ensures GoesRound(m, beyond, datalen, id, t)
  {
    var places := seq(datalen + 1, k requires 0 <= k <= datalen => Visit(m, beyond, t, k));
    forall k | 0 <= k < |places| ensures 0 <= places[k] < datalen {
      assert GoesOn(m, beyond, datalen, id, Visit(m, beyond, t, k));
      VisitNat(m, beyond, t, k);
    }
    var i, j := Pigeonhole(places, datalen);
    hide Visit, GoesOn;
    assert Visit(m, beyond, t, i) == Visit(m, beyond, t, j);
  }

  /** A walk never ends exactly when it comes back to a chunk it has been at before it met
      one it looks for or passed the end of the file; and as many turns as there are bytes
      tell whether it will. */
  lemma HangsExactly(m: seq<Byte>, beyond: Memory, datalen: nat, id: int, t: int)
    requires 0 <= t
    ensures WalkTo(m, beyond, datalen, id, t, datalen) == Hangs <==> GoesRound(m, beyond, datalen, id, t)
    ensures (forall n: nat :: WalkTo(m, beyond, datalen, id, t, n) == Hangs) <==> GoesRound(m, beyond, datalen, id, t)
  {
    hide WalkTo, GoesRound;
    HangsMeaning(m, beyond, datalen, id, t, datalen);
    if AllGoOn(m, beyond, datalen, id, t, datalen) { AllGoOnGoesRound(m, beyond, datalen, id, t); }
    if GoesRound(m, beyond, datalen, id, t) {
      forall n: nat ensures WalkTo(m, beyond, datalen, id, t, n) == Hangs {
        HangsMeaning(m, beyond, datalen, id, t, n);
        GoesRoundForEver(m, beyond, datalen, id, t, n);
      }
    }
  }

  /** The next chunk lies behind this one. */
  predicate Forward(m: seq<Byte>, beyond: Memory, t: int) {
    t < NextChunk(m, beyond, t)
  }

  /** So it is with every size below 2 GB that stays below it with the header counted in. */
  lemma SizesLeadForward(m: seq<Byte>, beyond: Memory, t: int)
    requires 0 <= t < 0x8000_0000 && LE32(m, beyond, t + 4) < 0x7FFF_FFF8
    ensures Forward(m, beyond, t)
  {
    hide LE32;
  }

  /** When every chunk the walk goes on from leads forward, the walk ends. */
  lemma ForwardEnds(m: seq<Byte>, beyond: Memory, datalen: nat, id: int, t: int)
    requires 0 <= t
    requires forall k: nat :: AllGoOn(m, beyond, datalen, id, t, k) ==> Forward(m, beyond, Visit(m, beyond, t, k))
    ensures WalkTo(m, beyond, datalen, id, t, datalen) != Hangs
  {
    hide WalkTo, GoesOn, Forward;
    HangsExactly(m, beyond, datalen, id, t);
    if GoesRound(m, beyond, datalen, id, t) {
      var i: nat, j: nat :| i < j && Visit(m, beyond, t, i) == Visit(m, beyond, t, j)
        && forall k: nat :: k < j ==> GoesOn(m, beyond, datalen, id, Visit(m, beyond, t, k));
      forall k | i <= k < j ensures Forward(m, beyond, Visit(m, beyond, t, k)) {
        assert AllGoOn(m, beyond, datalen, id, t, k);
      }
      Rises(m, beyond, t, i, j);
    }
  }

  lemma {:induction false} Rises(m: seq<Byte>, beyond: Memory, t: int, i: nat, j: nat)
    requires i < j && forall k :: i <= k < j ==> Forward(m, beyond, Visit(m, beyond, t, k))
    ensures Visit(m, beyond, t, i) < Visit(m, beyond, t, j)
  {
    hide NextChunk;
    assert Forward(m, beyond, Visit(m, beyond, t, j - 1));
    if i < j - 1 { Rises(m, beyond, t, i, j - 1); }
  }

  lemma VisitNat(m: seq<Byte>, beyond: Memory, t: int, k: nat)
    requires 0 <= t
    ensures 0 <= Visit(m, beyond, t, k)
  {
    hide LE32;
  }

  /** Having come back to a place, a walk visits only places it has seen. */
  lemma {:induction false} Around(m: seq<Byte>, beyond: Memory, t: int, i: nat, j: nat, k: nat, last: nat)
    returns (s: nat)
    requires i < j <= last && Visit(m, beyond, t, i) == Visit(m, beyond, t, j)
    ensures s <= last && Visit(m, beyond, t, k) == Visit(m, beyond, t, s)
    decreases k
  {
    hide Visit;
    s := k;
    if k > j {
      Shift(m, beyond, t, i, j, k - j);
      s := Around(m, beyond, t, i, j, k - (j - i), last);
    }
  }

  lemma {:induction false} Shift(m: seq<Byte>, beyond: Memory, t: int, i: nat, j: nat, d: nat)
    requires Visit(m, beyond, t, i) == Visit(m, beyond, t, j)
    ensures Visit(m, beyond, t, i + d) == Visit(m, beyond, t, j + d)
  {
    hide NextChunk;
    if d > 0 { Shift(m, beyond, t, i, j, d - 1); }
  }
}
