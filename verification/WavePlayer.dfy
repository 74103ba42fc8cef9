/** Playing a wave: whole periods are written, the last one of each round filled up with
    silence, until all rounds are played or a stop is seen. */
module WavePlayer {
  import opened Arithmetic
  import opened WaveFormat

  function Silence(n: nat): (r: seq<Byte>)
    ensures |r| == n
  {
    seq(n, _ => 0)
  }

  /** A payload in periods; the last one is filled up. */
  function Periods(payload: seq<Byte>, period: nat): seq<seq<Byte>>
    requires period > 0
    decreases |payload|
  {
    if payload == [] then []
    else if |payload| >= period then [payload[..period]] + Periods(payload[period..], period)
    else [payload + Silence(period - |payload|)]
  }

  function Flatten(blocks: seq<seq<Byte>>): seq<Byte> {
    if blocks == [] then [] else Flatten(blocks[..|blocks| - 1]) + blocks[|blocks| - 1]
  }

  /** What is written when the state is found to be PLAY this many times, of `rounds`
      rounds (-1 without end): each round looks once before it starts, and once before
      every period and after the last. */
  function Played(blocks: seq<seq<Byte>>, rounds: int, looks: nat): seq<seq<Byte>>
    decreases looks
  {
    if rounds == 0 || looks == 0 then []
    else if looks - 1 <= |blocks| then blocks[..looks - 1]
    else blocks + Played(blocks, if rounds == -1 then -1 else rounds - 1, looks - 2 - |blocks|)
  }

  // ---------------------------------------------------------------- the player

  /** One round; `left` is how often the state will still be found to be PLAY. */
  method PlayRound(payload: seq<Byte>, period: nat, looks: nat) returns (out: seq<Byte>, left: nat, stopped: bool)
    requires period > 0
    ensures var blocks := Periods(payload, period);
            if looks <= |blocks| then stopped && out == Flatten(blocks[..looks])
            else !stopped && out == Flatten(blocks) && left == looks - 1 - |blocks|
  {
    var current, i := payload, 0;
    out, left := [], looks;
    ghost var blocks, j := Periods(payload, period), 0;
    assert blocks[0..] == blocks;
    while true
      invariant 0 <= j <= |blocks| && Periods(current, period) == blocks[j..]
      invariant out == Flatten(blocks[..j]) && left + j == looks
      decreases |current|
    {
      if left == 0 { return out, 0, true; }
      left := left - 1;
      if |current| == 0 { break; }
      assert blocks[..j + 1][..j] == blocks[..j] && blocks[j..][1..] == blocks[j + 1..];
      if |current| >= period {
        out := out + current[..period];
        current := current[period..];
      } else {
        out := out + current;
        out := out + Silence(period - |current|);
        current := [];
      }
      j := j + 1;
    }
    stopped := false;
    assert blocks[..j] == blocks;
  }

  /** The bytes that are still to be written. */
  function Ahead(blocks: seq<seq<Byte>>, rounds: int, looks: nat): seq<Byte> {
    Flatten(Played(blocks, rounds, looks))
  }

  lemma NothingAhead(blocks: seq<seq<Byte>>, rounds: int, looks: nat)
    requires rounds == 0 || looks == 0
    ensures Ahead(blocks, rounds, looks) == []
  {
  }

  lemma LastRound(blocks: seq<seq<Byte>>, rounds: int, looks: nat)
    requires rounds != 0 && 0 < looks <= |blocks| + 1
    ensures Ahead(blocks, rounds, looks) == Flatten(blocks[..looks - 1])
  {
  }

  lemma FullRound(blocks: seq<seq<Byte>>, rounds: int, looks: nat)
    requires rounds != 0 && looks > |blocks| + 1
    ensures Ahead(blocks, rounds, looks) ==
              Flatten(blocks) + Ahead(blocks, if rounds == -1 then -1 else rounds - 1, looks - 2 - |blocks|)
  {
    FlattenAppend(blocks, Played(blocks, if rounds == -1 then -1 else rounds - 1, looks - 2 - |blocks|));
  }

  lemma Regroup(a: seq<Byte>, b: seq<Byte>, c: seq<Byte>)
    ensures a + (b + c) == a + b + c
  {
  }

  /** `looks` is how often the state is found to be PLAY before a stop shows. */
  method RunWave(payload: seq<Byte>, period: nat, repeatCount: int, looks: nat) returns (out: seq<Byte>)
    requires period > 0 && repeatCount >= -1
    ensures out == Flatten(Played(Periods(payload, period), repeatCount, looks))
  {
    out := [];
    var repeat, left := repeatCount, looks;
    ghost var blocks := Periods(payload, period);
    ghost var all := Ahead(blocks, repeatCount, looks);
    hide Periods, Flatten, Ahead;
    while repeat != 0 && left != 0
      invariant repeat >= -1 && out + Ahead(blocks, repeat, left) == all
      decreases left
    {
      var round, rest, stopped := PlayRound(payload, period, left - 1);
      ghost var before := out;
      out := out + round;
      if stopped {
        LastRound(blocks, repeat, left);
        return;
      }
      FullRound(blocks, repeat, left);
      repeat := if repeat == -1 then -1 else repeat - 1;
      left := rest;
      Regroup(before, round, Ahead(blocks, repeat, left));
    }
    NothingAhead(blocks, repeat, left);
  }

  // ---------------------------------------------------------------- what it means

  lemma {:induction false} FlattenAppend(a: seq<seq<Byte>>, b: seq<seq<Byte>>)
    ensures Flatten(a + b) == Flatten(a) + Flatten(b)
  {
    if b == [] {
      assert a + b == a;
    } else {
      var n := |b| - 1;
      FlattenAppend(a, b[..n]);
      assert (a + b)[..|a| + n] == a + b[..n];
    }
  }

  function Rounds(blocks: seq<seq<Byte>>, n: nat): seq<seq<Byte>> {
    if n == 0 then [] else blocks + Rounds(blocks, n - 1)
  }

  /** Without a stop, n rounds are written in full. */
  lemma {:induction false} PlayedWhole(blocks: seq<seq<Byte>>, n: nat, looks: nat)
    requires looks >= n * (|blocks| + 2)
    ensures Played(blocks, n, looks) == Rounds(blocks, n)
  {
    if n > 0 {
      assert n * (|blocks| + 2) == (n - 1) * (|blocks| + 2) + |blocks| + 2;
      PlayedWhole(blocks, n - 1, looks - 2 - |blocks|);
    }
  }

  /** A stop leaves a beginning of that, in whole periods. */
  lemma {:induction false} PlayedPrefix(blocks: seq<seq<Byte>>, rounds: int, looks: nat, n: nat)
    requires rounds >= -1 && (rounds == -1 ==> n >= looks) && (rounds != -1 ==> n >= rounds)
    ensures Played(blocks, rounds, looks) <= Rounds(blocks, n)
    decreases looks
  {
    if rounds != 0 && looks != 0 && looks - 1 > |blocks| {
      PlayedPrefix(blocks, if rounds == -1 then -1 else rounds - 1, looks - 2 - |blocks|, n - 1);
    }
  }

  /** The periods hold the payload, filled up with silence, and nothing else. */
  lemma {:induction false} PeriodsHold(payload: seq<Byte>, period: nat)
    requires period > 0
    ensures forall k :: 0 <= k < |Periods(payload, period)| ==> |Periods(payload, period)[k]| == period
    ensures exists fill: nat :: fill < period && Flatten(Periods(payload, period)) == payload + Silence(fill)
    decreases |payload|
  {
    var blocks := Periods(payload, period);
    if payload == [] {
      assert payload + Silence(0) == [];
    } else if |payload| >= period {
      PeriodsHold(payload[period..], period);
      var fill: nat :| fill < period && Flatten(Periods(payload[period..], period)) == payload[period..] + Silence(fill);
      FlattenAppend([payload[..period]], Periods(payload[period..], period));
      FlattenOne(payload[..period]);
      assert payload[..period] + (payload[period..] + Silence(fill)) == payload + Silence(fill);
    } else {
      FlattenOne(payload + Silence(period - |payload|));
    }
  }

  lemma FlattenOne(b: seq<Byte>)
    ensures Flatten([b]) == b
  {
    assert [b][..0] == [];
  }

  function Copies(s: seq<Byte>, n: nat): seq<Byte> {
    if n == 0 then [] else s + Copies(s, n - 1)
  }

  lemma {:induction false} RoundsFlat(blocks: seq<seq<Byte>>, n: nat)
    ensures Flatten(Rounds(blocks, n)) == Copies(Flatten(blocks), n)
  {
    if n > 0 {
      RoundsFlat(blocks, n - 1);
      FlattenAppend(blocks, Rounds(blocks, n - 1));
    }
  }

  lemma {:induction false} FlatLength(blocks: seq<seq<Byte>>, period: nat)
    requires forall k :: 0 <= k < |blocks| ==> |blocks[k]| == period
    ensures |Flatten(blocks)| == |blocks| * period
  {
    if blocks != [] {
      var n := |blocks| - 1;
      FlatLength(blocks[..n], period);
      assert (n + 1) * period == n * period + period;
    }
  }

  /** Without a stop, a wave is written n times, each copy filled up to whole periods. */
  lemma WaveIsRepeated(payload: seq<Byte>, period: nat, n: nat, looks: nat)
    requires period > 0 && looks >= n * (|Periods(payload, period)| + 2)
    ensures exists fill: nat :: fill < period && (|payload| + fill) % period == 0
              && Flatten(Played(Periods(payload, period), n, looks)) == Copies(payload + Silence(fill), n)
  {
    var blocks := Periods(payload, period);
    PlayedWhole(blocks, n, looks);
    RoundsFlat(blocks, n);
    PeriodsHold(payload, period);
    var fill: nat :| fill < period && Flatten(blocks) == payload + Silence(fill);
    FlatLength(blocks, period);
    Whole(|blocks|, period);
    hide Flatten, Periods, Played, Copies;
    assert |payload| + fill == |blocks| * period;
  }

  /** Whenever a stop shows, what was written is a beginning of that stream and ends
      with a whole period. */
  lemma StopKeepsPeriods(payload: seq<Byte>, period: nat, rounds: int, looks: nat)
    requires period > 0 && rounds >= -1
    ensures var blocks := Periods(payload, period);
            var played := Played(blocks, rounds, looks);
            && |Flatten(played)| == |played| * period
            && exists n :: Flatten(played) <= Copies(Flatten(blocks), n)
  {
    var blocks := Periods(payload, period);
    var n := if rounds == -1 then looks else rounds;
    PlayedPrefix(blocks, rounds, looks, n);
    PeriodsHold(payload, period);
    RoundsEven(blocks, n, period);
    var played := Played(blocks, rounds, looks);
    hide Played, Periods;
    assert Rounds(blocks, n) == played + Rounds(blocks, n)[|played|..];
    FlattenAppend(played, Rounds(blocks, n)[|played|..]);
    RoundsFlat(blocks, n);
    assert forall k :: 0 <= k < |played| ==> played[k] == Rounds(blocks, n)[k];
    FlatLength(played, period);
    assert Flatten(played) <= Copies(Flatten(blocks), n);
  }

  lemma {:induction false} RoundsEven(blocks: seq<seq<Byte>>, n: nat, period: nat)
    requires forall k :: 0 <= k < |blocks| ==> |blocks[k]| == period
    ensures forall k :: 0 <= k < |Rounds(blocks, n)| ==> |Rounds(blocks, n)[k]| == period
  {
    if n > 0 { RoundsEven(blocks, n - 1, period); }
  }
}
