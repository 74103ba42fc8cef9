/** What the renderer of key tones writes: the payload in periods, and two periods of
    silence behind a last one that had to be filled up. */
module KeytoneOutput {
  import opened Arithmetic
  import opened WaveFormat
  import opened WavePlayer

  /** The periods written when no stop is found the first `looks` times. */
  function Rendered(payload: seq<Byte>, period: nat, looks: nat): seq<seq<Byte>>
    requires period > 0
    decreases looks
  {
    if payload == [] || looks == 0 then []
    else if |payload| < period then [payload + Silence(period - |payload|), Silence(period), Silence(period)]
    else [payload[..period]] + Rendered(payload[period..], period, looks - 1)
  }

  method RenderTone(payload: seq<Byte>, period: nat, looks: nat) returns (out: seq<Byte>)
    requires period > 0
    ensures out == Flatten(Rendered(payload, period, looks))
  {
    var buf, left := payload, looks;
    out := [];
    while |buf| != 0
      invariant out + Flatten(Rendered(buf, period, left)) == Flatten(Rendered(payload, period, looks))
      decreases |buf|
    {
      if left == 0 { return; }
      if |buf| < period {
        LastThree(buf + Silence(period - |buf|), period);
        out := out + (buf + Silence(period - |buf|));
        out := out + Silence(period);
        out := out + Silence(period);
        return;
      }
      FlattenAppend([buf[..period]], Rendered(buf[period..], period, left - 1));
      FlattenOne(buf[..period]);
      out := out + buf[..period];
      buf := buf[period..];
      left := left - 1;
    }
  }

  lemma LastThree(b: seq<Byte>, period: nat)
    ensures Flatten([b, Silence(period), Silence(period)]) == b + Silence(period) + Silence(period)
  {
    assert [b, Silence(period), Silence(period)][..2] == [b, Silence(period)];
    assert [b, Silence(period)][..1] == [b];
    FlattenOne(b);
  }

  /** Two periods of silence, if the last period had to be filled up. */
  function Quiet(fill: nat, period: nat): seq<Byte> {
    if fill == 0 then [] else Silence(period) + Silence(period)
  }

  lemma FrontAndRest(payload: seq<Byte>, period: nat, fill: nat, blocks: seq<seq<Byte>>)
    requires period <= |payload| && Flatten(blocks) == payload[period..] + Silence(fill) + Quiet(fill, period)
    ensures Flatten([payload[..period]] + blocks) == payload + Silence(fill) + Quiet(fill, period)
  {
    FlattenAppend([payload[..period]], blocks);
    FlattenOne(payload[..period]);
    hide Flatten, Quiet;
    var rest := Silence(fill) + Quiet(fill, period);
    assert payload[..period] + (payload[period..] + Silence(fill) + Quiet(fill, period)) == payload + rest;
    assert payload + rest == payload + Silence(fill) + Quiet(fill, period);
  }

  /** How much silence fills up the last period. */
  function Fill(n: nat, period: nat): (fill: nat)
    requires period > 0
    ensures fill < period
  {
    if n == 0 then 0 else if n < period then period - n else Fill(n - period, period)
  }

  lemma {:induction false} FillMeaning(n: nat, period: nat)
    requires period > 0
    ensures (n + Fill(n, period)) % period == 0
  {
    if n < period {
      NextMultiple(0, period);
    } else {
      FillMeaning(n - period, period);
      NextMultiple(n - period + Fill(n - period, period), period);
    }
  }

  /** Uninterrupted, the whole payload is heard; if its end had to be filled up, two
      silent periods follow. */
  lemma {:induction false} RenderedWhole(payload: seq<Byte>, period: nat, looks: nat)
    requires period > 0 && looks >= |Periods(payload, period)|
    ensures var fill := Fill(|payload|, period);
            && Flatten(Rendered(payload, period, looks)) == payload + Silence(fill) + Quiet(fill, period)
            && (|payload| + fill) % period == 0
    decreases looks
  {
    FillMeaning(|payload|, period);
    if payload == [] {
      hide Flatten;
      assert Flatten([]) == [] by { FlattenNone(); }
    } else if |payload| < period {
      RenderedLast(payload, period, looks);
      hide Flatten, Rendered;
    } else {
      RenderedWhole(payload[period..], period, looks - 1);
      hide Flatten;
      FrontAndRest(payload, period, Fill(|payload|, period), Rendered(payload[period..], period, looks - 1));
    }
  }

  lemma FlattenNone()
    ensures Flatten([]) == []
  {
  }

  lemma RenderedLast(payload: seq<Byte>, period: nat, looks: nat)
    requires 0 < |payload| < period && looks > 0
    ensures var fill := period - |payload|;
            Flatten(Rendered(payload, period, looks)) == payload + Silence(fill) + Quiet(fill, period)
  {
    var last := payload + Silence(period - |payload|);
    LastThree(last, period);
    hide Flatten;
    assert last + Silence(period) + Silence(period) == last + (Silence(period) + Silence(period));
  }

  /** A stop cuts the tone off after whole periods. */
  lemma {:induction false} RenderedPrefix(payload: seq<Byte>, period: nat, looks: nat, more: nat)
    requires period > 0 && looks <= more
    ensures Rendered(payload, period, looks) <= Rendered(payload, period, more)
    ensures forall k :: 0 <= k < |Rendered(payload, period, looks)| ==> |Rendered(payload, period, looks)[k]| == period
    decreases looks
  {
    if payload != [] && looks > 0 && |payload| >= period {
      RenderedPrefix(payload[period..], period, looks - 1, more - 1);
    }
  }
}
