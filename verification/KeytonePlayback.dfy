/** What the device gets to play between the start of a key tone and its end: the whole
    tone, or a beginning of it if a stop comes in between. */
module KeytonePlayback {
  import opened WaveFormat
  import opened WavePlayer
  import opened KeytoneProtocol
  import opened KeytoneOutput

  /** The device is written so many times. */
  function Writes(k: nat): (r: seq<Effect>)
    ensures |r| == k && forall i :: 0 <= i < k ==> r[i] == DeviceWritten
  {
    seq(k, _ => DeviceWritten)
  }

  lemma WritesAppend(j: nat, k: nat)
    ensures Writes(j) + Writes(k) == Writes(j + k)
  {
  }

  // ------------------------------------------------------- a tone in periods

  function Less(size: nat, period: nat): nat {
    if size < period then 0 else size - period
  }

  /** What is left of a tone after so many looks at the state. */
  function Left(size: nat, period: nat, looks: nat): nat {
    if looks == 0 then size else Less(Left(size, period, looks - 1), period)
  }

  /** How often the device is written between two looks. */
  function Portion(size: nat, period: nat): nat {
    if size == 0 then 0 else if size < period then 3 else 1
  }

  lemma {:induction false} LeftShift(size: nat, period: nat, looks: nat)
    requires period > 0 && looks > 0
    ensures Left(size, period, looks) == Left(Less(size, period), period, looks - 1)
  {
    if looks > 1 { LeftShift(size, period, looks - 1); }
  }

  lemma {:induction false} NothingLeft(period: nat, looks: nat)
    ensures Left(0, period, looks) == 0
  {
    if looks > 0 { NothingLeft(period, looks - 1); }
  }

  /** One more look at the state lets one more period out, or the last three. */
  lemma {:induction false} RenderedNext(payload: seq<Byte>, period: nat, looks: nat)
    requires period > 0
    ensures |Rendered(payload, period, looks + 1)|
            == |Rendered(payload, period, looks)| + Portion(Left(|payload|, period, looks), period)
    decreases looks
  {
    NothingLeft(period, if looks == 0 then 0 else looks - 1);
    if looks > 0 {
      LeftShift(|payload|, period, looks);
      if |payload| >= period { RenderedNext(payload[period..], period, looks - 1); }
    }
    if looks == 0 && |payload| >= period { assert Rendered(payload[period..], period, 0) == []; }
  }

  /** A tone is over after as many looks as it has periods. */
  lemma {:induction false} OverExactly(payload: seq<Byte>, period: nat, looks: nat)
    requires period > 0
    ensures Left(|payload|, period, looks) == 0 <==> looks >= |Periods(payload, period)|
    decreases looks
  {
    if payload == [] {
      NothingLeft(period, looks);
    } else if looks > 0 {
      LeftShift(|payload|, period, looks);
      if |payload| >= period {
        OverExactly(payload[period..], period, looks - 1);
      } else {
        NothingLeft(period, looks - 1);
      }
    }
  }

  /** Every full period is written once; a rest is filled up and two silent ones follow. */
  function WholeTone(size: nat, period: nat): nat
    requires period > 0
  {
    size / period + if size % period == 0 then 0 else 3
  }

  lemma WholeToneNext(size: nat, period: nat)
    requires 0 < period
    ensures size >= period ==> WholeTone(size, period) == 1 + WholeTone(size - period, period)
    ensures size < period ==> WholeTone(size, period) == if size == 0 then 0 else 3
  {
    var q, r := size / period, size % period;
    if size >= period {
      var n := size - period;
      assert n == period * (q - 1) + r;
      Arithmetic.Multiple(q, period);
      Arithmetic.Remainder(n, period, q - 1, r);
      Arithmetic.Wrap(size, period);
      Quotient(n, period, q - 1, r);
    } else {
      Arithmetic.Small(size, period);
      Quotient(size, period, 0, size);
    }
  }

  lemma Quotient(m: nat, n: nat, q: int, r: nat)
    requires n > 0 && m == n * q + r && r < n
    ensures m / n == q
  {
    var q2 := m / n;
    assert m == n * q2 + m % n;
    assert (q - q2) * n == m % n - r;
    Arithmetic.Multiple(q - q2, n);
  }

  lemma {:induction false} RenderedCount(payload: seq<Byte>, period: nat, looks: nat)
    requires period > 0 && looks >= |Periods(payload, period)|
    ensures |Rendered(payload, period, looks)| == WholeTone(|payload|, period)
    decreases looks
  {
    WholeToneNext(|payload|, period);
    hide WholeTone;
    if |payload| >= period { RenderedCount(payload[period..], period, looks - 1); }
  }

  // ------------------------------------------------------------- the renderer

  /** How far the renderer has come with a tone, `m` steps of its own after it took it over:
      at every second step it looks at the state, and after a look it writes. */
  predicate At(s: State, payload: seq<Byte>, period: nat, m: nat, t: State)
    requires period > 0
  {
    && t.log == s.log + Writes(|Rendered(payload, period, m / 2)|)
    && t.size == Left(|payload|, period, m / 2)
    && (t.renderer == AtCheck ==> m % 2 == 0)
    && (t.renderer == AtWrite ==> m % 2 == 1 && t.size > 0)
    && (t.renderer == AtFinish ==> m % 2 == 1 && (t.size == 0 || t.render == Stop))
  }

  /** While a tone is played the controller can do no more than ask for a stop. */
  lemma ControlOfPlaying(s: State, outcome: Outcome, file: nat, bytes: nat)
    requires Inv(s) && Playing(s.renderer)
    ensures var t := ControlStep(s, outcome, file, bytes);
            t == if s.render == Started then s.(render := Stop, controller := Waiting) else s
  {
    hide Legal, IsOpen, Serve;
  }

  lemma AtOther(s: State, payload: seq<Byte>, period: nat, m: nat, t: State, u: State)
    requires period > 0 && At(s, payload, period, m, t)
    requires u.log == t.log && u.size == t.size && u.renderer == t.renderer && (t.render == Stop ==> u.render == Stop)
    ensures At(s, payload, period, m, u)
  {
    hide Rendered, Left, Writes;
  }

  lemma AtCheckNext(s: State, payload: seq<Byte>, period: nat, m: nat, t: State)
    requires period > 0 && At(s, payload, period, m, t) && t.renderer == AtCheck
    ensures At(s, payload, period, m + 1, AdvanceStep(t, period))
  {
    hide Rendered, Left, Writes, Written, TakeOver;
  }

  lemma WrittenIs(size: nat, period: nat)
    requires size > 0
    ensures Written(size, period) == Writes(Portion(size, period))
  {
  }

  lemma AtWriteNext(s: State, payload: seq<Byte>, period: nat, m: nat, t: State)
    requires period > 0 && At(s, payload, period, m, t) && t.renderer == AtWrite
    ensures At(s, payload, period, m + 1, AdvanceStep(t, period))
  {
    var looks := m / 2;
    var before := |Rendered(payload, period, looks)|;
    var portion := Portion(t.size, period);
    RenderedNext(payload, period, looks);
    WrittenIs(t.size, period);
    WritesAppend(before, portion);
    assert (m + 1) / 2 == looks + 1;
    assert Left(|payload|, period, looks + 1) == Less(t.size, period);
    hide Rendered, Left, Writes, Written, TakeOver, Portion;
    assert s.log + Writes(before) + Writes(portion) == s.log + (Writes(before) + Writes(portion));
  }

  lemma AtNext(s: State, payload: seq<Byte>, period: nat, m: nat, t: State, a: Action)
    requires period > 0 && Inv(t) && At(s, payload, period, m, t) && (a.Advance? ==> a.period == period)
    requires Playing(t.renderer) && Playing(Step(t, a).renderer)
    ensures At(s, payload, period, if a.Advance? then m + 1 else m, Step(t, a))
  {
    match a {
      case Control(outcome, file, bytes) => ControlOfPlaying(t, outcome, file, bytes);
      case Advance(_) =>
        if t.renderer == AtCheck { AtCheckNext(s, payload, period, m, t); }
        if t.renderer == AtWrite { AtWriteNext(s, payload, period, m, t); }
      case Timeout =>
    }
    hide Inv, At, Serve, TakeOver, Written;
    if !a.Advance? { AtOther(s, payload, period, m, t, Step(t, a)); }
  }

  /** The period of the device does not change while it is open. */
  predicate InPeriods(actions: seq<Action>, period: nat) {
    forall k :: 0 <= k < |actions| && actions[k].Advance? ==> actions[k].period == period
  }

  ghost predicate KeepsPlaying(s: State, actions: seq<Action>) {
    forall k :: 0 <= k <= |actions| ==> Playing(Run(s, actions[..k]).renderer)
  }

  lemma KeepsPlayingFront(s: State, actions: seq<Action>)
    requires KeepsPlaying(s, actions) && actions != []
    ensures var n := |actions| - 1;
            KeepsPlaying(s, actions[..n]) && Playing(Run(s, actions[..n]).renderer) && Playing(Run(s, actions).renderer)
  {
    hide Run;
    var n := |actions| - 1;
    assert actions[..n + 1] == actions;
    forall k | 0 <= k <= n ensures Playing(Run(s, actions[..n][..k]).renderer) {
      assert actions[..n][..k] == actions[..k];
    }
  }

  /** From the start of a tone to its end, whatever requests come in between: what was
      written is the tone up to where the renderer looked last. So a stop cuts the tone
      short after whole periods. */
  lemma {:induction false} WritesBeginning(s: State, actions: seq<Action>, payload: seq<Byte>, period: nat)
    requires Inv(s) && s.renderer == AtCheck && s.size == |payload|
    requires period > 0 && InPeriods(actions, period) && KeepsPlaying(s, actions)
    ensures var looks := Advances(actions) / 2;
            var t := Run(s, actions);
            && Inv(t) && At(s, payload, period, Advances(actions), t)
            && t.log == s.log + Writes(|Rendered(payload, period, looks)|)
            && Rendered(payload, period, looks) <= Rendered(payload, period, |Periods(payload, period)| + looks)
  {
    hide Inv, Step, InPeriods, KeepsPlaying, Rendered, Left, Writes;
    RenderedPrefix(payload, period, Advances(actions) / 2, |Periods(payload, period)| + Advances(actions) / 2);
    if actions == [] {
      AtStart(s, payload, period);
    } else {
      var n := |actions| - 1;
      KeepsPlayingFront(s, actions);
      PeriodsFront(actions, period);
      WritesBeginning(s, actions[..n], payload, period);
      var m := Run(s, actions[..n]);
      InvStep(m, actions[n]);
      AtNext(s, payload, period, Advances(actions[..n]), m, actions[n]);
    }
  }

  lemma PeriodsFront(actions: seq<Action>, period: nat)
    requires InPeriods(actions, period) && actions != []
    ensures var n := |actions| - 1;
            InPeriods(actions[..n], period) && (actions[n].Advance? ==> actions[n].period == period)
  {
  }

  lemma AtStart(s: State, payload: seq<Byte>, period: nat)
    requires period > 0 && s.renderer == AtCheck && s.size == |payload|
    ensures At(s, payload, period, 0, s)
  {
    assert Rendered(payload, period, 0) == [];
    assert s.log + Writes(0) == s.log;
  }

  // ---------------------------------------------------------- the whole tone

  predicate Uninterrupted(actions: seq<Action>) {
    forall k :: 0 <= k < |actions| ==> !actions[k].Control?
  }

  /** The renderer is on its way through a tone of so many periods. */
  predicate UnderWay(t: State, m: nat, periods: nat) {
    && t.render == Started && Playing(t.renderer)
    && m / 2 <= periods && (t.renderer == AtFinish <==> m == 2 * periods + 1)
  }

  lemma UnderWayNext(t: State, payload: seq<Byte>, period: nat, m: nat, s: State, a: Action)
    requires period > 0 && Inv(t) && At(s, payload, period, m, t) && UnderWay(t, m, |Periods(payload, period)|)
    requires !a.Control? && (a.Advance? ==> a.period == period && m <= 2 * |Periods(payload, period)|)
    ensures UnderWay(Step(t, a), if a.Advance? then m + 1 else m, |Periods(payload, period)|)
  {
    OverExactly(payload, period, m / 2);
    hide Inv, Rendered, Writes, Left, Periods, TakeOver, Written;
  }

  /** A tone that no request interrupts is written as a whole: the renderer is through after
      two steps for every period and one more, and the device was then written once for
      every full period, and three times if there is a rest. */
  lemma {:induction false} ToneIsWritten(s: State, actions: seq<Action>, payload: seq<Byte>, period: nat)
    requires Inv(s) && TakenOver(s, s.playing, |payload|)
    requires period > 0 && InPeriods(actions, period) && Uninterrupted(actions)
    requires Advances(actions) <= 2 * |Periods(payload, period)| + 1
    ensures var t := Run(s, actions);
            && Inv(t) && At(s, payload, period, Advances(actions), t)
            && UnderWay(t, Advances(actions), |Periods(payload, period)|)
            && (t.renderer == AtFinish ==> t.log == s.log + Writes(WholeTone(|payload|, period)))
  {
    hide Inv, Step, InPeriods, Rendered, Left, Writes, Periods, UnderWay, At, WholeTone;
    if actions == [] {
      AtStart(s, payload, period);
      UnderWayStart(s, |Periods(payload, period)|);
    } else {
      var n := |actions| - 1;
      PeriodsFront(actions, period);
      ToneIsWritten(s, actions[..n], payload, period);
      var m, a := Run(s, actions[..n]), actions[n];
      InvStep(m, a);
      UnderWayNext(m, payload, period, Advances(actions[..n]), s, a);
      UnderWayPlays(m, Step(m, a), Advances(actions[..n]), Advances(actions), |Periods(payload, period)|);
      AtNext(s, payload, period, Advances(actions[..n]), m, a);
    }
    ToneIsOver(s, payload, period, Advances(actions), Run(s, actions));
  }

  lemma UnderWayStart(s: State, periods: nat)
    requires s.render == Started && s.renderer == AtCheck
    ensures UnderWay(s, 0, periods)
  {
  }

  lemma UnderWayPlays(t: State, u: State, m: nat, n: nat, periods: nat)
    requires UnderWay(t, m, periods) && UnderWay(u, n, periods)
    ensures Playing(t.renderer) && Playing(u.renderer)
  {
  }

  lemma ToneIsOver(s: State, payload: seq<Byte>, period: nat, m: nat, t: State)
    requires period > 0 && At(s, payload, period, m, t) && UnderWay(t, m, |Periods(payload, period)|)
    ensures t.renderer == AtFinish ==> t.log == s.log + Writes(WholeTone(|payload|, period))
  {
    hide Rendered, Left, Writes, Periods, WholeTone;
    if t.renderer == AtFinish {
      RenderedCount(payload, period, m / 2);
    }
  }

  // ------------------------------------------------------------ a tone cut short

  /** The controller goes on, and the device was written what comes out in so many looks. */
  ghost predicate CutAfter(s: State, payload: seq<Byte>, period: nat, looks: nat, t: State)
    requires period > 0
  {
    && t.controller == Woken
    && t.log == s.log + Writes(|Rendered(payload, period, looks)|)
    && forall more :: looks <= more ==> Rendered(payload, period, looks) <= Rendered(payload, period, more)
  }

  lemma CutNow(s: State, payload: seq<Byte>, period: nat, looks: nat, t: State)
    requires period > 0 && t.controller == Woken && t.log == s.log + Writes(|Rendered(payload, period, looks)|)
    ensures CutAfter(s, payload, period, looks, t)
  {
    hide Rendered, Writes;
    forall more: nat | looks <= more ensures Rendered(payload, period, looks) <= Rendered(payload, period, more) {
      RenderedPrefix(payload, period, looks, more);
    }
  }

  lemma Answered(u: State, after: seq<Action>, period: nat, log: seq<Effect>) returns (k: nat)
    requires Inv(u) && u.controller == Waiting && Advances(after) >= 3 && InPeriods(after, period)
    requires u.log + Outstanding(u, period) == log
    ensures k <= |after| && Run(u, after[..k]).controller == Woken && Run(u, after[..k]).log == log
  {
    PeriodOfFirst(after, period);
    hide Inv, Run, InPeriods, Advances, Outstanding, FirstPeriod;
    WaitIsAnswered(u, after);
    k :| 0 <= k <= |after| && Run(u, after[..k]).controller == Woken
         && Run(u, after[..k]).log == u.log + Outstanding(u, FirstPeriod(after));
  }

  /** A request stops the tone after `before`. Within three steps the renderer answers, and
      then the device was written a beginning of the tone: what comes out in as many looks
      as the renderer had begun. */
  lemma StopCutsTone(
    s: State, before: seq<Action>, request: Action, after: seq<Action>, payload: seq<Byte>, period: nat)
    returns (k: nat)
    requires Inv(s) && TakenOver(s, s.playing, |payload|) && request.Control?
    requires period > 0 && InPeriods(before, period) && InPeriods(after, period) && Uninterrupted(before)
    requires Advances(before) <= 2 * |Periods(payload, period)| + 1 && Advances(after) >= 3
    ensures k <= |after|
    ensures CutAfter(s, payload, period, (Advances(before) + 1) / 2, Run(Step(Run(s, before), request), after[..k]))
  {
    var u, looks := Step(Run(s, before), request), (Advances(before) + 1) / 2;
    StoppedAt(s, before, request, payload, period);
    hide Inv, Step, Run, TakenOver, InPeriods, Rendered, Writes, Periods, Advances, Outstanding, CutAfter, Uninterrupted;
    k := Answered(u, after, period, s.log + Writes(|Rendered(payload, period, looks)|));
    CutNow(s, payload, period, looks, Run(u, after[..k]));
  }

  /** When the request comes, the writes up to the end of the last look are settled. */
  lemma StoppedAt(s: State, before: seq<Action>, request: Action, payload: seq<Byte>, period: nat)
    requires Inv(s) && TakenOver(s, s.playing, |payload|) && request.Control?
    requires period > 0 && InPeriods(before, period) && Uninterrupted(before)
    requires Advances(before) <= 2 * |Periods(payload, period)| + 1
    ensures var u := Step(Run(s, before), request);
            && Inv(u) && u.controller == Waiting
            && u.log + Outstanding(u, period) == s.log + Writes(|Rendered(payload, period, (Advances(before) + 1) / 2)|)
  {
    hide Inv, Step, Run, InPeriods, Rendered, Writes, Periods, UnderWay, At, WholeTone, Advances, Outstanding;
    var t := Run(s, before);
    ToneIsWritten(s, before, payload, period);
    StopAsked(t, request, Advances(before), |Periods(payload, period)|);
    InvStep(t, request);
    Committed(s, payload, period, Advances(before), t);
    OutstandingOf(t, Step(t, request), period);
  }

  lemma OutstandingOf(t: State, u: State, period: nat)
    requires u.renderer == t.renderer && u.size == t.size
    ensures Outstanding(t, period) == Outstanding(u, period)
  {
  }

  lemma StopAsked(t: State, request: Action, m: nat, periods: nat)
    requires Inv(t) && UnderWay(t, m, periods) && request.Control?
    ensures Step(t, request) == t.(render := Stop, controller := Waiting)
  {
    ControlOfPlaying(t, request.outcome, request.file, request.bytes);
    hide Inv, ControlStep;
  }

  lemma {:induction false} PeriodOfFirst(actions: seq<Action>, period: nat)
    requires InPeriods(actions, period) && Advances(actions) > 0
    ensures FirstPeriod(actions) == period
  {
    var n := |actions| - 1;
    if Advances(actions[..n]) > 0 { PeriodOfFirst(actions[..n], period); }
  }

  /** The writes that the renderer is committed to belong to the look it took last. */
  lemma Committed(s: State, payload: seq<Byte>, period: nat, m: nat, t: State)
    requires period > 0 && At(s, payload, period, m, t) && UnderWay(t, m, |Periods(payload, period)|)
    ensures t.log + Outstanding(t, period) == s.log + Writes(|Rendered(payload, period, (m + 1) / 2)|)
  {
    var before := |Rendered(payload, period, m / 2)|;
    var portion := Portion(t.size, period);
    RenderedNext(payload, period, m / 2);
    WritesAppend(before, portion);
    if t.size > 0 { WrittenIs(t.size, period); }
    if t.renderer == AtFinish { OverExactly(payload, period, m / 2); }
    assert t.renderer != AtCheck ==> (m + 1) / 2 == m / 2 + 1;
    hide Rendered, Left, Writes, Written, Periods;
    assert s.log + Writes(before) + Writes(portion) == s.log + (Writes(before) + Writes(portion));
  }

  // --------------------------------------------------------- the idle device

  /** A request whose file and header are good; while the device is open it is handed over. */
  predicate HandsOver(a: Action) {
    a.Control? && a.outcome != OpenFails && a.outcome != ParseFails
  }

  predicate SomeHandOver(actions: seq<Action>) {
    exists k :: 0 <= k < |actions| && HandsOver(actions[k])
  }

  predicate TimesOut(actions: seq<Action>) {
    exists k :: 0 <= k < |actions| && actions[k].Timeout?
  }

  /** A renderer that waits for the next request, `s`, and where it is before it moves. */
  predicate Idle(s: State, handed: bool, late: bool, t: State) {
    && t.log == s.log && t.created && t.controller == Reading
    && t.render == (if handed then Start else TimedWait)
    && if handed then t.renderer.WokenTimed? else t.renderer == (if late then WokenTimed(true) else WaitTimed)
  }

  lemma IdleStart(s: State)
    requires Inv(s) && s.renderer == WaitTimed
    ensures Idle(s, false, false, s)
  {
    hide Legal, IsOpen;
  }

  lemma IdleNext(s: State, handed: bool, late: bool, t: State, a: Action)
    requires Idle(s, handed, late, t) && !a.Advance?
    ensures Idle(s, handed || HandsOver(a), late || a.Timeout?, Step(t, a))
  {
  }

  lemma SomeNext(actions: seq<Action>)
    requires actions != []
    ensures var n := |actions| - 1;
            && (SomeHandOver(actions) <==> SomeHandOver(actions[..n]) || HandsOver(actions[n]))
            && (TimesOut(actions) <==> TimesOut(actions[..n]) || actions[n].Timeout?)
  {
    var n := |actions| - 1;
    assert forall k :: 0 <= k < n ==> actions[..n][k] == actions[k];
    hide HandsOver;
  }

  lemma {:induction false} WaitsIdly(s: State, actions: seq<Action>)
    requires Inv(s) && s.renderer == WaitTimed && Advances(actions) == 0
    ensures Idle(s, SomeHandOver(actions), TimesOut(actions), Run(s, actions))
  {
    IdleStart(s);
    hide Inv, Step, Idle, HandsOver;
    if actions != [] {
      var n := |actions| - 1;
      WaitsIdly(s, actions[..n]);
      SomeNext(actions);
      hide SomeHandOver, TimesOut;
      IdleNext(s, SomeHandOver(actions[..n]), TimesOut(actions[..n]), Run(s, actions[..n]), actions[n]);
    }
  }

  /** The device is closed after the tones if and only if the wait times out and no good
      request comes before the renderer goes on, not even after the time is up. A request
      in time finds the device as it was, and is taken over by the next step but one. */
  lemma IdleDeviceIsClosed(s: State, actions: seq<Action>, period: nat)
    requires Inv(s) && s.renderer == WaitTimed && Advances(actions) == 0
    ensures var t := Step(Run(s, actions), Advance(period));
            if SomeHandOver(actions) then
              t.log == s.log && t.created && t.render == Start && t.renderer == AtTop
            else if TimesOut(actions) then
              t.log == s.log + [DeviceClosed] && !t.created && t.render == Stopped && t.renderer == AtTop
            else
              t.log == s.log && t.created && t.render == TimedWait && t.renderer == WaitTimed
  {
    WaitsIdly(s, actions);
    hide Inv, Run, SomeHandOver, TimesOut;
  }

  lemma WaitsAfterTone(s: State, period: nat)
    requires Inv(s) && s.renderer == AtFinish && s.render == Started
    ensures Step(s, Advance(period)) == s.(render := TimedWait, renderer := WaitTimed)
  {
    hide Inv;
  }

  lemma NoneHandedOver(actions: seq<Action>)
    requires Uninterrupted(actions)
    ensures !SomeHandOver(actions)
  {
  }

  lemma FinishedTone(t: State, m: nat, periods: nat)
    requires UnderWay(t, m, periods) && m == 2 * periods + 1
    ensures t.renderer == AtFinish && t.render == Started
  {
  }

  /** A tone to its end, a step on, the timeout, and another step, with no request in all
      that time: the device was written the whole tone and then closed. */
  lemma ToneThenClosed(s: State, tone: seq<Action>, wait: seq<Action>, payload: seq<Byte>, period: nat)
    requires Inv(s) && TakenOver(s, s.playing, |payload|) && period > 0
    requires InPeriods(tone, period) && Uninterrupted(tone) && Advances(tone) == 2 * |Periods(payload, period)| + 1
    requires Uninterrupted(wait) && Advances(wait) == 0 && TimesOut(wait)
    ensures var t := Step(Run(Step(Run(s, tone), Advance(period)), wait), Advance(period));
            && t.log == s.log + Writes(WholeTone(|payload|, period)) + [DeviceClosed]
            && !t.created && t.render == Stopped
  {
    ToneIsWritten(s, tone, payload, period);
    var t := Run(s, tone);
    FinishedTone(t, Advances(tone), |Periods(payload, period)|);
    hide Inv, Step, Run, InPeriods, Periods, UnderWay, At, WholeTone, Advances, TakenOver, TimesOut, SomeHandOver;
    hide Uninterrupted, Writes;
    WaitsAfterTone(t, period);
    InvStep(t, Advance(period));
    NoneHandedOver(wait);
    IdleDeviceIsClosed(Step(t, Advance(period)), wait, period);
  }

  // -------------------------------------------------------------------- files

  /** A file that is played is closed when its tone is over or cut short: outside the write
      loop the renderer never holds one. */
  lemma {:induction false} FilesAreClosed(actions: seq<Action>)
    ensures var s := Run(Initial, actions);
            s.playing != Closed ==> s.renderer == AtCheck || s.renderer == AtWrite
  {
    if actions != [] {
      var n := |actions| - 1;
      FilesAreClosed(actions[..n]);
      InvRun(actions[..n]);
      HoldsNoFile(Run(Initial, actions[..n]), actions[n]);
      hide Step, Inv;
    }
  }

  lemma HoldsNoFile(s: State, a: Action)
    requires Inv(s) && (s.playing != Closed ==> s.renderer == AtCheck || s.renderer == AtWrite)
    ensures var t := Step(s, a); t.playing != Closed ==> t.renderer == AtCheck || t.renderer == AtWrite
  {
    hide Legal, IsOpen, Written;
  }

  /** A request that fails hands nothing over and disturbs nothing; if its file was opened,
      it is closed again. That the device cannot be opened matters only if it is closed. */
  lemma RequestIsRefused(s: State, request: Action)
    requires Inv(s) && request.Control? && s.controller != Waiting && s.render != Started
    requires !HandsOver(request) || (request.outcome == CreateFails && !s.created)
    ensures var t := Step(s, request);
            && t.source == (if request.outcome == OpenFails then s.source else Closed)
            && t.render == s.render && t.renderer == s.renderer && t.created == s.created
            && t.playing == s.playing && t.size == s.size && t.log == s.log && t.controller == Reading
  {
    hide Inv;
  }
}
