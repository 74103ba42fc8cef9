/** The key tone player: a controller that reads requests and a renderer that plays them
    share one lock, one condition variable and one state. A step is what a thread does
    between taking the lock and giving it up, or between two uses of the lock. */
module KeytoneProtocol {

  datatype Render = Ready | Start | Started | Stop | Stopped | StoppedWait | TimedWait

  /** Waiting threads have released the lock; a woken one has yet to take it again. */
  datatype Controller = Reading | Waiting | Woken

  datatype Renderer =
    | NotRunning | AtTop | WaitStopped | WokenStopped
    | AtCheck | AtWrite | AtFinish | WaitTimed | WokenTimed(timedOut: bool)

  /** How a request turns out: the file, the header and the audio device may fail. */
  datatype Outcome = OpenFails | ParseFails | CreateFails | Succeeds

  datatype Effect = DeviceOpened | DeviceWritten | DeviceClosed

  datatype Source = Closed | Mapped(file: nat)

  /** `source` and `pending` are the file the controller read last and the size of its
      payload; `playing` and `size` are the renderer's file and what is left of it; `log`
      is what happened to the audio device. */
  datatype State = State(
    render: Render, created: bool, controller: Controller, renderer: Renderer,
    source: Source, pending: nat, playing: Source, size: nat, log: seq<Effect>)

  datatype Action =
    | Control(outcome: Outcome, file: nat, bytes: nat)
    | Advance(period: nat)
    | Timeout

  const Initial := State(Ready, false, Reading, NotRunning, Closed, 0, Closed, 0, [])

  // -------------------------------------------------------------- controller

  /** Wakes the renderer if it waits on the condition; otherwise the signal is lost. */
  function SignalRenderer(r: Renderer): Renderer {
    match r
    case WaitStopped => WokenStopped
    case WaitTimed => WokenTimed(false)
    case _ => r
  }

  function SignalController(c: Controller): Controller {
    if c == Waiting then Woken else c
  }

  /** The rest of a request, under the lock. A file that does not open leaves the last
      one in place; one with a bad header has taken its place, and is closed again. */
  function Serve(s: State, outcome: Outcome, file: nat, bytes: nat): State {
    if outcome == OpenFails then s.(controller := Reading)
    else if outcome == ParseFails then s.(source := Closed, controller := Reading)
    else if !s.created && outcome == CreateFails then s.(source := Closed, pending := bytes, controller := Reading)
    else
      var log := if s.created then s.log else s.log + [DeviceOpened];
      var renderer := if s.renderer == NotRunning then AtTop else s.renderer;
      var woken := if s.render == StoppedWait || s.render == TimedWait then SignalRenderer(renderer) else renderer;
      s.(created := true, log := log, source := Mapped(file), pending := bytes,
          renderer := woken, render := Start, controller := Reading)
  }

  /** A request arrives, or the controller goes on after its wait. */
  function ControlStep(s: State, outcome: Outcome, file: nat, bytes: nat): State {
    match s.controller
    case Reading =>
      if s.render == Started then s.(render := Stop, controller := Waiting) else Serve(s, outcome, file, bytes)
    case Woken => Serve(s, outcome, file, bytes)
    case Waiting => s
  }

  // ---------------------------------------------------------------- renderer

  /** What goes to the device between two looks at the state: one period, or the last one
      filled up and two silent periods behind it. */
  function Written(size: nat, period: nat): seq<Effect> {
    if size < period then [DeviceWritten, DeviceWritten, DeviceWritten] else [DeviceWritten]
  }

  /** Takes over a new request if there is one. */
  function TakeOver(s: State): State {
    if s.render == Start then s.(render := Started, playing := s.source, size := s.pending, renderer := AtCheck)
    else s.(renderer := AtCheck)
  }

  function AdvanceStep(s: State, period: nat): State {
    match s.renderer
    case AtTop => if s.render == Stopped then s.(render := StoppedWait, renderer := WaitStopped) else TakeOver(s)
    case WokenStopped => TakeOver(s)
    case AtCheck =>
      if s.size == 0 || s.render == Stop then s.(playing := Closed, renderer := AtFinish) else s.(renderer := AtWrite)
    case AtWrite =>
      s.(renderer := AtCheck, size := if s.size < period then 0 else s.size - period,
         log := s.log + Written(s.size, period))
    case AtFinish =>
      if s.render == Stop then s.(render := Stopped, controller := SignalController(s.controller), renderer := AtTop)
      else s.(render := TimedWait, renderer := WaitTimed)
    case WokenTimed(timedOut) =>
      if timedOut && s.render != Start then
        s.(log := s.log + [DeviceClosed], created := false, render := Stopped, renderer := AtTop)
      else s.(renderer := AtTop)
    case _ => s
  }

  /** An action of a thread that cannot move changes nothing. */
  function Step(s: State, a: Action): State {
    match a
    case Control(outcome, file, bytes) => ControlStep(s, outcome, file, bytes)
    case Advance(period) => AdvanceStep(s, period)
    case Timeout => if s.renderer == WaitTimed then s.(renderer := WokenTimed(true)) else s
  }

  function Run(s: State, actions: seq<Action>): State {
    if actions == [] then s
    else
      var n := |actions| - 1;
      Step(Run(s, actions[..n]), actions[n])
  }

  // --------------------------------------------------------------- invariant

  predicate Playing(r: Renderer) {
    r == AtCheck || r == AtWrite || r == AtFinish
  }

  /** What the renderer's place says about the shared state. */
  predicate Agrees(s: State) {
    match s.renderer
    case NotRunning => s.render == Ready
    case AtTop => s.render == Start || s.render == Stopped
    case WaitStopped => s.render == StoppedWait
    case WokenStopped => s.render == Start
    case WaitTimed => s.render == TimedWait
    case WokenTimed(timedOut) => s.render == Start || (timedOut && s.render == TimedWait)
    case _ => s.render == Started || s.render == Stop
  }

  /** Whether the audio device is open, by what happened to it. */
  function IsOpen(log: seq<Effect>): bool {
    log != [] && (log[|log| - 1] == DeviceOpened || (log[|log| - 1] == DeviceWritten && IsOpen(log[..|log| - 1])))
  }

  /** Opened only when closed; written and closed only when open. */
  predicate Legal(log: seq<Effect>) {
    log == [] ||
    (var n := |log| - 1;
     Legal(log[..n]) && (log[n] == DeviceOpened <==> !IsOpen(log[..n])))
  }

  predicate Inv(s: State) {
    && Agrees(s)
    && Legal(s.log) && IsOpen(s.log) == s.created
    && (s.render == Start || s.render == Started || s.render == Stop || s.render == TimedWait ==> s.created)
    && (s.render == Stop <==> s.controller == Waiting)
    && (s.controller == Woken ==> s.render == Stopped || s.render == StoppedWait)
  }

  lemma Logged(log: seq<Effect>, e: Effect)
    requires Legal(log) && (e == DeviceOpened <==> !IsOpen(log))
    ensures Legal(log + [e]) && IsOpen(log + [e]) == (e != DeviceClosed)
  {
    assert (log + [e])[..|log|] == log;
  }

  lemma LoggedWrites(log: seq<Effect>, size: nat, period: nat)
    requires Legal(log) && IsOpen(log)
    ensures Legal(log + Written(size, period)) && IsOpen(log + Written(size, period))
  {
    hide Legal, IsOpen;
    var one := log + [DeviceWritten];
    var two := one + [DeviceWritten];
    Logged(log, DeviceWritten);
    Logged(one, DeviceWritten);
    Logged(two, DeviceWritten);
    assert two + [DeviceWritten] == log + [DeviceWritten, DeviceWritten, DeviceWritten];
  }

  lemma WakesFor(s: State)
    requires Agrees(s)
    ensures var renderer := if s.renderer == NotRunning then AtTop else s.renderer;
            var woken := if s.render == StoppedWait || s.render == TimedWait then SignalRenderer(renderer) else renderer;
            s.render != Started && s.render != Stop ==> Agrees(s.(render := Start, renderer := woken))
  {
  }

  lemma InvServe(s: State, outcome: Outcome, file: nat, bytes: nat)
    requires Inv(s) && s.controller != Waiting && s.render != Started
    ensures Inv(Serve(s, outcome, file, bytes))
  {
    hide Legal, IsOpen;
    if outcome == OpenFails || outcome == ParseFails || (!s.created && outcome == CreateFails) {
      hide Agrees;
      RefusedInv(s, Serve(s, outcome, file, bytes));
    } else {
      ServedInv(s, outcome, file, bytes);
    }
  }

  /** A request that fails leaves everything but the file to the next one. */
  lemma RefusedInv(s: State, t: State)
    requires Inv(s) && s.controller != Waiting
    requires t == s.(controller := Reading, source := t.source, pending := t.pending)
    ensures Inv(t)
  {
    hide Legal, IsOpen;
  }

  lemma ServedInv(s: State, outcome: Outcome, file: nat, bytes: nat)
    requires Inv(s) && s.controller != Waiting && s.render != Started
    requires outcome != OpenFails && outcome != ParseFails && (s.created || outcome != CreateFails)
    ensures Inv(Serve(s, outcome, file, bytes))
  {
    if !s.created { Logged(s.log, DeviceOpened); }
    WakesFor(s);
    AgreesBy(s, Serve(s, outcome, file, bytes));
    hide Legal, IsOpen, SignalRenderer, Agrees;
  }

  lemma AgreesBy(s: State, t: State)
    ensures var renderer := if s.renderer == NotRunning then AtTop else s.renderer;
            var woken := if s.render == StoppedWait || s.render == TimedWait then SignalRenderer(renderer) else renderer;
            t.render == Start && t.renderer == woken && Agrees(s.(render := Start, renderer := woken)) ==> Agrees(t)
  {
  }

  lemma InvControl(s: State, outcome: Outcome, file: nat, bytes: nat)
    requires Inv(s)
    ensures Inv(ControlStep(s, outcome, file, bytes))
  {
    hide Legal, IsOpen, Serve;
    if s.controller != Waiting && s.render != Started { InvServe(s, outcome, file, bytes); }
  }

  lemma InvTakeOver(s: State)
    requires Inv(s) && s.render == Start
    ensures Inv(TakeOver(s))
  {
    hide Legal, IsOpen;
  }

  lemma InvAdvance(s: State, period: nat)
    requires Inv(s)
    ensures Inv(AdvanceStep(s, period))
  {
    if s.render == Start { InvTakeOver(s); }
    if s.created { Logged(s.log, DeviceClosed); }
    hide Legal, IsOpen, TakeOver, Written;
    if s.renderer == AtWrite { LoggedWrites(s.log, s.size, period); }
  }

  /** Every step of either thread, however requests turn out, keeps the invariant. */
  lemma InvStep(s: State, a: Action)
    requires Inv(s)
    ensures Inv(Step(s, a))
  {
    hide ControlStep, AdvanceStep, Legal, IsOpen;
    match a {
      case Control(outcome, file, bytes) => InvControl(s, outcome, file, bytes);
      case Advance(period) => InvAdvance(s, period);
      case Timeout =>
    }
  }

  lemma {:induction false} InvRun(actions: seq<Action>)
    ensures Inv(Run(Initial, actions))
  {
    hide Step;
    if actions != [] {
      var n := |actions| - 1;
      InvRun(actions[..n]);
      InvStep(Run(Initial, actions[..n]), actions[n]);
    }
  }

  // ------------------------------------------------------------------ safety

  predicate RendererWaits(r: Renderer) {
    r == WaitStopped || r == WaitTimed
  }

  /** Inside the write loop the state is STARTED or STOP and the device is open; controller
      and renderer never wait at the same time; a request that is handed over finds the
      device open and a renderer that does not sleep; and the device is opened only when
      closed, written and closed only when open. */
  predicate Safe(s: State) {
    && (Playing(s.renderer) ==> (s.render == Started || s.render == Stop) && s.created)
    && !(s.controller == Waiting && RendererWaits(s.renderer))
    && (s.render == Start ==> s.created && !RendererWaits(s.renderer) && s.renderer != NotRunning)
    && (s.controller == Waiting ==> Playing(s.renderer))
    && Legal(s.log) && IsOpen(s.log) == s.created
  }

  lemma InvIsSafe(s: State)
    requires Inv(s)
    ensures Safe(s)
  {
    hide Legal, IsOpen;
  }

  /** Every interleaving of the two threads is safe. */
  lemma SafeRuns(actions: seq<Action>)
    ensures Safe(Run(Initial, actions))
  {
    InvRun(actions);
    InvIsSafe(Run(Initial, actions));
    hide Safe, Inv, Run;
  }

  // ---------------------------------------------------------------- progress

  function Advances(actions: seq<Action>): nat {
    if actions == [] then 0
    else Advances(actions[..|actions| - 1]) + if actions[|actions| - 1].Advance? then 1 else 0
  }

  /** Renderer steps until it meets the controller's stop. */
  function StepsToFinish(r: Renderer): nat {
    match r case AtWrite => 3 case AtCheck => 2 case AtFinish => 1 case _ => 0
  }

  /** The period of the first renderer step among these actions. */
  function FirstPeriod(actions: seq<Action>): nat {
    if actions == [] then 0
    else
      var n := |actions| - 1;
      if Advances(actions[..n]) > 0 then FirstPeriod(actions[..n])
      else if actions[n].Advance? then actions[n].period else 0
  }

  /** The writes the renderer is committed to, once it has looked at the state. */
  function Outstanding(s: State, period: nat): seq<Effect> {
    if s.renderer == AtWrite then Written(s.size, period) else []
  }

  /** What a controller that waits sees after these actions. */
  predicate Waited(s: State, actions: seq<Action>, t: State) {
    && t.log == s.log + (if Advances(actions) > 0 then Outstanding(s, FirstPeriod(actions)) else [])
    && (t.controller == Waiting || (t.controller == Woken && Advances(actions) > 0))
    && (Advances(actions) == 0 ==> t.renderer == s.renderer && t.size == s.size)
    && (t.controller == Waiting ==> StepsToFinish(t.renderer) + Advances(actions) == StepsToFinish(s.renderer) <= 3
                                    && StepsToFinish(t.renderer) > 0)
  }

  /** How one action takes a state in which the controller waits on. */
  predicate WaitsOn(s: State, a: Action, t: State) {
    && t.log == s.log + (if a.Advance? then Outstanding(s, a.period) else [])
    && (t.controller == Waiting || (t.controller == Woken && a.Advance?))
    && (!a.Advance? ==> t.renderer == s.renderer && t.size == s.size)
    && (t.controller == Waiting ==>
          && StepsToFinish(t.renderer) > 0
          && StepsToFinish(t.renderer) + (if a.Advance? then 1 else 0) == StepsToFinish(s.renderer))
  }

  lemma WaitingStep(s: State, a: Action)
    requires Inv(s) && s.controller == Waiting
    ensures WaitsOn(s, a, Step(s, a))
  {
    hide Legal, IsOpen, Serve, TakeOver, Written;
  }

  lemma WaitedStep(s: State, actions: seq<Action>, m: State, t: State)
    requires actions != [] && m.controller == Waiting
    requires Waited(s, actions[..|actions| - 1], m) && WaitsOn(m, actions[|actions| - 1], t)
    ensures Waited(s, actions, t)
  {
    hide Written;
  }

  lemma {:induction false} WhileWaiting(s: State, actions: seq<Action>)
    requires Inv(s) && s.controller == Waiting
    requires forall k :: 0 <= k < |actions| ==> Run(s, actions[..k]).controller == Waiting
    ensures Inv(Run(s, actions)) && Waited(s, actions, Run(s, actions))
  {
    hide Step, Inv, Waited, WaitsOn;
    if actions != [] {
      var n := |actions| - 1;
      forall k | 0 <= k < n ensures Run(s, actions[..n][..k]).controller == Waiting {
        assert actions[..n][..k] == actions[..k];
      }
      WhileWaiting(s, actions[..n]);
      var m := Run(s, actions[..n]);
      InvStep(m, actions[n]);
      WaitingStep(m, actions[n]);
      WaitedStep(s, actions, m, Run(s, actions));
    } else {
      WaitingSteps(s);
      WaitedNothing(s);
    }
  }

  lemma WaitedNothing(s: State)
    requires s.controller == Waiting && 0 < StepsToFinish(s.renderer) <= 3
    ensures Waited(s, [], s)
  {
  }

  lemma WaitingSteps(s: State)
    requires Inv(s) && s.controller == Waiting
    ensures 0 < StepsToFinish(s.renderer) <= 3
  {
    hide Legal, IsOpen;
  }

  /** When the controller waits, the renderer signals it within three of its own steps,
      whatever else happens. Until then it writes exactly what it was committed to: three
      periods if the tone was about to end, one if not, and nothing if it had not looked
      at the state yet. */
  lemma WaitIsAnswered(s: State, actions: seq<Action>)
    requires Inv(s) && s.controller == Waiting && Advances(actions) >= 3
    ensures exists k :: 0 <= k <= |actions| && Run(s, actions[..k]).controller == Woken
                        && Run(s, actions[..k]).log == s.log + Outstanding(s, FirstPeriod(actions))
  {
    hide Inv, Step, Outstanding;
    if forall k :: 0 <= k < |actions| ==> Run(s, actions[..k]).controller == Waiting {
      WhileWaiting(s, actions);
      assert actions[..|actions|] == actions;
    } else {
      var k := FirstAnswer(s, actions, 0);
      forall j | 0 <= j < k ensures Run(s, actions[..k][..j]).controller == Waiting {
        assert actions[..k][..j] == actions[..j];
      }
      WhileWaiting(s, actions[..k]);
      FirstPeriodOf(actions, k);
    }
  }

  lemma {:induction false} FirstPeriodOf(actions: seq<Action>, k: nat)
    requires k <= |actions|
    ensures Advances(actions[..k]) <= Advances(actions)
    ensures Advances(actions[..k]) > 0 ==> FirstPeriod(actions[..k]) == FirstPeriod(actions)
  {
    var n := |actions| - 1;
    if k <= n {
      FirstPeriodOf(actions[..n], k);
      assert actions[..n][..k] == actions[..k];
    } else {
      assert actions[..k] == actions;
    }
  }

  lemma FirstAnswer(s: State, actions: seq<Action>, from: nat) returns (k: nat)
    requires from <= |actions| && exists j :: from <= j < |actions| && Run(s, actions[..j]).controller != Waiting
    requires forall j :: 0 <= j < from ==> Run(s, actions[..j]).controller == Waiting
    ensures k < |actions| && Run(s, actions[..k]).controller != Waiting
    ensures forall j :: 0 <= j < k ==> Run(s, actions[..j]).controller == Waiting
    decreases |actions| - from
  {
    hide Run;
    if Run(s, actions[..from]).controller != Waiting { k := from; } else { k := FirstAnswer(s, actions, from + 1); }
  }

  /** A request that succeeds is handed over at once, unless a tone is playing; then it
      is handed over when the controller goes on. */
  lemma RequestIsServed(s: State, file: nat, bytes: nat)
    requires Inv(s)
    ensures var t := Step(s, Control(Succeeds, file, bytes));
            if s.controller == Waiting then t == s
            else if s.render == Started then t.controller == Waiting
            else t.render == Start && t.source == Mapped(file) && t.pending == bytes
                 && t.controller == Reading && !RendererWaits(t.renderer)
  {
    hide Legal, IsOpen;
  }

  function StepsToTop(r: Renderer): nat {
    match r case WokenTimed(_) => 2 case AtTop => 1 case WokenStopped => 1 case _ => 0
  }

  /** The renderer has just taken over this file. */
  predicate TakenOver(s: State, source: Source, size: nat) {
    s.render == Started && s.renderer == AtCheck && s.playing == source && s.size == size
  }

  /** What is there to be taken over after these actions, if it was `(source, size)`
      before them: requests that get past opening the file change it. */
  function Handed(source: Source, size: nat, actions: seq<Action>): (Source, nat) {
    if actions == [] then (source, size)
    else
      var n := |actions| - 1;
      var before := Handed(source, size, actions[..n]);
      match actions[n]
      case Control(OpenFails, _, _) => before
      case Control(ParseFails, _, _) => (Closed, before.1)
      case Control(_, file, bytes) => (Mapped(file), bytes)
      case _ => before
  }

  predicate Offers(s: State, what: (Source, nat)) {
    s.render == Start && s.source == what.0 && s.pending == what.1
  }

  lemma PendingStep(s: State, a: Action)
    requires Inv(s) && s.render == Start
    ensures var t := Step(s, a);
            || (a.Advance? && TakenOver(t, s.source, s.pending))
            || (StepsToTop(t.renderer) > 0 && Offers(t, Handed(s.source, s.pending, [a]))
                && StepsToTop(t.renderer) + (if a.Advance? then 1 else 0) <= StepsToTop(s.renderer))
  {
    assert [a][..0] == [];
    var before := Handed(s.source, s.pending, []);
    assert before == (s.source, s.pending);
    hide Legal, IsOpen;
  }

  lemma HandedNext(source: Source, size: nat, actions: seq<Action>)
    requires actions != []
    ensures var n := |actions| - 1;
            var before := Handed(source, size, actions[..n]);
            Handed(source, size, actions) == Handed(before.0, before.1, [actions[n]])
  {
    assert [actions[|actions| - 1]][..0] == [];
  }

  ghost predicate TakenAt(s: State, actions: seq<Action>, k: nat)
    requires 0 < k <= |actions|
  {
    var what := Handed(s.source, s.pending, actions[..k - 1]);
    TakenOver(Run(s, actions[..k]), what.0, what.1)
  }

  /** The request got past opening its file, and so put another in place of the last. */
  predicate Opens(a: Action) {
    a.Control? && a.outcome != OpenFails
  }

  predicate BadHeader(a: Action) {
    a.Control? && a.outcome == ParseFails
  }

  /** The last request that got past opening its file turned out to have a bad header. */
  ghost predicate BadLast(actions: seq<Action>) {
    exists k :: 0 <= k < |actions| && BadHeader(actions[k])
                && forall l :: k < l < |actions| ==> !Opens(actions[l])
  }

  lemma {:induction false} LostExactly(source: Source, size: nat, actions: seq<Action>)
    requires source != Closed
    ensures Handed(source, size, actions).0 == Closed <==> BadLast(actions)
  {
    if actions != [] {
      var n := |actions| - 1;
      LostExactly(source, size, actions[..n]);
      BadLastNext(actions);
      hide BadLast;
    }
  }

  lemma BadLastNext(actions: seq<Action>)
    requires actions != []
    ensures var n := |actions| - 1;
            BadLast(actions) <==> if Opens(actions[n]) then BadHeader(actions[n]) else BadLast(actions[..n])
  {
    var n := |actions| - 1;
    if !Opens(actions[n]) && BadLast(actions[..n]) {
      var k :| 0 <= k < n && BadHeader(actions[..n][k])
               && forall l :: k < l < n ==> !Opens(actions[..n][l]);
      forall l | k < l < |actions| ensures !Opens(actions[l]) {
        if l < n { assert !Opens(actions[..n][l]); }
      }
      assert BadHeader(actions[k]);
    }
    if !Opens(actions[n]) && BadLast(actions) {
      var k :| 0 <= k < |actions| && BadHeader(actions[k])
               && forall l :: k < l < |actions| ==> !Opens(actions[l]);
      assert BadHeader(actions[..n][k]);
    }
  }

  /** A request that was handed over is taken over within two renderer steps: the file and
      size of the last request that got past opening its file. The renderer plays without
      a file exactly when that one had a bad header. */
  lemma RequestIsTakenOver(s: State, actions: seq<Action>)
    requires Inv(s) && s.render == Start && Advances(actions) >= 2
    ensures exists k :: 0 < k <= |actions| && TakenAt(s, actions, k)
                        && (s.source != Closed ==>
                              (Run(s, actions[..k]).playing == Closed <==> BadLast(actions[..k - 1])))
  {
    hide Inv, Step, TakenAt, BadLast;
    StartSteps(s);
    if forall k :: 0 < k <= |actions| ==> !TakenAt(s, actions, k) { StillPending(s, actions); }
    var k :| 0 < k <= |actions| && TakenAt(s, actions, k);
    TakenIsHanded(s, actions, k);
    if s.source != Closed { LostExactly(s.source, s.pending, actions[..k - 1]); }
  }

  lemma TakenIsHanded(s: State, actions: seq<Action>, k: nat)
    requires 0 < k <= |actions| && TakenAt(s, actions, k)
    ensures Run(s, actions[..k]).playing == Handed(s.source, s.pending, actions[..k - 1]).0
  {
    hide Run, Handed;
  }

  lemma StartSteps(s: State)
    requires Inv(s) && s.render == Start
    ensures 0 < StepsToTop(s.renderer) <= 2
  {
    hide Legal, IsOpen;
  }

  lemma {:induction false} StillPending(s: State, actions: seq<Action>)
    requires Inv(s) && s.render == Start
    requires forall k :: 0 < k <= |actions| ==> !TakenAt(s, actions, k)
    ensures var t := Run(s, actions);
            Inv(t) && Offers(t, Handed(s.source, s.pending, actions))
            && 0 < StepsToTop(t.renderer) && StepsToTop(t.renderer) + Advances(actions) <= StepsToTop(s.renderer)
  {
    hide Inv, Step;
    if actions == [] {
      StartSteps(s);
    } else {
      var n := |actions| - 1;
      forall k | 0 < k <= n ensures !TakenAt(s, actions[..n], k) {
        assert actions[..n][..k] == actions[..k] && actions[..n][..k - 1] == actions[..k - 1];
        assert !TakenAt(s, actions, k);
      }
      StillPending(s, actions[..n]);
      var m := Run(s, actions[..n]);
      InvStep(m, actions[n]);
      PendingStep(m, actions[n]);
      HandedNext(s.source, s.pending, actions);
      assert !TakenAt(s, actions, n + 1) && actions[..n + 1] == actions;
    }
  }

  /** A good request whose file is lost: before the renderer moves, another request turns
      out to have a bad header, and the renderer starts to play without a file. */
  lemma FileLost()
    ensures TakenOver(Run(Initial, [Control(Succeeds, 1, 500), Control(ParseFails, 2, 0), Advance(100)]), Closed, 500)
  {
    var actions := [Control(Succeeds, 1, 500), Control(ParseFails, 2, 0), Advance(100)];
    var s1 := Step(Initial, actions[0]);
    var s2 := Step(s1, actions[1]);
    var s3 := Step(s2, actions[2]);
    assert s1.render == Start && s1.renderer == AtTop && s1.pending == 500 && s1.controller == Reading;
    assert s2 == s1.(source := Closed);
    assert s3 == s2.(render := Started, playing := Closed, size := 500, renderer := AtCheck);
    hide Step;
    assert actions[..2][..1][..0] == [];
    assert Run(Initial, actions[..2][..1][..0]) == Initial;
    assert Run(Initial, actions[..2][..1]) == s1;
    assert Run(Initial, actions[..2]) == s2;
    assert Run(Initial, actions) == s3;
  }
}
