/** The devices in use: one of each kind at most, plugged in, and known to listeners;
    with the exact conditions under which the last three fail. */
module DeviceActive {
  import opened AsmTypes
  import opened DeviceModel
  import opened DeviceRoutes

  predicate OneOutput(active: bv16) {
    var o := active & OUT_ANY;
    o == 0 || o == OUT_SPEAKER || o == OUT_RECEIVER || o == OUT_WIRED || o == OUT_SCO || o == OUT_A2DP || o == OUT_DOCK
  }

  predicate OneInput(active: bv16) {
    var i := active & IN_ANY;
    i == 0 || i == IN_MIC || i == IN_WIRED || i == IN_SCO
  }

  predicate Single(s: Info) {
    OneOutput(s.active) && OneInput(s.active)
  }

  predicate Valid(e: DeviceEvent) {
    e.RouteTo? ==> e.route in ROUTES
  }

  // -------------------------------------------------------- one of each kind

  lemma SelectSingle(s: Info)
    requires Single(s)
    ensures Single(SelectPlayback(s)) && Single(SelectCapture(s))
    ensures SelectPlayback(s).active & OUT_ANY != 0
    ensures SelectCapture(s).active & OUT_ANY == s.active & OUT_ANY
  {
    PlaybackSingle(s);
    CaptureSingle(s);
    hide Single, SelectPlayback, SelectCapture;
  }

  lemma PlaybackSingle(s: Info)
    requires Single(s)
    ensures Single(SelectPlayback(s)) && SelectPlayback(s).active & OUT_ANY != 0
  {
  }

  lemma CaptureSingle(s: Info)
    requires Single(s)
    ensures Single(SelectCapture(s)) && SelectCapture(s).active & OUT_ANY == s.active & OUT_ANY
  {
  }

  lemma MaskSingle(active: bv16, x: bv16)
    requires OneOutput(active) && OneInput(active)
    ensures x & OUT_ANY == x && OneOutput(x) ==> OneOutput(PlaybackOnly(active, x)) && OneInput(PlaybackOnly(active, x))
    ensures x & IN_ANY == x && OneInput(x) ==> OneOutput(CaptureOnly(active, x)) && OneInput(CaptureOnly(active, x))
  {
  }

  lemma WithoutSingle(active: bv16, x: bv16)
    requires OneOutput(active) && OneInput(active)
    ensures OneOutput(Without(active, x)) && OneInput(Without(active, x))
  {
  }

  lemma HeadsetSingle(s: Info, earjack: int)
    requires Single(s)
    ensures Single(HeadsetOn(s, earjack).0) && Single(HeadsetOff(s).0)
  {
    MaskSingle(s.active, OUT_WIRED);
    MaskSingle(PlaybackOnly(s.active, OUT_WIRED), IN_WIRED);
    WithoutSingle(s.active, OUT_WIRED);
    WithoutSingle(Without(s.active, OUT_WIRED), IN_WIRED);
    var s1 := s.(active := Without(Without(s.active, OUT_WIRED), IN_WIRED));
    SelectSingle(s1);
    SelectSingle(SelectPlayback(s1));
    hide Has, Without, PlaybackOnly, CaptureOnly, SelectPlayback, SelectCapture, OneOutput, OneInput;
  }

  lemma SinkSingle(s: Info, x: bv16)
    requires Single(s) && (x == OUT_A2DP || x == OUT_DOCK)
    ensures Single(SinkOn(s, x).0) && Single(SinkOff(s, x).0)
  {
    MaskSingle(s.active, x);
    WithoutSingle(s.active, x);
    SelectSingle(s.(active := Without(s.active, x)));
    hide Has, Without, PlaybackOnly, SelectPlayback, OneOutput, OneInput;
  }

  lemma ScoSingle(s: Info)
    requires Single(s)
    ensures Single(ScoOff(s).0)
  {
    WithoutSingle(s.active, OUT_SCO);
    WithoutSingle(Without(s.active, OUT_SCO), IN_SCO);
    var s1 := s.(active := Without(Without(s.active, OUT_SCO), IN_SCO));
    SelectSingle(s1);
    SelectSingle(SelectPlayback(s1));
    hide Has, Without, SelectPlayback, SelectCapture, OneOutput, OneInput;
  }

  lemma RouteParts(route: bv16)
    requires route in ROUTES
    ensures var x, y := route & OUT_ANY, route & IN_ANY;
            OneOutput(x) && OneInput(y) && x & OUT_ANY == x && y & IN_ANY == y
  {
  }

  lemma RouteSingle(s: Info, route: bv16)
    requires Single(s) && route in ROUTES
    ensures Single(Step(s, RouteTo(route)).0)
  {
    RouteParts(route);
    var x, y := route & OUT_ANY, route & IN_ANY;
    MaskSingle(s.active, x);
    MaskSingle(s.active, y);
    MaskSingle(PlaybackOnly(s.active, x), y);
    hide OneOutput, OneInput, PlaybackOnly, CaptureOnly, Has;
  }

  lemma CallSingle(s: Info)
    requires Single(s)
    ensures Single(OnCallStart(s)) && Single(OnCallEnd(s))
  {
    CallStartSingle(s);
    CallEndSingle(s);
    hide Single, OnCallStart, OnCallEnd;
  }

  lemma CallStartSingle(s: Info)
    requires Single(s)
    ensures Single(OnCallStart(s))
  {
  }

  lemma CallEndSingle(s: Info)
    requires Single(s)
    ensures Single(OnCallEnd(s))
  {
  }

  lemma FollowSingle(s: Info, e: DeviceEvent)
    requires Single(s) && e.Plug?
    ensures Single(Follow(s, e).0)
  {
    hide Single, HeadsetOn, HeadsetOff, SinkOn, SinkOff, ScoOff;
    match e.device {
      case Wired => HeadsetSingle(s, e.earjack);
      case A2dp => SinkSingle(s, OUT_A2DP);
      case Sco => ScoSingle(s);
      case Dock => SinkSingle(s, OUT_DOCK);
    }
  }

  lemma PlugSingle(s: Info, e: DeviceEvent)
    requires Single(s) && e.Plug?
    ensures Single(Step(s, e).0)
  {
    FollowSingle(s.(available := AfterPlug(s, e)), e);
    hide OneOutput, OneInput, Follow, InOf, OutOf, Has, Without;
  }

  lemma TalkSingle(s: Info, session: Session, start: bool)
    requires Single(s)
    ensures Single(Step(s, Talk(session, start)).0)
  {
    CallSingle(s.(available := AfterCall(s.available, start), session := if start then session else Media));
    hide OneOutput, OneInput, OnCallStart, OnCallEnd;
  }

  /** After every event at most one output and at most one input are in use. */
  lemma SingleStep(s: Info, e: DeviceEvent)
    requires Single(s) && Valid(e)
    ensures Single(Step(s, e).0)
  {
    hide Single, Step;
    match e {
      case Plug(_, _, _) => PlugSingle(s, e);
      case RouteTo(route) => RouteSingle(s, route);
      case Talk(session, start) => TalkSingle(s, session, start);
    }
  }

  // ----------------------------------------------------- in use means plugged

  predicate ActiveAvailable(s: Info) {
    Without(s.active & OUT_ANY, s.available) == 0
  }

  /** A call starts from A2DP when there is no SCO to move to, or ends on SCO when
      there is no A2DP to move back to. */
  predicate Mismatch(s: Info, e: DeviceEvent) {
    e.Talk? && IsCommunication(e.session)
    && if e.start then Has(s.active, OUT_A2DP) && !Has(s.available, OUT_SCO)
       else Has(s.active, OUT_SCO) && !Has(s.available, OUT_A2DP)
  }

  lemma SelectAvailable(s: Info)
    requires Plausible(s.available) && ActiveAvailable(s)
    ensures ActiveAvailable(SelectPlayback(s)) && ActiveAvailable(SelectCapture(s))
  {
  }

  lemma CallAvailableExactly(s: Info, session: Session, start: bool)
    requires Plausible(s.available) && Single(s) && ActiveAvailable(s) && IsCommunication(session)
    ensures ActiveAvailable(Step(s, Talk(session, start)).0) <==> !Mismatch(s, Talk(session, start))
  {
  }

  lemma RouteAvailableStep(s: Info, route: bv16)
    requires ActiveAvailable(s) && Single(s) && route in ROUTES
    ensures ActiveAvailable(Step(s, RouteTo(route)).0)
  {
  }

  lemma MoreAvailable(s: Info, x: bv16)
    requires ActiveAvailable(s)
    ensures ActiveAvailable(s.(available := With(s.available, x)))
  {
  }

  lemma MoveAvailable(s: Info, x: bv16, y: bv16)
    requires ActiveAvailable(s) && Has(s.available, x) && OneOutput(x) && x & OUT_ANY == x && y & IN_ANY == y
    ensures ActiveAvailable(s.(active := PlaybackOnly(s.active, x)))
    ensures ActiveAvailable(s.(active := CaptureOnly(s.active, y)))
  {
  }

  /** A device that is neither plugged nor used any more does no harm. */
  lemma DropAvailable(s: Info, x: bv16)
    requires ActiveAvailable(s)
    ensures ActiveAvailable(s.(available := Without(s.available, x), active := Without(s.active, x)))
    ensures ActiveAvailable(s.(active := Without(s.active, x)))
  {
  }

  lemma DropUnused(s: Info, x: bv16)
    requires ActiveAvailable(s) && !Has(s.active & OUT_ANY, x)
    ensures ActiveAvailable(s.(available := Without(s.available, x)))
  {
  }

  lemma FollowIn(s: Info, e: DeviceEvent)
    requires ActiveAvailable(s) && e.Plug? && e.on && Has(s.available, OutOf(e.device))
    ensures ActiveAvailable(Follow(s, e).0)
  {
    var x := OutOf(e.device);
    MoveAvailable(s, x, 0);
    MoveAvailable(s.(active := PlaybackOnly(s.active, x)), x, IN_WIRED);
    hide Has, Without, PlaybackOnly, CaptureOnly, ActiveAvailable;
  }

  lemma PlugInAvailable(s: Info, e: DeviceEvent)
    requires ActiveAvailable(s) && e.Plug? && e.on
    ensures ActiveAvailable(Step(s, e).0)
  {
    AfterPlugAvailable(s, e);
    AfterPlugHas(s, e);
    FollowIn(s.(available := AfterPlug(s, e)), e);
    hide Has, ActiveAvailable, InOf, Follow, OutOf, Without;
  }

  lemma AfterPlugAvailable(s: Info, e: DeviceEvent)
    requires ActiveAvailable(s) && e.Plug? && e.on
    ensures ActiveAvailable(s.(available := AfterPlug(s, e)))
  {
    var x := OutOf(e.device);
    MoreAvailable(s, x);
    MoreAvailable(s.(available := With(s.available, x)), InOf(s, e));
    hide ActiveAvailable, InOf, OutOf;
  }

  lemma AfterPlugHas(s: Info, e: DeviceEvent)
    requires e.Plug? && e.on
    ensures Has(AfterPlug(s, e), OutOf(e.device))
  {
    HasAdded(s.available, OutOf(e.device), InOf(s, e));
    hide Has, InOf;
  }

  lemma HasAdded(available: bv16, x: bv16, y: bv16)
    requires x != 0
    ensures Has(With(With(available, x), y), x)
  {
  }

  /** The device is out of `s.available`, but may still be in use. */
  predicate Unplugged(s: Info, device: Device) {
    ActiveAvailable(s.(active := Without(s.active, OutOf(device))))
  }

  lemma HeadsetOut(s: Info)
    requires Plausible(s.available) && Unplugged(s, Wired)
    ensures ActiveAvailable(HeadsetOff(s).0)
  {
    var a := s.(active := Without(s.active, OUT_WIRED));
    DropAvailable(a, IN_WIRED);
    var b := s.(active := Without(a.active, IN_WIRED));
    SelectAvailable(b);
    SelectAvailable(SelectPlayback(b));
    UnusedSame(s.active, OUT_WIRED);
    hide Has, Without, SelectPlayback, SelectCapture, ActiveAvailable, Plausible;
  }

  lemma ScoOut(s: Info)
    requires Plausible(s.available) && Unplugged(s, Sco)
    ensures ActiveAvailable(ScoOff(s).0)
  {
    var a := s.(active := Without(s.active, OUT_SCO));
    DropAvailable(a, IN_SCO);
    var b := s.(active := Without(a.active, IN_SCO));
    SelectAvailable(b);
    SelectAvailable(SelectPlayback(b));
    UnusedSame(s.active, OUT_SCO);
    hide Has, Without, SelectPlayback, SelectCapture, ActiveAvailable, Plausible;
  }

  lemma SinkOut(s: Info, device: Device)
    requires Plausible(s.available) && Unplugged(s, device)
    ensures ActiveAvailable(SinkOff(s, OutOf(device)).0)
  {
    var x := OutOf(device);
    SelectAvailable(s.(active := Without(s.active, x)));
    UnusedSame(s.active, x);
    hide Has, Without, SelectPlayback, ActiveAvailable, Plausible, OutOf;
  }

  lemma UnusedSame(active: bv16, x: bv16)
    ensures !Has(active, x) ==> Without(active, x) == active
  {
  }

  lemma PlugOutAvailable(s: Info, e: DeviceEvent)
    requires Plausible(s.available) && ActiveAvailable(s) && e.Plug? && !e.on
    ensures ActiveAvailable(Step(s, e).0)
  {
    PlugPlausible(s, e);
    var x, y := OutOf(e.device), InOf(s, e);
    DropAvailable(s, x);
    var a := s.(available := Without(s.available, x), active := Without(s.active, x));
    assert !Has(a.active & OUT_ANY, y);
    DropUnused(a, y);
    var b := s.(available := AfterPlug(s, e));
    assert Unplugged(b, e.device);
    FollowOut(b, e);
    hide Plausible, ActiveAvailable, Follow, InOf, OutOf, Has, Without;
  }

  lemma FollowOut(s: Info, e: DeviceEvent)
    requires Plausible(s.available) && e.Plug? && !e.on && Unplugged(s, e.device)
    ensures ActiveAvailable(Follow(s, e).0)
  {
    hide Plausible, ActiveAvailable, Unplugged, HeadsetOff, ScoOff, SinkOff;
    match e.device {
      case Wired => HeadsetOut(s);
      case Sco => ScoOut(s);
      case A2dp => SinkOut(s, A2dp);
      case Dock => SinkOut(s, Dock);
    }
  }

  /** The output in use stays plugged in, through every event but a mismatched call. */
  lemma AvailableExactly(s: Info, e: DeviceEvent)
    requires Plausible(s.available) && Single(s) && ActiveAvailable(s) && Valid(e)
    ensures ActiveAvailable(Step(s, e).0) <==> !Mismatch(s, e)
  {
    hide Plausible, ActiveAvailable, Single, Step;
    match e {
      case Plug(_, on, _) => if on { PlugInAvailable(s, e); } else { PlugOutAvailable(s, e); }
      case RouteTo(route) => RouteAvailableStep(s, route);
      case Talk(session, start) =>
        if IsCommunication(session) { CallAvailableExactly(s, session, start); } else { OtherSession(s, session, start); }
    }
  }

  lemma OtherSession(s: Info, session: Session, start: bool)
    requires !IsCommunication(session)
    ensures Step(s, Talk(session, start)).0 == s.(session := if start then session else Media)
    ensures ActiveAvailable(s) ==> ActiveAvailable(s.(session := if start then session else Media))
  {
  }

  /** The state after the first `k` events. */
  function At(s: Info, events: seq<DeviceEvent>, k: nat): Info
    requires k <= |events|
  {
    Run(s, events[..k]).0
  }

  lemma AtNext(s: Info, events: seq<DeviceEvent>, k: nat)
    requires k < |events|
    ensures At(s, events, k + 1) == Step(At(s, events, k), events[k]).0
  {
    hide Step;
    assert events[..k + 1][..k] == events[..k];
  }

  ghost predicate AllValid(events: seq<DeviceEvent>) {
    forall k :: 0 <= k < |events| ==> Valid(events[k])
  }

  lemma StartState(earjack: int, a2dp: bool, sco: bool)
    ensures var s := Start(earjack, a2dp, sco); Plausible(s.available) && Single(s) && ActiveAvailable(s)
    ensures Start(earjack, a2dp, sco).active & OUT_ANY != 0
  {
    StartPlausible(earjack, a2dp, sco);
    var s := Info(PluggedAtStart(earjack, a2dp, sco), 0, Media);
    NothingActive(s);
    SelectAvailable(s);
    SelectAvailable(SelectPlayback(s));
    SelectSingle(s);
    SelectSingle(SelectPlayback(s));
    hide Plausible, Single, ActiveAvailable, SelectPlayback, SelectCapture;
  }

  lemma NothingActive(s: Info)
    requires s.active == 0
    ensures Single(s) && ActiveAvailable(s)
  {
  }

  lemma {:induction false} RunSingle(s: Info, events: seq<DeviceEvent>, k: nat)
    requires Plausible(s.available) && Single(s) && AllValid(events) && k <= |events|
    ensures Plausible(At(s, events, k).available) && Single(At(s, events, k))
  {
    hide Plausible, Single, Step, Valid;
    if k == 0 {
      assert events[..0] == [];
    } else {
      RunSingle(s, events, k - 1);
      AtNext(s, events, k - 1);
      SingleStep(At(s, events, k - 1), events[k - 1]);
      ReplayStep(At(s, events, k - 1), events[k - 1]);
    }
  }

  lemma {:induction false} AvailableUpTo(s: Info, events: seq<DeviceEvent>, k: nat)
    requires Plausible(s.available) && Single(s) && ActiveAvailable(s) && AllValid(events) && k <= |events|
    requires forall j :: 0 <= j < k ==> !Mismatch(At(s, events, j), events[j])
    ensures ActiveAvailable(At(s, events, k))
  {
    hide Plausible, Single, Step, Valid, ActiveAvailable, Mismatch;
    if k == 0 {
      assert events[..0] == [];
    } else {
      AvailableUpTo(s, events, k - 1);
      RunSingle(s, events, k - 1);
      AtNext(s, events, k - 1);
      AvailableExactly(At(s, events, k - 1), events[k - 1]);
    }
  }

  /** On every run, the output in use is plugged in after every event exactly when no
      call started from A2DP without SCO or ended on SCO without A2DP. */
  lemma ActiveOutputIsAvailable(earjack: int, a2dp: bool, sco: bool, events: seq<DeviceEvent>)
    requires AllValid(events)
    ensures var s := Start(earjack, a2dp, sco);
            (forall k :: 0 <= k <= |events| ==> ActiveAvailable(At(s, events, k))) <==>
            (forall k :: 0 <= k < |events| ==> !Mismatch(At(s, events, k), events[k]))
  {
    var s := Start(earjack, a2dp, sco);
    StartState(earjack, a2dp, sco);
    hide Plausible, Single, Step, Valid, ActiveAvailable, Mismatch, Start;
    if forall k :: 0 <= k < |events| ==> !Mismatch(At(s, events, k), events[k]) {
      forall k | 0 <= k <= |events| ensures ActiveAvailable(At(s, events, k)) { AvailableUpTo(s, events, k); }
    } else {
      var k :| 0 <= k < |events| && Mismatch(At(s, events, k), events[k]);
      RunSingle(s, events, k);
      AtNext(s, events, k);
      if ActiveAvailable(At(s, events, k)) { AvailableExactly(At(s, events, k), events[k]); }
    }
  }

  /** In particular when A2DP and SCO come and go together, as seen by every call. */
  lemma AgreeingBluetooth(earjack: int, a2dp: bool, sco: bool, events: seq<DeviceEvent>, k: nat)
    requires AllValid(events) && k <= |events|
    requires var s := Start(earjack, a2dp, sco);
             forall j :: 0 <= j < |events| && events[j].Talk? && IsCommunication(events[j].session) ==>
               (Has(At(s, events, j).available, OUT_A2DP) <==> Has(At(s, events, j).available, OUT_SCO))
    ensures ActiveAvailable(At(Start(earjack, a2dp, sco), events, k))
  {
    var s := Start(earjack, a2dp, sco);
    StartState(earjack, a2dp, sco);
    hide Start, Has, Step, Plausible, Valid;
    AgreeingUpTo(s, events, k);
  }

  lemma {:induction false} AgreeingUpTo(s: Info, events: seq<DeviceEvent>, k: nat)
    requires Plausible(s.available) && Single(s) && ActiveAvailable(s) && AllValid(events) && k <= |events|
    requires forall j :: 0 <= j < |events| && events[j].Talk? && IsCommunication(events[j].session) ==>
               (Has(At(s, events, j).available, OUT_A2DP) <==> Has(At(s, events, j).available, OUT_SCO))
    ensures ActiveAvailable(At(s, events, k))
  {
    hide Plausible, Single, Step, Valid, ActiveAvailable, Has;
    if k == 0 {
      assert events[..0] == [];
    } else {
      AgreeingUpTo(s, events, k - 1);
      RunSingle(s, events, k - 1);
      AtNext(s, events, k - 1);
      AvailableExactly(At(s, events, k - 1), events[k - 1]);
      AgreementAvoids(At(s, events, k - 1), events[k - 1]);
    }
  }

  lemma AgreementAvoids(s: Info, e: DeviceEvent)
    requires ActiveAvailable(s) && (e.Talk? && IsCommunication(e.session) ==>
               (Has(s.available, OUT_A2DP) <==> Has(s.available, OUT_SCO)))
    ensures !Mismatch(s, e)
  {
  }

  /** Headphones of the music-only kind: a call moves to an SCO link that is not there. */
  lemma CallWithoutSco()
    ensures var s := Step(Start(0, true, false), Talk(VoiceCall, true)).0;
            s.active & OUT_ANY == OUT_SCO && !Has(s.available, OUT_SCO) && !ActiveAvailable(s)
  {
  }

  // ------------------------------------------------------- one output in use

  /** Outside calls some output is in use. */
  predicate Sounding(s: Info) {
    IsCommunication(s.session) || s.active & OUT_ANY != 0
  }

  /** Another session ends a call that had lost its output. */
  predicate Abandons(s: Info, e: DeviceEvent) {
    e.Talk? && !IsCommunication(e.session) && IsCommunication(s.session) && s.active & OUT_ANY == 0
  }

  lemma CallEndSounds(s: Info, session: Session)
    requires IsCommunication(session)
    ensures var t := Step(s, Talk(session, false)).0; t.session == Media && t.active & OUT_ANY != 0
  {
  }

  lemma CallStartSession(s: Info, session: Session)
    requires IsCommunication(session)
    ensures Step(s, Talk(session, true)).0.session == session
  {
    hide PlaybackOnly, CaptureOnly, Has;
  }

  lemma RouteSounds(s: Info, route: bv16)
    requires route in ROUTES
    ensures var t := Step(s, RouteTo(route)).0;
            t.session == s.session && (s.active & OUT_ANY != 0 ==> t.active & OUT_ANY != 0)
  {
  }

  lemma SelectSounds(s: Info)
    ensures SelectPlayback(s).active & OUT_ANY != 0
    ensures s.active & OUT_ANY != 0 ==> SelectCapture(s).active & OUT_ANY != 0
  {
  }

  lemma OnlySounds(active: bv16, x: bv16)
    ensures x & OUT_ANY != 0 ==> PlaybackOnly(active, x) & OUT_ANY != 0
    ensures active & OUT_ANY != 0 ==> CaptureOnly(active, x) & OUT_ANY != 0
  {
  }

  lemma HeadsetSounds(s: Info, earjack: int)
    requires Sounding(s)
    ensures Sounding(HeadsetOn(s, earjack).0) && HeadsetOn(s, earjack).0.session == s.session
    ensures Sounding(HeadsetOff(s).0) && HeadsetOff(s).0.session == s.session
  {
    var h := s.(active := Without(Without(s.active, OUT_WIRED), IN_WIRED));
    SelectSounds(h);
    SelectSounds(SelectPlayback(h));
    OnlySounds(s.active, OUT_WIRED);
    OnlySounds(PlaybackOnly(s.active, OUT_WIRED), IN_WIRED);
    hide Has, Without, PlaybackOnly, CaptureOnly, SelectPlayback, SelectCapture, IsCommunication;
  }

  lemma SinkSounds(s: Info, x: bv16)
    requires Sounding(s) && x & OUT_ANY != 0
    ensures Sounding(SinkOn(s, x).0) && SinkOn(s, x).0.session == s.session
    ensures Sounding(SinkOff(s, x).0) && SinkOff(s, x).0.session == s.session
  {
    SelectSounds(s.(active := Without(s.active, x)));
    OnlySounds(s.active, x);
    hide Has, Without, PlaybackOnly, SelectPlayback, IsCommunication;
  }

  lemma ScoSounds(s: Info)
    requires Sounding(s)
    ensures Sounding(ScoOff(s).0) && ScoOff(s).0.session == s.session
  {
    var o := s.(active := Without(Without(s.active, OUT_SCO), IN_SCO));
    SelectSounds(o);
    SelectSounds(SelectPlayback(o));
    hide Has, Without, SelectPlayback, SelectCapture, IsCommunication;
  }

  lemma FollowSounds(s: Info, e: DeviceEvent)
    requires Sounding(s) && e.Plug?
    ensures Sounding(Follow(s, e).0) && Follow(s, e).0.session == s.session
  {
    hide Sounding, HeadsetOn, HeadsetOff, SinkOn, SinkOff, ScoOff;
    match e.device {
      case Wired => HeadsetSounds(s, e.earjack);
      case A2dp => SinkSounds(s, OUT_A2DP);
      case Sco => ScoSounds(s);
      case Dock => SinkSounds(s, OUT_DOCK);
    }
  }

  lemma PlugSounds(s: Info, e: DeviceEvent)
    requires Sounding(s) && e.Plug?
    ensures Sounding(Step(s, e).0)
  {
    FollowSounds(s.(available := AfterPlug(s, e)), e);
    hide Has, Without, Follow, InOf, OutOf, IsCommunication;
  }

  lemma TalkSounds(s: Info, session: Session, start: bool)
    requires Sounding(s)
    ensures Sounding(Step(s, Talk(session, start)).0) <==> !Abandons(s, Talk(session, start))
  {
    hide Step;
    if !IsCommunication(session) {
      OtherSession(s, session, start);
    } else if start {
      CallStartSession(s, session);
    } else {
      CallEndSounds(s, session);
    }
  }

  /** Outside calls an output stays in use, until a call that lost its headset is
      abandoned for another session instead of being ended. */
  lemma SoundingExactly(s: Info, e: DeviceEvent)
    requires Sounding(s) && Valid(e)
    ensures Sounding(Step(s, e).0) <==> !Abandons(s, e)
  {
    hide Step;
    match e {
      case Plug(_, _, _) => PlugSounds(s, e);
      case RouteTo(route) => RouteSounds(s, route);
      case Talk(session, start) => TalkSounds(s, session, start);
    }
  }

  lemma {:induction false} SoundingUpTo(s: Info, events: seq<DeviceEvent>, k: nat)
    requires Sounding(s) && AllValid(events) && k <= |events|
    requires forall j :: 0 <= j < k ==> !Abandons(At(s, events, j), events[j])
    ensures Sounding(At(s, events, k))
  {
    hide Sounding, Step, Valid, Abandons;
    if k == 0 {
      assert events[..0] == [];
    } else {
      SoundingUpTo(s, events, k - 1);
      AtNext(s, events, k - 1);
      SoundingExactly(At(s, events, k - 1), events[k - 1]);
    }
  }

  predicate ExactlyOneOutput(active: bv16) {
    OneOutput(active) && active & OUT_ANY != 0
  }

  /** On every run in which a call is ended before another session starts or ends,
      exactly one output is in use whenever no call is on. */
  lemma OneOutputOutsideCalls(earjack: int, a2dp: bool, sco: bool, events: seq<DeviceEvent>, k: nat)
    requires AllValid(events) && k <= |events|
    requires var s := Start(earjack, a2dp, sco);
             forall j :: 0 <= j < |events| && events[j].Talk? && !IsCommunication(events[j].session) ==>
               !IsCommunication(At(s, events, j).session)
    ensures var t := At(Start(earjack, a2dp, sco), events, k);
            IsCommunication(t.session) || ExactlyOneOutput(t.active)
  {
    var s := Start(earjack, a2dp, sco);
    StartState(earjack, a2dp, sco);
    hide Start, Run, OneOutput, OneInput, Plausible, Valid;
    RunSingle(s, events, k);
    SoundingUpTo(s, events, k);
  }

  /** Without that, none may be left: the headset is pulled during a call, and then the
      media session starts. */
  lemma SilentAfterAbandonedCall()
    ensures var s := Run(Start(1, false, false), [Talk(VoiceCall, true), Plug(Wired, false, 0), Talk(Media, true)]).0;
            s.session == Media && s.active & OUT_ANY == 0
  {
    var s0 := Start(1, false, false);
    var s1 := Step(s0, Talk(VoiceCall, true)).0;
    var s2 := Step(s1, Plug(Wired, false, 0)).0;
    assert s0 == Info(0x0501, 0x0401, Media);
    assert s1 == Info(0x0701, 0x0401, VoiceCall);
    assert s2 == Info(0x0301, 0x0001, VoiceCall);
    assert Step(s2, Talk(Media, true)).0 == Info(0x0301, 0x0001, Media);
    var events := [Talk(VoiceCall, true), Plug(Wired, false, 0), Talk(Media, true)];
    hide Start, Step;
    assert events[..0] == [];
    AtNext(s0, events, 0);
    AtNext(s0, events, 1);
    AtNext(s0, events, 2);
    assert events[..3] == events;
  }

  // ------------------------------------------------------ what replaces what

  /** Outputs in the order in which they take over. */
  const PRIORITY: seq<bv16> := [OUT_A2DP, OUT_DOCK, OUT_WIRED, OUT_SPEAKER]

  /** The first output of the order that is plugged in. */
  function Best(available: bv16, order: seq<bv16>): bv16 {
    if order == [] then 0
    else if Has(available, order[0]) then order[0] else Best(available, order[1..])
  }

  lemma BestMeaning(available: bv16)
    requires Has(available, OUT_SPEAKER)
    ensures Best(available, PRIORITY) ==
              if Has(available, OUT_A2DP) then OUT_A2DP else if Has(available, OUT_DOCK) then OUT_DOCK
              else if Has(available, OUT_WIRED) then OUT_WIRED else OUT_SPEAKER
  {
    hide Has;
    var o1, o2, o3 := [OUT_SPEAKER], [OUT_WIRED, OUT_SPEAKER], [OUT_DOCK, OUT_WIRED, OUT_SPEAKER];
    assert PRIORITY[1..] == o3 && o3[1..] == o2 && o2[1..] == o1;
    assert Best(available, o1) == OUT_SPEAKER;
    assert Best(available, o2) == if Has(available, OUT_WIRED) then OUT_WIRED else OUT_SPEAKER;
    assert Best(available, o3) == if Has(available, OUT_DOCK) then OUT_DOCK else Best(available, o2);
  }

  lemma SelectIsBest(s: Info)
    requires Has(s.available, OUT_SPEAKER) && s.active & OUT_ANY == 0
    ensures SelectPlayback(s).active & OUT_ANY == Best(s.available, PRIORITY)
    ensures SelectCapture(SelectPlayback(s)).active & OUT_ANY == Best(s.available, PRIORITY)
  {
    BestMeaning(s.available);
    var b := Best(s.available, PRIORITY);
    assert SelectPlayback(s).active == With(s.active, b);
    OrKeeps(s.active, b);
    SelectCaptureKeeps(SelectPlayback(s));
    hide Best, SelectPlayback, SelectCapture;
  }

  lemma OrKeeps(active: bv16, b: bv16)
    requires active & OUT_ANY == 0 && b & OUT_ANY == b
    ensures With(active, b) & OUT_ANY == b
  {
  }

  lemma SelectCaptureKeeps(s: Info)
    ensures SelectCapture(s).active & OUT_ANY == s.active & OUT_ANY
  {
  }

  lemma SoleOutput(active: bv16, x: bv16, y: bv16)
    requires OneOutput(active) && Has(active, x) && x & OUT_ANY == x && y & IN_ANY == y && OneOutput(x)
    ensures Without(active, x) & OUT_ANY == 0 && Without(Without(active, x), y) & OUT_ANY == 0
  {
  }

  /** When the output in use goes, the best one that is left takes over; only a headset
      that goes during a call is not replaced. */
  lemma BestTakesOver(s: Info, e: DeviceEvent)
    requires Plausible(s.available) && Single(s) && e.Plug? && !e.on
    requires Has(s.available, OutOf(e.device)) && Has(s.active, OutOf(e.device))
    ensures var t := Step(s, e).0;
            t.active & OUT_ANY == if e.device == Wired && IsCommunication(s.session) then 0 else Best(t.available, PRIORITY)
  {
    PlugPlausible(s, e);
    var a := s.(available := AfterPlug(s, e));
    FollowKeeps(a, e);
    FollowsBest(a, e);
    hide Best, Follow, InOf, OutOf, Has, Without, Plausible, Single;
  }

  lemma FollowsBest(s: Info, e: DeviceEvent)
    requires Plausible(s.available) && Single(s) && e.Plug? && !e.on && Has(s.active, OutOf(e.device))
    ensures var t := Follow(s, e).0;
            t.active & OUT_ANY == if e.device == Wired && IsCommunication(s.session) then 0 else Best(s.available, PRIORITY)
  {
    var x := OutOf(e.device);
    var y := if e.device == Wired then IN_WIRED else if e.device == Sco then IN_SCO else 0;
    SoleOutput(s.active, x, y);
    SelectIsBest(s.(active := Without(s.active, x)));
    SelectIsBest(s.(active := Without(Without(s.active, x), y)));
    hide Best, SelectPlayback, SelectCapture, Without, Has;
  }

  /** A call that starts and ends gives the output back exactly if that was the
      speaker, the headset or A2DP; a dock, for one, loses it to the speaker. */
  lemma CallRestoresOutput(s: Info, session: Session)
    requires Single(s) && IsCommunication(session)
    ensures var t := Step(Step(s, Talk(session, true)).0, Talk(session, false)).0;
            var o := s.active & OUT_ANY;
            t.active & OUT_ANY == o <==> o == OUT_SPEAKER || o == OUT_WIRED || o == OUT_A2DP
  {
    StartedOutput(s, session);
    EndedOutput(Step(s, Talk(session, true)).0, session);
    hide Step;
  }

  lemma StartedOutput(s: Info, session: Session)
    requires Single(s) && IsCommunication(session)
    ensures var t := Step(s, Talk(session, true)).0;
            var o := s.active & OUT_ANY;
            Single(t) &&
            t.active & OUT_ANY == if o == OUT_SPEAKER then OUT_RECEIVER else if o == OUT_A2DP then OUT_SCO else o
  {
    TalkSingle(s, session, true);
    OutputIs(s.active);
    hide Single;
  }

  lemma EndedOutput(s: Info, session: Session)
    requires Single(s) && IsCommunication(session)
    ensures var t := Step(s, Talk(session, false)).0;
            var o := s.active & OUT_ANY;
            t.active & OUT_ANY ==
              if o == OUT_SCO then OUT_A2DP else if o == OUT_WIRED then OUT_WIRED else OUT_SPEAKER
  {
    OutputIs(s.active);
    hide Single;
  }

  lemma OutputIs(active: bv16)
    requires OneOutput(active)
    ensures Has(active, OUT_SPEAKER) <==> active & OUT_ANY == OUT_SPEAKER
    ensures Has(active, OUT_RECEIVER) <==> active & OUT_ANY == OUT_RECEIVER
    ensures Has(active, OUT_WIRED) <==> active & OUT_ANY == OUT_WIRED
    ensures Has(active, OUT_SCO) <==> active & OUT_ANY == OUT_SCO
    ensures Has(active, OUT_A2DP) <==> active & OUT_ANY == OUT_A2DP
  {
  }

  // --------------------------------------------------------------- listeners

  /** What a listener that keeps the last notice believes to be in use. */
  function Heard(belief: bv16, notices: seq<Notice>): bv16 {
    if notices == [] then belief
    else
      match notices[|notices| - 1]
      case ActiveChanged(capture, playback) => capture | playback
      case RoutesChanged(_, _) => Heard(belief, notices[..|notices| - 1])
  }

  /** A headset in use is pulled out during a call. */
  predicate SilentPull(s: Info, e: DeviceEvent) {
    e.Plug? && e.device == Wired && !e.on && Has(s.available, OUT_WIRED) && Has(s.active, OUT_WIRED)
    && IsCommunication(s.session)
  }

  lemma BothHalves(x: bv16)
    ensures (x & IN_ANY) | (x & OUT_ANY) == x
  {
  }

  lemma FollowHeard(s: Info, e: DeviceEvent)
    requires e.Plug? && !(e.device == Wired && !e.on && Has(s.active, OUT_WIRED) && IsCommunication(s.session))
    ensures var (t, notices) := Follow(s, e);
            if notices == [] then t == s else notices == Announce(t).1
  {
    hide Has, Without, PlaybackOnly, CaptureOnly, SelectPlayback, SelectCapture;
  }

  lemma PulledHeard(s: Info)
    requires Has(s.active, OUT_WIRED) && IsCommunication(s.session)
    ensures HeadsetOff(s).1 == [] && HeadsetOff(s).0.active != s.active
  {
  }

  lemma HeardTwo(belief: bv16, first: Notice, rest: seq<Notice>, t: Info)
    requires first.RoutesChanged?
    ensures rest == [] ==> Heard(belief, [first] + rest) == belief
    ensures rest == Announce(t).1 ==> Heard(belief, [first] + rest) == t.active
  {
    BothHalves(t.active);
    assert [first][..0] == [];
  }

  lemma PlugHeard(s: Info, e: DeviceEvent)
    requires e.Plug?
    ensures var (t, notices) := Step(s, e); Heard(s.active, notices) == t.active <==> !SilentPull(s, e)
  {
    if Has(s.available, OutOf(e.device)) != e.on {
      var a := s.(available := AfterPlug(s, e));
      var (t, notices) := Follow(a, e);
      HeardTwo(s.active, RoutesChanged(TouchedRoutes(AfterPlug(s, e), InOf(s, e), OutOf(e.device)), e.on), notices, t);
      if SilentPull(s, e) { PulledHeard(a); } else { FollowHeard(a, e); }
      hide Has, Without, TouchedRoutes, Follow, InOf, Heard, Announce;
    }
  }

  /** An up-to-date listener stays so through every event but a silent pull. */
  lemma HeardExactly(s: Info, e: DeviceEvent)
    ensures var (t, notices) := Step(s, e); Heard(s.active, notices) == t.active <==> !SilentPull(s, e)
  {
    match e {
      case Plug(_, _, _) => PlugHeard(s, e);
      case RouteTo(route) => BothHalves(Step(s, e).0.active); hide Has, PlaybackOnly, CaptureOnly;
      case Talk(session, start) => TalkHeard(s, session, start);
    }
  }

  lemma TalkHeard(s: Info, session: Session, start: bool)
    ensures var (t, notices) := Step(s, Talk(session, start)); Heard(s.active, notices) == t.active
  {
    if IsCommunication(session) {
      var t := Step(s, Talk(session, start)).0;
      HeardTwo(s.active, RoutesChanged(TouchedRoutes(AfterCall(s.available, start), 0, OUT_RECEIVER), start),
        Announce(t).1, t);
      hide Has, Without, TouchedRoutes, OnCallStart, OnCallEnd, Heard;
    }
  }

  lemma {:induction false} HeardAppend(belief: bv16, a: seq<Notice>, b: seq<Notice>)
    ensures Heard(belief, a + b) == Heard(Heard(belief, a), b)
  {
    if b == [] {
      assert a + b == a;
    } else {
      var n := |b| - 1;
      HeardAppend(belief, a, b[..n]);
      assert (a + b)[..|a| + n] == a + b[..n];
    }
  }

  /** What a listener that starts up to date believes after the first `k` events. */
  function Belief(s: Info, events: seq<DeviceEvent>, k: nat): bv16
    requires k <= |events|
  {
    Heard(s.active, Run(s, events[..k]).1)
  }

  lemma BeliefNext(s: Info, events: seq<DeviceEvent>, k: nat)
    requires k < |events|
    ensures Belief(s, events, k + 1) == Heard(Belief(s, events, k), Step(At(s, events, k), events[k]).1)
  {
    hide Step, Heard;
    assert events[..k + 1][..k] == events[..k];
    HeardAppend(s.active, Run(s, events[..k]).1, Step(At(s, events, k), events[k]).1);
  }

  lemma {:induction false} HeardUpTo(s: Info, events: seq<DeviceEvent>, k: nat)
    requires k <= |events| && forall j :: 0 <= j < k ==> !SilentPull(At(s, events, j), events[j])
    ensures Belief(s, events, k) == At(s, events, k).active
  {
    hide Step, SilentPull;
    if k == 0 {
      assert events[..0] == [];
    } else {
      HeardUpTo(s, events, k - 1);
      AtNext(s, events, k - 1);
      BeliefNext(s, events, k - 1);
      HeardExactly(At(s, events, k - 1), events[k - 1]);
    }
  }

  /** From any state, a listener knows the devices in use after every event exactly
      when no headset in use is pulled out during a call. */
  lemma ListenersAreCurrent(s: Info, events: seq<DeviceEvent>)
    ensures (forall k :: 0 <= k <= |events| ==> Belief(s, events, k) == At(s, events, k).active) <==>
            (forall k :: 0 <= k < |events| ==> !SilentPull(At(s, events, k), events[k]))
  {
    hide Step, SilentPull, Belief, At;
    if forall k :: 0 <= k < |events| ==> !SilentPull(At(s, events, k), events[k]) {
      forall k | 0 <= k <= |events| ensures Belief(s, events, k) == At(s, events, k).active { HeardUpTo(s, events, k); }
    } else {
      var k :| 0 <= k < |events| && SilentPull(At(s, events, k), events[k]);
      AtNext(s, events, k);
      BeliefNext(s, events, k);
      HeardExactly(At(s, events, k), events[k]);
    }
  }

  // --------------------------------------------------- an output on every run

  predicate HasOutput(s: Info) {
    s.active & OUT_ANY != 0
  }

  lemma OutputUnderHeadset(s: Info, earjack: int)
    requires HasOutput(s) && OneOutput(s.active)
    ensures HasOutput(HeadsetOn(s, earjack).0)
    ensures HasOutput(HeadsetOff(s).0) <==> !(Has(s.active, OUT_WIRED) && IsCommunication(s.session))
  {
    var h := s.(active := Without(Without(s.active, OUT_WIRED), IN_WIRED));
    SelectSounds(h);
    SelectSounds(SelectPlayback(h));
    OnlySounds(s.active, OUT_WIRED);
    OnlySounds(PlaybackOnly(s.active, OUT_WIRED), IN_WIRED);
    NoOutputLeft(s.active);
    hide Has, Without, PlaybackOnly, CaptureOnly, SelectPlayback, SelectCapture, IsCommunication, OneOutput;
  }

  lemma NoOutputLeft(active: bv16)
    requires OneOutput(active)
    ensures Has(active, OUT_WIRED) ==> Without(Without(active, OUT_WIRED), IN_WIRED) & OUT_ANY == 0
  {
  }

  lemma OutputUnderOthers(s: Info, x: bv16)
    requires HasOutput(s)
    ensures x & OUT_ANY != 0 ==> HasOutput(SinkOn(s, x).0)
    ensures HasOutput(SinkOff(s, x).0) && HasOutput(ScoOff(s).0)
  {
    var o := s.(active := Without(Without(s.active, OUT_SCO), IN_SCO));
    SelectSounds(s.(active := Without(s.active, x)));
    SelectSounds(o);
    SelectSounds(SelectPlayback(o));
    OnlySounds(s.active, x);
    hide Has, Without, PlaybackOnly, SelectPlayback, SelectCapture, IsCommunication;
  }

  lemma OutputUnderPlug(s: Info, e: DeviceEvent)
    requires HasOutput(s) && OneOutput(s.active) && e.Plug?
    ensures HasOutput(Step(s, e).0) <==> !SilentPull(s, e)
  {
    hide Has, Without, With, InOf, OneOutput, HeadsetOn, HeadsetOff, SinkOn, SinkOff, ScoOff, HasOutput, IsCommunication;
    var a := s.(available := AfterPlug(s, e));
    assert HasOutput(a) by { SameOutput(s, a); }
    match e.device {
      case Wired => OutputUnderHeadset(a, e.earjack);
      case A2dp => OutputUnderOthers(a, OUT_A2DP);
      case Sco => OutputUnderOthers(a, OUT_A2DP);
      case Dock => OutputUnderOthers(a, OUT_DOCK);
    }
  }

  lemma SameOutput(s: Info, t: Info)
    ensures s.active == t.active ==> HasOutput(s) == HasOutput(t)
  {
  }

  lemma OutputUnderTalk(s: Info, session: Session, start: bool)
    requires HasOutput(s)
    ensures HasOutput(Step(s, Talk(session, start)).0)
  {
  }

  /** An output stays in use through every event but a silent pull. */
  lemma OutputExactly(s: Info, e: DeviceEvent)
    requires HasOutput(s) && OneOutput(s.active) && Valid(e)
    ensures HasOutput(Step(s, e).0) <==> !SilentPull(s, e)
  {
    hide Step, OneOutput;
    match e {
      case Plug(_, _, _) => OutputUnderPlug(s, e);
      case RouteTo(route) => RouteSounds(s, route);
      case Talk(session, start) => OutputUnderTalk(s, session, start);
    }
  }

  lemma {:induction false} OutputUpTo(s: Info, events: seq<DeviceEvent>, k: nat)
    requires Plausible(s.available) && Single(s) && HasOutput(s) && AllValid(events) && k <= |events|
    requires forall j :: 0 <= j < k ==> !SilentPull(At(s, events, j), events[j])
    ensures HasOutput(At(s, events, k))
  {
    hide Plausible, OneOutput, OneInput, Step, Valid, HasOutput, SilentPull;
    if k == 0 {
      assert events[..0] == [];
    } else {
      OutputUpTo(s, events, k - 1);
      RunSingle(s, events, k - 1);
      AtNext(s, events, k - 1);
      OutputExactly(At(s, events, k - 1), events[k - 1]);
    }
  }

  /** On every run exactly one output is in use after every event, calls included, if and
      only if no headset in use is pulled out during a call. */
  lemma OneOutputAlways(earjack: int, a2dp: bool, sco: bool, events: seq<DeviceEvent>)
    requires AllValid(events)
    ensures var s := Start(earjack, a2dp, sco);
            (forall k :: 0 <= k <= |events| ==> ExactlyOneOutput(At(s, events, k).active)) <==>
            (forall k :: 0 <= k < |events| ==> !SilentPull(At(s, events, k), events[k]))
  {
    var s := Start(earjack, a2dp, sco);
    StartState(earjack, a2dp, sco);
    hide Plausible, OneOutput, OneInput, Step, Valid, SilentPull, Start;
    if forall k :: 0 <= k < |events| ==> !SilentPull(At(s, events, k), events[k]) {
      forall k | 0 <= k <= |events| ensures ExactlyOneOutput(At(s, events, k).active) {
        OutputUpTo(s, events, k);
        RunSingle(s, events, k);
      }
    } else {
      var k :| 0 <= k < |events| && SilentPull(At(s, events, k), events[k]);
      AtNext(s, events, k);
      RunSingle(s, events, k);
      if HasOutput(At(s, events, k)) { OutputExactly(At(s, events, k), events[k]); }
    }
  }

  // -------------------------------------------------- which history is silent

  /** An output that is there is asked for, with an input that is there or without one. */
  predicate OutputGranted(available: bv16, playback: bv16, capture: bv16) {
    playback != 0 && Has(available, playback) && (capture == 0 || Has(available, capture))
  }

  predicate RouteGranted(available: bv16, route: bv16) {
    OutputGranted(available, route & OUT_ANY, route & IN_ANY)
  }

  /** This event puts an output in use where there was none. */
  predicate Chooses(s: Info, e: DeviceEvent) {
    match e
    case Plug(device, on, _) =>
      if on then device != Sco && !Has(s.available, OutOf(device)) && !IsCommunication(s.session)
      else device == Sco && Has(s.available, OUT_SCO) && Has(s.active, IN_SCO)
    case RouteTo(route) => RouteGranted(s.available, route)
    case Talk(session, start) => IsCommunication(session) && !start
  }

  lemma NothingToLose(active: bv16)
    requires active & OUT_ANY == 0
    ensures !Has(active, OUT_WIRED) && !Has(active, OUT_A2DP) && !Has(active, OUT_DOCK) && !Has(active, OUT_SCO)
    ensures !Has(active, OUT_SPEAKER)
  {
  }

  lemma PlaybackGives(s: Info, x: bv16)
    ensures HasOutput(s.(active := PlaybackOnly(s.active, x))) <==> x & OUT_ANY != 0
  {
  }

  lemma CaptureKeeps(s: Info, y: bv16)
    requires y & OUT_ANY == 0
    ensures HasOutput(s.(active := CaptureOnly(s.active, y))) <==> HasOutput(s)
  {
  }

  lemma SelectGives(s: Info)
    ensures HasOutput(SelectPlayback(s)) && HasOutput(SelectCapture(SelectPlayback(s)))
  {
    SelectSounds(s);
    SelectSounds(SelectPlayback(s));
    hide SelectPlayback, SelectCapture;
  }

  lemma OutIsOutput(device: Device)
    ensures OutOf(device) & OUT_ANY != 0
  {
  }

  lemma ChosenByHeadset(s: Info, earjack: int)
    requires !HasOutput(s)
    ensures HasOutput(HeadsetOn(s, earjack).0) <==> !IsCommunication(s.session)
    ensures !HasOutput(HeadsetOff(s).0)
  {
    NothingToLose(s.active);
    hide Has, PlaybackOnly, CaptureOnly, HasOutput, IsCommunication;
    PlaybackGives(s, OUT_WIRED);
    CaptureKeeps(s.(active := PlaybackOnly(s.active, OUT_WIRED)), IN_WIRED);
  }

  lemma ChosenBySink(s: Info, device: Device)
    requires !HasOutput(s) && (device == A2dp || device == Dock)
    ensures HasOutput(SinkOn(s, OutOf(device)).0) <==> !IsCommunication(s.session)
    ensures !HasOutput(SinkOff(s, OutOf(device)).0)
  {
    NothingToLose(s.active);
    OutIsOutput(device);
    hide Has, PlaybackOnly, HasOutput, IsCommunication;
    PlaybackGives(s, OutOf(device));
  }

  lemma ChosenBySco(s: Info)
    requires !HasOutput(s)
    ensures HasOutput(ScoOff(s).0) <==> Has(s.active, IN_SCO)
  {
    NothingToLose(s.active);
    hide Has, Without, SelectPlayback, SelectCapture, HasOutput;
    SelectGives(s.(active := Without(Without(s.active, OUT_SCO), IN_SCO)));
  }

  lemma ChosenByFollow(s: Info, e: DeviceEvent)
    requires !HasOutput(s) && e.Plug?
    ensures HasOutput(Follow(s, e).0) <==>
              if e.on then e.device != Sco && !IsCommunication(s.session) else e.device == Sco && Has(s.active, IN_SCO)
  {
    hide HasOutput, HeadsetOn, HeadsetOff, SinkOn, SinkOff, ScoOff, Has, IsCommunication;
    match e.device {
      case Wired => ChosenByHeadset(s, e.earjack);
      case A2dp => ChosenBySink(s, A2dp);
      case Sco => ChosenBySco(s);
      case Dock => ChosenBySink(s, Dock);
    }
  }

  lemma ChosenByPlug(s: Info, e: DeviceEvent)
    requires !HasOutput(s) && e.Plug?
    ensures HasOutput(Step(s, e).0) <==> Chooses(s, e)
  {
    hide HasOutput, Follow, With, Without, InOf, Has, IsCommunication;
    var a := s.(available := AfterPlug(s, e));
    SameOutput(s, a);
    ChosenByFollow(a, e);
  }

  lemma ChosenByDevices(s: Info, x: bv16, y: bv16)
    requires !HasOutput(s)
    requires HasOutput(s.(active := PlaybackOnly(s.active, x))) <==> x != 0
    requires !HasOutput(s.(active := CaptureOnly(s.active, y)))
    requires x != 0 ==> HasOutput(s.(active := CaptureOnly(PlaybackOnly(s.active, x), y)))
    ensures HasOutput(OnRoute(s, x, y).0) <==> OutputGranted(s.available, x, y)
  {
    hide Has, PlaybackOnly, CaptureOnly, HasOutput;
  }

  lemma RoutedOutput(s: Info, route: bv16)
    requires !HasOutput(s)
    ensures var x := route & OUT_ANY; HasOutput(s.(active := PlaybackOnly(s.active, x))) <==> x != 0
  {
    var x := route & OUT_ANY;
    PlaybackGives(s, x);
    OutputPart(route);
    hide PlaybackOnly, HasOutput;
  }

  lemma OutputPart(route: bv16)
    ensures (route & OUT_ANY) & OUT_ANY == route & OUT_ANY
  {
  }

  lemma InputPart(route: bv16)
    ensures (route & IN_ANY) & OUT_ANY == 0
  {
  }

  lemma RoutedInput(s: Info, route: bv16)
    ensures HasOutput(s.(active := CaptureOnly(s.active, route & IN_ANY))) <==> HasOutput(s)
  {
    InputPart(route);
    CaptureKeeps(s, route & IN_ANY);
    hide CaptureOnly, HasOutput;
  }

  lemma ChosenByParts(s: Info, x: bv16, y: bv16, route: bv16)
    requires !HasOutput(s) && x == route & OUT_ANY && y == route & IN_ANY
    ensures HasOutput(OnRoute(s, x, y).0) <==> OutputGranted(s.available, x, y)
  {
    hide Has, PlaybackOnly, CaptureOnly, HasOutput, OnRoute, OutputGranted;
    RoutedOutput(s, route);
    RoutedInput(s, route);
    RoutedInput(s.(active := PlaybackOnly(s.active, x)), route);
    ChosenByDevices(s, x, y);
  }

  lemma StepOfRoute(s: Info, route: bv16, x: bv16, y: bv16)
    requires x == route & OUT_ANY && y == route & IN_ANY
    ensures Step(s, RouteTo(route)) == OnRoute(s, x, y)
  {
    hide OnRoute;
  }

  lemma GrantedRoute(s: Info, route: bv16)
    requires !HasOutput(s)
    ensures HasOutput(Step(s, RouteTo(route)).0) <==> RouteGranted(s.available, route)
  {
    hide HasOutput, OnRoute, OutputGranted, Step;
    var x, y := route & OUT_ANY, route & IN_ANY;
    StepOfRoute(s, route, x, y);
    ChosenByParts(s, x, y, route);
  }

  lemma ChosenByRoute(s: Info, route: bv16)
    requires !HasOutput(s)
    ensures HasOutput(Step(s, RouteTo(route)).0) <==> Chooses(s, RouteTo(route))
  {
    hide HasOutput, OnRoute, OutputGranted, Step, RouteGranted, Has, OutOf, IsCommunication;
    GrantedRoute(s, route);
  }

  lemma ChosenByTalk(s: Info, session: Session, start: bool)
    requires !HasOutput(s)
    ensures HasOutput(Step(s, Talk(session, start)).0) <==> Chooses(s, Talk(session, start))
  {
    hide Has, PlaybackOnly, CaptureOnly;
    NothingToLose(s.active);
    if !IsCommunication(session) {
      OtherSession(s, session, start);
    } else if !start {
      CallEndSounds(s, session);
    }
  }

  /** Where no output is in use, exactly these events bring one. */
  lemma ChosenExactly(s: Info, e: DeviceEvent)
    requires !HasOutput(s) && Valid(e)
    ensures HasOutput(Step(s, e).0) <==> Chooses(s, e)
  {
    hide Step, Chooses, HasOutput;
    match e {
      case Plug(_, _, _) => ChosenByPlug(s, e);
      case RouteTo(route) => ChosenByRoute(s, route);
      case Talk(session, start) => ChosenByTalk(s, session, start);
    }
  }

  /** Before the k-th event a headset in use was pulled out during a call, and no event
      since has chosen an output. */
  ghost predicate Silenced(s: Info, events: seq<DeviceEvent>, k: nat)
    requires k <= |events|
  {
    exists j :: 0 <= j < k && SilentPull(At(s, events, j), events[j])
                && forall l :: j < l < k ==> !Chooses(At(s, events, l), events[l])
  }

  lemma SilencedNext(s: Info, events: seq<DeviceEvent>, k: nat)
    requires k < |events|
    ensures Silenced(s, events, k + 1) <==>
              || SilentPull(At(s, events, k), events[k])
              || (Silenced(s, events, k) && !Chooses(At(s, events, k), events[k]))
  {
    hide SilentPull, Chooses, At;
    if Silenced(s, events, k) && !Chooses(At(s, events, k), events[k]) {
      var j :| 0 <= j < k && SilentPull(At(s, events, j), events[j])
               && forall l :: j < l < k ==> !Chooses(At(s, events, l), events[l]);
      assert forall l :: j < l < k + 1 ==> !Chooses(At(s, events, l), events[l]);
    }
  }

  lemma PullNeedsOutput(s: Info, e: DeviceEvent)
    ensures SilentPull(s, e) ==> HasOutput(s)
  {
  }

  /** Whether some output is in use after some events, calls included, told from the events
      alone: there is none if and only if a headset in use was pulled out during a call and
      no event since has chosen an output. */
  lemma {:induction false} OutputHistory(earjack: int, a2dp: bool, sco: bool, events: seq<DeviceEvent>, k: nat)
    requires AllValid(events) && k <= |events|
    ensures var s := Start(earjack, a2dp, sco);
            At(s, events, k).active & OUT_ANY != 0 <==> !Silenced(s, events, k)
  {
    var s := Start(earjack, a2dp, sco);
    StartState(earjack, a2dp, sco);
    hide Plausible, OneOutput, OneInput, Step, Valid, SilentPull, Chooses, Silenced, Start;
    if k == 0 {
      assert events[..0] == [];
      assert !Silenced(s, events, 0) by { NotSilencedYet(s, events); }
    } else {
      OutputHistory(earjack, a2dp, sco, events, k - 1);
      var u := At(s, events, k - 1);
      RunSingle(s, events, k - 1);
      AtNext(s, events, k - 1);
      SilencedNext(s, events, k - 1);
      PullNeedsOutput(u, events[k - 1]);
      if HasOutput(u) { OutputExactly(u, events[k - 1]); } else { ChosenExactly(u, events[k - 1]); }
    }
  }

  lemma NotSilencedYet(s: Info, events: seq<DeviceEvent>)
    ensures !Silenced(s, events, 0)
  {
  }

  /** Another session ends a call that was silenced. */
  ghost predicate LeavesSilence(s: Info, events: seq<DeviceEvent>, k: nat)
    requires k < |events|
  {
    && events[k].Talk? && !IsCommunication(events[k].session)
    && IsCommunication(At(s, events, k).session) && Silenced(s, events, k)
  }

  /** On every run an output is in use outside calls after every event exactly when no
      call that was silenced is left for another session. */
  lemma AlwaysSounding(earjack: int, a2dp: bool, sco: bool, events: seq<DeviceEvent>)
    requires AllValid(events)
    ensures var s := Start(earjack, a2dp, sco);
            (forall k :: 0 <= k <= |events| ==> Sounding(At(s, events, k))) <==>
            (forall k :: 0 <= k < |events| ==> !LeavesSilence(s, events, k))
  {
    var s := Start(earjack, a2dp, sco);
    StartState(earjack, a2dp, sco);
    hide Sounding, Step, Valid, Abandons, Start, LeavesSilence;
    assert Sounding(s) by { StartSounds(s); }
    forall k | 0 <= k < |events|
      ensures Abandons(At(s, events, k), events[k]) <==> LeavesSilence(s, events, k)
    {
      OutputHistory(earjack, a2dp, sco, events, k);
      AbandonedSilence(s, events, k);
    }
    if forall k :: 0 <= k < |events| ==> !LeavesSilence(s, events, k) {
      forall k | 0 <= k <= |events| ensures Sounding(At(s, events, k)) { SoundingUpTo(s, events, k); }
    } else {
      var k :| 0 <= k < |events| && LeavesSilence(s, events, k);
      AtNext(s, events, k);
      if Sounding(At(s, events, k)) { SoundingExactly(At(s, events, k), events[k]); }
    }
  }

  lemma AbandonedSilence(s: Info, events: seq<DeviceEvent>, k: nat)
    requires k < |events| && (At(s, events, k).active & OUT_ANY != 0 <==> !Silenced(s, events, k))
    ensures Abandons(At(s, events, k), events[k]) <==> LeavesSilence(s, events, k)
  {
    hide Silenced, At;
  }

  lemma StartSounds(s: Info)
    ensures s.active & OUT_ANY != 0 ==> Sounding(s)
  {
  }
}
