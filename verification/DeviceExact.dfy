/** The output and the input in use, each one device: what every event makes of the two. */
module DeviceExact {
  import opened AsmTypes
  import opened DeviceModel
  import opened DeviceRoutes
  import opened DeviceActive

  function OutputOf(mask: bv16): bv16 {
    mask & OUT_ANY
  }

  function InputOf(mask: bv16): bv16 {
    mask & IN_ANY
  }

  predicate IsOutput(x: bv16) {
    x == OUT_SPEAKER || x == OUT_RECEIVER || x == OUT_WIRED || x == OUT_SCO || x == OUT_A2DP || x == OUT_DOCK
  }

  predicate IsInput(x: bv16) {
    x == IN_MIC || x == IN_WIRED || x == IN_SCO
  }

  /** The output that takes over when there is none, and the input. */
  function BestOutput(available: bv16): bv16 {
    if Has(available, OUT_A2DP) then OUT_A2DP
    else if Has(available, OUT_DOCK) then OUT_DOCK
    else if Has(available, OUT_WIRED) then OUT_WIRED
    else OUT_SPEAKER
  }

  function BestInput(available: bv16, session: Session): bv16 {
    if Has(available, IN_SCO) && IsCommunication(session) then IN_SCO
    else if Has(available, IN_WIRED) then IN_WIRED
    else IN_MIC
  }

  // ---------------------------------------------------- one device in a mask

  lemma PlaybackParts(active: bv16, x: bv16)
    requires x == 0 || IsOutput(x)
    ensures OutputOf(PlaybackOnly(active, x)) == x && InputOf(PlaybackOnly(active, x)) == InputOf(active)
  {
  }

  lemma CaptureParts(active: bv16, y: bv16)
    requires y == 0 || IsInput(y)
    ensures InputOf(CaptureOnly(active, y)) == y && OutputOf(CaptureOnly(active, y)) == OutputOf(active)
  {
  }

  lemma WithoutOutput(active: bv16, x: bv16)
    requires OneOutput(active) && IsOutput(x)
    ensures Has(active, x) <==> OutputOf(active) == x
    ensures OutputOf(Without(active, x)) == (if OutputOf(active) == x then 0 else OutputOf(active))
    ensures InputOf(Without(active, x)) == InputOf(active) && OneOutput(Without(active, x))
  {
  }

  lemma WithoutInput(active: bv16, y: bv16)
    requires OneInput(active) && IsInput(y)
    ensures Has(active, y) <==> InputOf(active) == y
    ensures InputOf(Without(active, y)) == (if InputOf(active) == y then 0 else InputOf(active))
    ensures OutputOf(Without(active, y)) == OutputOf(active) && OneInput(Without(active, y))
  {
  }

  lemma WithParts(active: bv16, x: bv16, y: bv16)
    requires IsOutput(x) && IsInput(y)
    ensures OutputOf(active) == 0 ==> OutputOf(With(active, x)) == x && InputOf(With(active, x)) == InputOf(active)
    ensures InputOf(active) == 0 ==> InputOf(With(active, y)) == y && OutputOf(With(active, y)) == OutputOf(active)
  {
  }

  lemma AnyParts(active: bv16)
    ensures Has(active, OUT_ANY) <==> OutputOf(active) != 0
    ensures Has(active, IN_ANY) <==> InputOf(active) != 0
  {
  }

  lemma SelectOutput(s: Info)
    ensures var t := SelectPlayback(s);
            && OutputOf(t.active) == (if OutputOf(s.active) != 0 then OutputOf(s.active) else BestOutput(s.available))
            && InputOf(t.active) == InputOf(s.active)
  {
    AnyParts(s.active);
    WithParts(s.active, BestOutput(s.available), IN_MIC);
    hide Has, With, OutputOf, InputOf;
  }

  lemma SelectInput(s: Info)
    ensures var t := SelectCapture(s);
            && InputOf(t.active) == (if InputOf(s.active) != 0 then InputOf(s.active) else BestInput(s.available, s.session))
            && OutputOf(t.active) == OutputOf(s.active)
  {
    AnyParts(s.active);
    WithParts(s.active, OUT_SPEAKER, BestInput(s.available, s.session));
    hide Has, With, OutputOf, InputOf, IsCommunication;
  }

  lemma SelectParts(s: Info)
    ensures var t := SelectPlayback(s);
            && OutputOf(t.active) == (if OutputOf(s.active) != 0 then OutputOf(s.active) else BestOutput(s.available))
            && InputOf(t.active) == InputOf(s.active)
    ensures var t := SelectCapture(s);
            && InputOf(t.active) == (if InputOf(s.active) != 0 then InputOf(s.active) else BestInput(s.available, s.session))
            && OutputOf(t.active) == OutputOf(s.active)
  {
    SelectOutput(s);
    SelectInput(s);
    hide SelectPlayback, SelectCapture, OutputOf, InputOf, BestOutput, BestInput;
  }

  // ------------------------------------------------------------- what is next

  /** The output and the input in use. */
  datatype InUse = InUse(output: bv16, input: bv16)

  function UsedIn(s: Info): InUse {
    InUse(OutputOf(s.active), InputOf(s.active))
  }

  /** A device that was plugged in takes over outside calls, a headset with its microphone. */
  function AfterOn(u: InUse, session: Session, device: Device, earjack: int): InUse {
    if IsCommunication(session) || device == Sco then u
    else InUse(OutOf(device), if device == Wired && earjack == EARJACK_WITH_MIC then IN_WIRED else u.input)
  }

  /** When a device goes that is in use, the best that are left take over; not for a headset
      that goes in a call. Only a headset or an SCO link in use takes its input along. */
  function AfterOff(u: InUse, available: bv16, session: Session, device: Device): InUse {
    match device
    case Wired =>
      if u.output != OUT_WIRED then u
      else
        var input := if u.input == IN_WIRED then 0 else u.input;
        if IsCommunication(session) then InUse(0, input)
        else InUse(BestOutput(available), if input != 0 then input else BestInput(available, session))
    case Sco =>
      if u.output != OUT_SCO && u.input != IN_SCO then u
      else
        InUse(if u.output == OUT_SCO || u.output == 0 then BestOutput(available) else u.output,
              if u.input == IN_SCO || u.input == 0 then BestInput(available, session) else u.input)
    case _ => if u.output != OutOf(device) then u else InUse(BestOutput(available), u.input)
  }

  /** A route that is granted puts in use what it names. */
  function AfterRoute(u: InUse, available: bv16, output: bv16, input: bv16): InUse {
    if (output != 0 && !Has(available, output)) || (input != 0 && !Has(available, input)) then u
    else InUse(if output != 0 then output else u.output, if input != 0 then input else u.input)
  }

  /** A call moves the speaker to the receiver, and A2DP to SCO. */
  function AfterCallStart(u: InUse): InUse {
    if u.output == OUT_SPEAKER then InUse(OUT_RECEIVER, u.input)
    else if u.output == OUT_A2DP then InUse(OUT_SCO, IN_SCO)
    else u
  }

  /** The end of a call moves them back; speaker and headset stay, and whatever else was in
      use gives way to speaker and microphone. */
  function AfterCallEnd(u: InUse, available: bv16): InUse {
    if u.output == OUT_RECEIVER then InUse(OUT_SPEAKER, u.input)
    else if u.output == OUT_SCO then InUse(OUT_A2DP, if Has(available, IN_WIRED) then IN_WIRED else IN_MIC)
    else if u.output == OUT_SPEAKER || u.output == OUT_WIRED then u
    else InUse(OUT_SPEAKER, IN_MIC)
  }

  function NextInUse(s: Info, e: DeviceEvent): InUse {
    var u := UsedIn(s);
    match e
    case Plug(device, on, earjack) =>
      if Has(s.available, OutOf(device)) == on then u
      else if on then AfterOn(u, s.session, device, earjack)
      else AfterOff(u, AfterPlug(s, e), s.session, device)
    case RouteTo(route) => AfterRoute(u, s.available, OutputOf(route), InputOf(route))
    case Talk(session, start) =>
      if !IsCommunication(session) then u
      else if start then AfterCallStart(u)
      else AfterCallEnd(u, s.available)
  }

  // ------------------------------------------------------------ event by event

  lemma OnExactly(s: Info, device: Device, earjack: int)
    requires Single(s)
    ensures UsedIn(HeadsetOn(s, earjack).0) == AfterOn(UsedIn(s), s.session, Wired, earjack)
    ensures UsedIn(SinkOn(s, OUT_A2DP).0) == AfterOn(UsedIn(s), s.session, A2dp, earjack)
    ensures UsedIn(SinkOn(s, OUT_DOCK).0) == AfterOn(UsedIn(s), s.session, Dock, earjack)
  {
    PlaybackParts(s.active, OUT_WIRED);
    PlaybackParts(s.active, OUT_A2DP);
    PlaybackParts(s.active, OUT_DOCK);
    CaptureParts(PlaybackOnly(s.active, OUT_WIRED), IN_WIRED);
    hide OutputOf, InputOf, PlaybackOnly, CaptureOnly, IsCommunication;
  }

  lemma HeadsetOffExactly(s: Info)
    requires Single(s)
    ensures UsedIn(HeadsetOff(s).0) == AfterOff(UsedIn(s), s.available, s.session, Wired)
  {
    var a := Without(s.active, OUT_WIRED);
    WithoutOutput(s.active, OUT_WIRED);
    WithoutSingle(s.active, OUT_WIRED);
    WithoutInput(a, IN_WIRED);
    var h := s.(active := Without(a, IN_WIRED));
    SelectParts(h);
    SelectParts(SelectPlayback(h));
    hide OutputOf, InputOf, Has, Without, OneOutput, OneInput, SelectPlayback, SelectCapture, IsCommunication, BestOutput,
      BestInput;
  }

  lemma SinkOffExactly(s: Info, device: Device)
    requires Single(s) && (device == A2dp || device == Dock)
    ensures UsedIn(SinkOff(s, OutOf(device)).0) == AfterOff(UsedIn(s), s.available, s.session, device)
  {
    var x := OutOf(device);
    WithoutOutput(s.active, x);
    SelectParts(s.(active := Without(s.active, x)));
    hide OutputOf, InputOf, Has, Without, OneOutput, OneInput, SelectPlayback, BestOutput, OutOf;
  }

  lemma ScoOffExactly(s: Info)
    requires Single(s)
    ensures UsedIn(ScoOff(s).0) == AfterOff(UsedIn(s), s.available, s.session, Sco)
  {
    var a := Without(s.active, OUT_SCO);
    WithoutOutput(s.active, OUT_SCO);
    WithoutInput(s.active, IN_SCO);
    WithoutSingle(s.active, OUT_SCO);
    WithoutInput(a, IN_SCO);
    var o := s.(active := Without(a, IN_SCO));
    SelectParts(o);
    SelectParts(SelectPlayback(o));
    hide OutputOf, InputOf, Has, Without, OneOutput, OneInput, SelectPlayback, SelectCapture, BestOutput, BestInput;
  }

  lemma FollowExactly(s: Info, e: DeviceEvent)
    requires Single(s) && e.Plug?
    ensures UsedIn(Follow(s, e).0) ==
              if e.on then AfterOn(UsedIn(s), s.session, e.device, e.earjack)
              else AfterOff(UsedIn(s), s.available, s.session, e.device)
  {
    hide Single, HeadsetOn, HeadsetOff, SinkOn, SinkOff, ScoOff, UsedIn, AfterOff;
    OnExactly(s, e.device, e.earjack);
    match e.device {
      case Wired => HeadsetOffExactly(s);
      case A2dp => SinkOffExactly(s, A2dp);
      case Sco => ScoOffExactly(s);
      case Dock => SinkOffExactly(s, Dock);
    }
  }

  lemma PlugExactly(s: Info, e: DeviceEvent)
    requires Single(s) && e.Plug?
    ensures UsedIn(Step(s, e).0) == NextInUse(s, e)
  {
    var a := s.(available := AfterPlug(s, e));
    SameInUse(s, a);
    hide Single, UsedIn, Follow, AfterOn, AfterOff, Has, With, Without, InOf, OutOf;
    FollowExactly(a, e);
  }

  lemma SameInUse(s: Info, t: Info)
    requires s.active == t.active
    ensures UsedIn(s) == UsedIn(t) && Single(s) == Single(t)
  {
  }

  lemma RouteOfTable(route: bv16)
    requires route in ROUTES
    ensures OutputOf(route) == 0 || IsOutput(OutputOf(route))
    ensures InputOf(route) == 0 || IsInput(InputOf(route))
  {
  }

  /** The devices that a route names, put in use one after the other. */
  function Routed(active: bv16, x: bv16, y: bv16): bv16 {
    var a := if x != 0 then PlaybackOnly(active, x) else active;
    if y != 0 then CaptureOnly(a, y) else a
  }

  lemma RoutedParts(active: bv16, x: bv16, y: bv16)
    requires (x == 0 || IsOutput(x)) && (y == 0 || IsInput(y))
    ensures OutputOf(Routed(active, x, y)) == (if x != 0 then x else OutputOf(active))
    ensures InputOf(Routed(active, x, y)) == (if y != 0 then y else InputOf(active))
  {
    PlaybackParts(active, x);
    CaptureParts(active, y);
    CaptureParts(PlaybackOnly(active, x), y);
    hide OutputOf, InputOf, PlaybackOnly, CaptureOnly, IsOutput, IsInput;
  }

  /** The notice of a request after which `active` is in use. */
  lemma OnRouteRouted(s: Info, x: bv16, y: bv16)
    ensures var refused := (x != 0 && !Has(s.available, x)) || (y != 0 && !Has(s.available, y));
            var t := s.(active := if refused then s.active else Routed(s.active, x, y));
            OnRoute(s, x, y) == (t, if t.active == s.active then [] else Announce(t).1)
  {
    hide PlaybackOnly, CaptureOnly, Has;
  }

  lemma OnRouteExactly(s: Info, x: bv16, y: bv16)
    requires (x == 0 || IsOutput(x)) && (y == 0 || IsInput(y))
    ensures var (t, notices) := OnRoute(s, x, y);
            && t.available == s.available && t.session == s.session
            && UsedIn(t) == AfterRoute(UsedIn(s), s.available, x, y)
            && (UsedIn(t) == UsedIn(s) ==> t.active == s.active)
            && notices == if t.active == s.active then [] else [ActiveChanged(InputOf(t.active), OutputOf(t.active))]
  {
    hide OutputOf, InputOf, IsOutput, IsInput, Has, OnRoute, Routed;
    OnRouteRouted(s, x, y);
    RoutedParts(s.active, x, y);
    var t := OnRoute(s, x, y).0;
    AnnouncedParts(t);
    BothParts(t.active, s.active);
    hide Announce;
  }

  lemma AnnouncedParts(s: Info)
    ensures Announce(s).1 == [ActiveChanged(InputOf(s.active), OutputOf(s.active))]
  {
  }

  lemma BothParts(a: bv16, b: bv16)
    ensures a == b <==> OutputOf(a) == OutputOf(b) && InputOf(a) == InputOf(b)
  {
    BothHalves(a);
    BothHalves(b);
  }

  lemma RouteIsOnRoute(s: Info, route: bv16)
    ensures Step(s, RouteTo(route)) == OnRoute(s, OutputOf(route), InputOf(route))
  {
    hide OnRoute;
  }

  /** A route request whose devices are all there puts them in use, leaves alone what it does
      not name, and announces the devices in use if and only if one of them changed; any
      other request changes nothing and announces nothing. */
  lemma RouteExactly(s: Info, route: bv16)
    requires route in ROUTES
    ensures var (t, notices) := Step(s, RouteTo(route));
            var x, y := OutputOf(route), InputOf(route);
            && t.available == s.available && t.session == s.session
            && (if (x == 0 || Has(s.available, x)) && (y == 0 || Has(s.available, y))
                then OutputOf(t.active) == (if x != 0 then x else OutputOf(s.active))
                     && InputOf(t.active) == (if y != 0 then y else InputOf(s.active))
                else t == s)
            && notices == if UsedIn(t) == UsedIn(s) then []
                          else [ActiveChanged(InputOf(t.active), OutputOf(t.active))]
  {
    hide OutputOf, InputOf, IsOutput, IsInput, Has, OnRoute, Step;
    RouteOfTable(route);
    RouteIsOnRoute(s, route);
    OnRouteExactly(s, OutputOf(route), InputOf(route));
  }

  lemma CallParts(s: Info)
    requires Single(s)
    ensures UsedIn(OnCallStart(s)) == AfterCallStart(UsedIn(s))
    ensures UsedIn(OnCallEnd(s)) == AfterCallEnd(UsedIn(s), s.available)
  {
    SpeakerParts(s.active);
    PlaybackParts(s.active, OUT_RECEIVER);
    PlaybackParts(s.active, OUT_SCO);
    PlaybackParts(s.active, OUT_SPEAKER);
    PlaybackParts(s.active, OUT_A2DP);
    CaptureParts(PlaybackOnly(s.active, OUT_SCO), IN_SCO);
    CaptureParts(PlaybackOnly(s.active, OUT_SPEAKER), IN_MIC);
    CaptureParts(PlaybackOnly(s.active, OUT_A2DP), IN_WIRED);
    CaptureParts(PlaybackOnly(s.active, OUT_A2DP), IN_MIC);
    hide OutputOf, InputOf, PlaybackOnly, CaptureOnly, Has, OneOutput, OneInput;
  }

  lemma SpeakerParts(active: bv16)
    requires OneOutput(active)
    ensures forall x :: IsOutput(x) ==> (Has(active, x) <==> OutputOf(active) == x)
  {
    forall x | IsOutput(x) ensures Has(active, x) <==> OutputOf(active) == x { WithoutOutput(active, x); }
    hide Has, OutputOf, OneOutput;
  }

  lemma ReceiverAside(s: Info, start: bool)
    ensures var a := AfterCall(s.available, start); Has(a, IN_WIRED) <==> Has(s.available, IN_WIRED)
  {
    HasOther(s.available, IN_WIRED);
    hide Has, With, Without;
  }

  lemma TalkExactly(s: Info, session: Session, start: bool)
    requires Single(s)
    ensures UsedIn(Step(s, Talk(session, start)).0) == NextInUse(s, Talk(session, start))
  {
    var a := s.(available := AfterCall(s.available, start), session := if start then session else Media);
    SameInUse(s, a);
    ReceiverAside(s, start);
    hide Single, UsedIn, OnCallStart, OnCallEnd, AfterCallStart, Has, With, Without, IsCommunication, OutOf;
    CallParts(a);
  }

  lemma GrantedExactly(s: Info, route: bv16)
    requires route in ROUTES
    ensures UsedIn(Step(s, RouteTo(route)).0) == NextInUse(s, RouteTo(route))
  {
    RouteOfTable(route);
    RouteIsOnRoute(s, route);
    hide OutputOf, InputOf, IsOutput, IsInput, OnRoute, Step, UsedIn, AfterRoute, Has, OutOf, IsCommunication;
    OnRouteExactly(s, OutputOf(route), InputOf(route));
  }

  /** After every event the output and the input in use are those that one gets by thinking
      of them as one device each. */
  lemma InUseExactly(s: Info, e: DeviceEvent)
    requires Single(s) && Valid(e)
    ensures UsedIn(Step(s, e).0) == NextInUse(s, e)
  {
    hide Step, Single, NextInUse, UsedIn;
    match e {
      case Plug(_, _, _) => PlugExactly(s, e);
      case RouteTo(route) => GrantedExactly(s, route);
      case Talk(session, start) => TalkExactly(s, session, start);
    }
  }

  /** The devices in use after start-up. */
  lemma StartExactly(earjack: int, a2dp: bool, sco: bool)
    ensures UsedIn(Start(earjack, a2dp, sco)) ==
              InUse(if a2dp then OUT_A2DP else if earjack > 0 then OUT_WIRED else OUT_SPEAKER,
                    if earjack == EARJACK_WITH_MIC then IN_WIRED else IN_MIC)
  {
    StartHas(earjack, a2dp, sco);
    var s := Info(PluggedAtStart(earjack, a2dp, sco), 0, Media);
    NothingUsed();
    SelectParts(s);
    SelectParts(SelectPlayback(s));
    hide OutputOf, InputOf, Has, With, SelectPlayback, SelectCapture, PluggedAtStart;
  }

  lemma NothingUsed()
    ensures OutputOf(0) == 0 && InputOf(0) == 0
  {
  }

  lemma StartHas(earjack: int, a2dp: bool, sco: bool)
    ensures var m := PluggedAtStart(earjack, a2dp, sco);
            && (Has(m, OUT_A2DP) <==> a2dp) && !Has(m, OUT_DOCK) && (Has(m, OUT_WIRED) <==> earjack > 0)
            && (Has(m, IN_WIRED) <==> earjack == EARJACK_WITH_MIC)
  {
  }

  // -------------------------------------------------------- what is plugged in

  /** Whether a device is there after an event: it came or went, a headset with or without
      its microphone, or a call began or ended; or it was there before. */
  predicate ThereAfter(s: Info, e: DeviceEvent, x: bv16) {
    match e
    case Plug(device, on, earjack) =>
      if x == OutOf(device) || (device == Sco && x == IN_SCO) then on
      else if device == Wired && x == IN_WIRED && Has(s.available, OUT_WIRED) != on then on && earjack == EARJACK_WITH_MIC
      else Has(s.available, x)
    case RouteTo(_) => Has(s.available, x)
    case Talk(session, start) =>
      if x == OUT_RECEIVER && IsCommunication(session) then start else Has(s.available, x)
  }

  lemma PluggedInExactly(s: Info, e: DeviceEvent, x: bv16)
    requires e.Plug? && Plausible(s.available) && Atomic(x) && x != 0
    ensures Has(AfterPlug(s, e), x) <==>
              if x == OutOf(e.device) || (e.device == Sco && x == IN_SCO) then e.on
              else if e.device == Wired && x == IN_WIRED then e.on && (e.earjack == EARJACK_WITH_MIC || Has(s.available, x))
              else Has(s.available, x)
  {
  }

  lemma NothingNew(s: Info, e: DeviceEvent, x: bv16)
    requires e.Plug? && Plausible(s.available) && Has(s.available, OutOf(e.device)) == e.on
    ensures ThereAfter(s, e, x) <==> Has(s.available, x)
  {
    hide Has;
  }

  lemma CallThere(available: bv16, start: bool, x: bv16)
    requires Atomic(x) && x != 0
    ensures Has(AfterCall(available, start), x) <==> if x == OUT_RECEIVER then start else Has(available, x)
  {
    HasWith(available, OUT_RECEIVER, x);
    HasWithout(available, OUT_RECEIVER, x);
    AtomicHas(OUT_RECEIVER, x);
    hide Has, With, Without;
  }

  lemma RouteKeeps(s: Info, route: bv16)
    ensures Step(s, RouteTo(route)).0.available == s.available
  {
    hide Has, PlaybackOnly, CaptureOnly;
  }

  lemma OtherTalkKeeps(s: Info, session: Session, start: bool)
    requires !IsCommunication(session)
    ensures Step(s, Talk(session, start)).0.available == s.available
  {
  }

  /** After every event exactly these devices are there. */
  lemma AvailableExactly(s: Info, e: DeviceEvent, x: bv16)
    requires Plausible(s.available) && Atomic(x) && x != 0
    ensures Has(Step(s, e).0.available, x) <==> ThereAfter(s, e, x)
  {
    hide Has, Plausible, Step, Atomic, AfterPlug, AfterCall, OutOf, IsCommunication;
    match e {
      case Plug(device, on, _) =>
        PlugNoticeIsTheDifference(s, e);
        if Has(s.available, OutOf(device)) == on { NothingNew(s, e, x); } else { PlugThere(s, e, x); }
      case RouteTo(route) => RouteKeeps(s, route);
      case Talk(session, start) =>
        if IsCommunication(session) {
          CallAvailable(s, session, start);
          CallThere(s.available, start, x);
        } else {
          OtherTalkKeeps(s, session, start);
        }
    }
  }

  lemma PlugThere(s: Info, e: DeviceEvent, x: bv16)
    requires e.Plug? && Plausible(s.available) && Has(s.available, OutOf(e.device)) != e.on && Atomic(x) && x != 0
    ensures Has(AfterPlug(s, e), x) <==> ThereAfter(s, e, x)
  {
    PluggedInExactly(s, e, x);
    hide Has, AfterPlug;
  }

  /** And exactly these after start-up. */
  lemma StartAvailable(earjack: int, a2dp: bool, sco: bool, x: bv16)
    requires Atomic(x) && x != 0
    ensures Has(Start(earjack, a2dp, sco).available, x) <==>
              || x == OUT_SPEAKER || x == IN_MIC
              || (x == OUT_WIRED && earjack > 0) || (x == IN_WIRED && earjack == EARJACK_WITH_MIC)
              || (x == OUT_A2DP && a2dp) || ((x == OUT_SCO || x == IN_SCO) && sco)
  {
    hide SelectPlayback, SelectCapture;
  }
}
