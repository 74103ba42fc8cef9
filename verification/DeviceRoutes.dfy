/** Clients that keep a list of available routes by the change notices they get always
    hold what a full computation would give them. */
module DeviceRoutes {
  import opened AsmTypes
  import opened DeviceModel

  /** What holds of the available devices on every run: speaker and microphone are
      built in, and an input never is there without the output it comes with. */
  predicate Plausible(available: bv16) {
    && Has(available, OUT_SPEAKER) && Has(available, IN_MIC)
    && (Has(available, IN_WIRED) ==> Has(available, OUT_WIRED))
    && (Has(available, IN_SCO) <==> Has(available, OUT_SCO))
  }

  // ----------------------------------------------------------------- filters

  lemma {:induction false} FilterSame(p: bv16 -> bool, q: bv16 -> bool, routes: seq<bv16>)
    requires forall i :: 0 <= i < |routes| ==> p(routes[i]) == q(routes[i])
    ensures Filter(p, routes) == Filter(q, routes)
  {
    if routes != [] {
      FilterSame(p, q, routes[..|routes| - 1]);
    }
  }

  lemma {:induction false} FilterMembers(p: bv16 -> bool, routes: seq<bv16>)
    ensures forall r :: r in Filter(p, routes) <==> r in routes && p(r)
  {
    if routes != [] {
      var n := |routes| - 1;
      FilterMembers(p, routes[..n]);
      assert routes == routes[..n] + [routes[n]];
    }
  }

  /** The routes whose availability differs between two sets of devices. */
  function RouteDiff(a: bv16, b: bv16): seq<bv16> {
    Filter(r => RouteAvailable(a, r) != RouteAvailable(b, r), ROUTES)
  }

  // ------------------------------------------------------------- one change

  /** What is available after a device came or went. */
  function AfterPlug(s: Info, e: DeviceEvent): bv16
    requires e.Plug?
  {
    if e.on then With(With(s.available, OutOf(e.device)), InOf(s, e))
    else Without(Without(s.available, OutOf(e.device)), InOf(s, e))
  }

  lemma PlugPlausible(s: Info, e: DeviceEvent)
    requires e.Plug? && Plausible(s.available)
    ensures Plausible(AfterPlug(s, e))
  {
  }

  predicate TouchesExactly(s: Info, e: DeviceEvent, r: bv16)
    requires e.Plug?
  {
    var b := AfterPlug(s, e);
    TouchesRoute(b, InOf(s, e), OutOf(e.device), r) <==> RouteAvailable(s.available, r) != RouteAvailable(b, r)
  }

  /** One device, or none. */
  predicate Atomic(x: bv16) {
    || x == 0 || x == IN_MIC || x == IN_WIRED || x == IN_SCO || x == OUT_SPEAKER
    || x == OUT_RECEIVER || x == OUT_WIRED || x == OUT_SCO || x == OUT_A2DP || x == OUT_DOCK
  }

  lemma HasMeaning(a: bv16, x: bv16)
    ensures Has(a, x) <==> a & x != 0
  {
  }

  lemma MeetsEither(a: bv16, y: bv16, x: bv16)
    ensures (a | y) & x != 0 <==> a & x != 0 || y & x != 0
  {
  }

  lemma HasWith(a: bv16, y: bv16, x: bv16)
    ensures Has(With(a, y), x) <==> Has(a, x) || Has(y, x)
  {
    hide Has;
    MeetsEither(a, y, x);
    HasMeaning(a, x);
    HasMeaning(y, x);
    HasMeaning(a | y, x);
  }

  lemma HasWithout(a: bv16, y: bv16, x: bv16)
    requires Atomic(x)
    ensures Has(Without(a, y), x) <==> Has(a, x) && !Has(y, x)
  {
    if x == 0 {
    } else if x == IN_MIC {
    } else if x == IN_WIRED {
    } else if x == IN_SCO {
    } else if x == OUT_SPEAKER {
    } else if x == OUT_RECEIVER {
    } else if x == OUT_WIRED {
    } else if x == OUT_SCO {
    } else if x == OUT_A2DP {
    } else {
    }
  }

  lemma AtomicHas(x: bv16, y: bv16)
    requires Atomic(x) && Atomic(y)
    ensures Has(x, y) <==> x == y && x != 0
  {
  }

  lemma AtomicParts(r: bv16)
    requires r in ROUTES
    ensures Atomic(r & OUT_ANY) && Atomic(r & IN_ANY) && (r & OUT_ANY != 0 || r & IN_ANY != 0)
    ensures r & IN_ANY == 0 || r & IN_ANY == IN_MIC || r & IN_ANY == IN_WIRED || r & IN_ANY == IN_SCO
    ensures r & OUT_ANY != IN_WIRED && r & OUT_ANY != IN_SCO
    ensures r & OUT_ANY == OUT_RECEIVER ==> r == (IN_MIC | OUT_RECEIVER)
  {
  }

  /** A device comes or goes together with its input, or without one. */
  lemma InOfCases(s: Info, e: DeviceEvent)
    requires e.Plug?
    ensures InOf(s, e) == 0 || InOf(s, e) == IN_WIRED || InOf(s, e) == IN_SCO
    ensures e.device == Sco ==> InOf(s, e) == IN_SCO
    ensures e.device == Wired ==> InOf(s, e) == 0 || (InOf(s, e) == IN_WIRED && (!e.on ==> Has(s.available, IN_WIRED)))
    ensures e.device == A2dp || e.device == Dock ==> InOf(s, e) == 0
  {
    WiredPart(s.available);
    hide Has;
  }

  lemma WiredPart(a: bv16)
    ensures a & IN_WIRED == 0 || (a & IN_WIRED == IN_WIRED && Has(a, IN_WIRED))
  {
  }

  /** Both parts of the device change hands. */
  lemma InputFollows(s: Info, e: DeviceEvent)
    requires e.Plug? && Plausible(s.available) && Has(s.available, OutOf(e.device)) != e.on
    ensures InOf(s, e) != 0 ==> Has(s.available, InOf(s, e)) != e.on
  {
    InOfCases(s, e);
    hide Has, InOf;
  }

  lemma HasAdded(a: bv16, p: bv16, c: bv16, x: bv16)
    requires Atomic(p) && Atomic(c) && Atomic(x) && x != 0
    ensures Has(With(With(a, p), c), x) <==> Has(a, x) || x == p || x == c
  {
    hide Has, With, Atomic;
    HasWith(a, p, x);
    HasWith(With(a, p), c, x);
    AtomicHas(p, x);
    AtomicHas(c, x);
  }

  lemma HasRemoved(a: bv16, p: bv16, c: bv16, x: bv16)
    requires Atomic(p) && Atomic(c) && Atomic(x) && x != 0
    ensures Has(Without(Without(a, p), c), x) <==> Has(a, x) && x != p && x != c
  {
    hide Has, Without, Atomic;
    HasWithout(a, p, x);
    HasWithout(Without(a, p), c, x);
    AtomicHas(p, x);
    AtomicHas(c, x);
  }

  lemma PlugAtomic(s: Info, e: DeviceEvent)
    requires e.Plug?
    ensures Atomic(OutOf(e.device)) && Atomic(InOf(s, e)) && OutOf(e.device) != 0
  {
    InOfCases(s, e);
    hide InOf;
  }

  /** What is there afterwards, device by device. */
  lemma HasAfterPlug(s: Info, e: DeviceEvent, x: bv16)
    requires e.Plug? && Atomic(x) && x != 0
    ensures var p, c := OutOf(e.device), InOf(s, e);
            Has(AfterPlug(s, e), x) <==>
              if e.on then Has(s.available, x) || x == p || x == c else Has(s.available, x) && x != p && x != c
  {
    hide Has, With, Without, Atomic, InOf, OutOf;
    PlugAtomic(s, e);
    HasAdded(s.available, OutOf(e.device), InOf(s, e), x);
    HasRemoved(s.available, OutOf(e.device), InOf(s, e), x);
  }

  /** The two parts of a route that a device `p` with input `c` may touch. */
  lemma PartsTouch(a: bv16, b: bv16, p: bv16, c: bv16, on: bool, r: bv16)
    requires p != 0 && Has(a, p) != on && (c != 0 ==> Has(a, c) != on)
    requires r & OUT_ANY != 0 || r & IN_ANY != 0
    requires p != r & IN_ANY && (c != 0 ==> c != r & OUT_ANY)
    requires forall x :: (x == r & OUT_ANY || x == r & IN_ANY) && x != 0 ==>
               (Has(b, x) <==> if on then Has(a, x) || x == p || x == c else Has(a, x) && x != p && x != c)
    ensures TouchesRoute(b, c, p, r) <==> RouteAvailable(a, r) != RouteAvailable(b, r)
  {
    hide Has;
  }

  lemma OutIsNoInput(device: Device, r: bv16)
    requires r in ROUTES
    ensures OutOf(device) != r & IN_ANY
  {
    AtomicParts(r);
  }

  /** A part of a route after a device came or went. */
  lemma PartAfterPlug(s: Info, e: DeviceEvent, r: bv16, x: bv16)
    requires e.Plug? && r in ROUTES && (x == r & OUT_ANY || x == r & IN_ANY) && x != 0
    ensures var p, c := OutOf(e.device), InOf(s, e);
            Has(AfterPlug(s, e), x) <==>
              if e.on then Has(s.available, x) || x == p || x == c else Has(s.available, x) && x != p && x != c
  {
    hide Has, Atomic, InOf, OutOf, AfterPlug;
    AtomicParts(r);
    HasAfterPlug(s, e, x);
  }

  /** The input of a device is no output of a route. */
  lemma InIsNoOut(s: Info, e: DeviceEvent, r: bv16)
    requires e.Plug? && r in ROUTES
    ensures InOf(s, e) != 0 ==> InOf(s, e) != r & OUT_ANY
    ensures r & OUT_ANY != 0 || r & IN_ANY != 0
  {
    hide InOf, Atomic;
    AtomicParts(r);
    InOfCases(s, e);
  }

  /** The incremental test agrees with comparing the route before and after. */
  lemma PlugTouches(s: Info, e: DeviceEvent, r: bv16)
    requires e.Plug? && Plausible(s.available) && Has(s.available, OutOf(e.device)) != e.on && r in ROUTES
    ensures TouchesExactly(s, e, r)
  {
    hide Has, Atomic, InOf, OutOf, AfterPlug, Plausible, TouchesRoute, RouteAvailable;
    InputFollows(s, e);
    PlugAtomic(s, e);
    OutIsNoInput(e.device, r);
    InIsNoOut(s, e, r);
    forall x | (x == r & OUT_ANY || x == r & IN_ANY) && x != 0
      ensures Has(AfterPlug(s, e), x) <==>
                if e.on then Has(s.available, x) || x == OutOf(e.device) || x == InOf(s, e)
                else Has(s.available, x) && x != OutOf(e.device) && x != InOf(s, e)
    {
      PartAfterPlug(s, e, r, x);
    }
    PartsTouch(s.available, AfterPlug(s, e), OutOf(e.device), InOf(s, e), e.on, r);
  }

  /** Plugging in only adds routes, unplugging only removes some. */
  lemma PlugOneWay(s: Info, e: DeviceEvent, r: bv16)
    requires e.Plug? && r in ROUTES && RouteAvailable(s.available, r) != RouteAvailable(AfterPlug(s, e), r)
    ensures RouteAvailable(s.available, r) != e.on
  {
    var o, i := r & OUT_ANY, r & IN_ANY;
    AtomicParts(r);
    if o != 0 { HasAfterPlug(s, e, o); }
    if i != 0 { HasAfterPlug(s, e, i); }
    hide Has, Atomic, InOf, OutOf, AfterPlug;
  }

  /** So what it finds, over the table, is what differs. */
  lemma TouchedIsDifference(s: Info, e: DeviceEvent)
    requires e.Plug? && Plausible(s.available) && Has(s.available, OutOf(e.device)) != e.on
    ensures TouchedRoutes(AfterPlug(s, e), InOf(s, e), OutOf(e.device)) == RouteDiff(s.available, AfterPlug(s, e))
  {
    hide TouchesRoute, RouteAvailable, Filter, InOf, OutOf, Has, Plausible, AfterPlug;
    var b := AfterPlug(s, e);
    forall i | 0 <= i < |ROUTES| ensures TouchesExactly(s, e, ROUTES[i]) { PlugTouches(s, e, ROUTES[i]); }
    FilterSame(r => TouchesRoute(b, InOf(s, e), OutOf(e.device), r),
               r => RouteAvailable(s.available, r) != RouteAvailable(b, r), ROUTES);
  }

  /** The notice of a plugged device lists exactly the routes that differ, in the
      order of the route table; nothing is sent when nothing changed. */
  lemma PlugNoticeIsTheDifference(s: Info, e: DeviceEvent)
    requires e.Plug? && Plausible(s.available)
    ensures var (t, notices) := Step(s, e);
            if Has(s.available, OutOf(e.device)) == e.on then t == s && notices == []
            else t.available == AfterPlug(s, e) && notices != []
                 && notices[0] == RoutesChanged(RouteDiff(s.available, t.available), e.on)
                 && (notices[1..] == [] || notices[1..] == Announce(t).1)
  {
    hide Follow, Has, Plausible, RouteDiff, TouchedRoutes, InOf, OutOf, With, Without, Announce;
    FollowKeeps(s.(available := AfterPlug(s, e)), e);
    if Has(s.available, OutOf(e.device)) != e.on { TouchedIsDifference(s, e); }
  }

  /** Following a device changes only what is in use, and announces no routes. */
  lemma FollowKeeps(s: Info, e: DeviceEvent)
    requires e.Plug?
    ensures var (t, notices) := Follow(s, e);
            t.available == s.available && (notices == [] || notices == Announce(t).1)
  {
    hide Has, Without, PlaybackOnly, CaptureOnly, SelectPlayback, SelectCapture;
  }

  // -------------------------------------------------------------- the replay

  function SetOf(routes: seq<bv16>): set<bv16> {
    set r | r in routes
  }

  /** What a client makes of a notice: the routes it believes to be available. */
  function Apply(view: set<bv16>, n: Notice): set<bv16> {
    match n
    case RoutesChanged(routes, available) => if available then view + SetOf(routes) else view - SetOf(routes)
    case ActiveChanged(_, _) => view
  }

  function Replay(view: set<bv16>, notices: seq<Notice>): set<bv16> {
    if notices == [] then view
    else
      var n := |notices| - 1;
      Apply(Replay(view, notices[..n]), notices[n])
  }

  lemma {:induction false} ReplayAppend(view: set<bv16>, a: seq<Notice>, b: seq<Notice>)
    ensures Replay(view, a + b) == Replay(Replay(view, a), b)
  {
    if b == [] {
      assert a + b == a;
    } else {
      var n := |b| - 1;
      ReplayAppend(view, a, b[..n]);
      assert (a + b)[..|a| + n] == a + b[..n];
    }
  }

  /** Of all routes, only the one through the receiver notices a call. */
  lemma ReceiverTouches(available: bv16, r: bv16)
    requires Has(available, IN_MIC) && r in ROUTES
    ensures TouchesRoute(available, 0, OUT_RECEIVER, r) <==> r == (IN_MIC | OUT_RECEIVER)
  {
  }

  lemma HasOther(a: bv16, x: bv16)
    requires Atomic(x) && x != OUT_RECEIVER
    ensures Has(With(a, OUT_RECEIVER), x) == Has(a, x)
    ensures Has(Without(a, OUT_RECEIVER), x) == Has(a, x)
  {
    HasWith(a, OUT_RECEIVER, x);
    HasWithout(a, OUT_RECEIVER, x);
    AtomicHas(OUT_RECEIVER, x);
    hide Has, With, Without;
  }

  lemma ReceiverMatters(a: bv16, start: bool, r: bv16)
    requires r in ROUTES && r != (IN_MIC | OUT_RECEIVER)
    ensures RouteAvailable(AfterCall(a, start), r) == RouteAvailable(a, r)
  {
    AtomicParts(r);
    HasOther(a, r & OUT_ANY);
    HasOther(a, r & IN_ANY);
    hide Has, With, Without, Atomic;
  }

  lemma {:induction false} FilterNone(p: bv16 -> bool, routes: seq<bv16>)
    requires forall i :: 0 <= i < |routes| ==> !p(routes[i])
    ensures Filter(p, routes) == []
  {
    if routes != [] { FilterNone(p, routes[..|routes| - 1]); }
  }

  /** A call announces the receiver's route even when that changes nothing: the notice
      is the difference exactly when the receiver was not in that state already. */
  lemma CallNoticeIsTheDifference(s: Info, session: Session, start: bool)
    requires IsCommunication(session) && Plausible(s.available)
    ensures var (t, notices) := Step(s, Talk(session, start));
            && |notices| == 2 && notices[0].RoutesChanged? && notices[0].available == start
            && notices[1..] == Announce(t).1
            && (notices[0].routes == RouteDiff(s.available, t.available) <==> Has(s.available, OUT_RECEIVER) != start)
  {
    var a := s.available;
    var b := AfterCall(a, start);
    var t := Step(s, Talk(session, start)).0;
    CallAvailable(s, session, start);
    forall i | 0 <= i < |ROUTES|
      ensures TouchesRoute(b, 0, OUT_RECEIVER, ROUTES[i]) <==> i == 5
      ensures RouteAvailable(a, ROUTES[i]) != RouteAvailable(b, ROUTES[i]) <==> i == 5 && Has(a, OUT_RECEIVER) != start
    {
      CallDiffers(a, start, i);
    }
    hide TouchesRoute, RouteAvailable, OnCallStart, OnCallEnd, Has, Plausible, Without, With, Filter;
    CallDiff(a, b, Has(a, OUT_RECEIVER) != start);
  }

  /** Whether the receiver's notice is the difference of two sets of devices. */
  lemma CallDiff(a: bv16, b: bv16, changed: bool)
    requires forall i :: 0 <= i < |ROUTES| ==>
               && (TouchesRoute(b, 0, OUT_RECEIVER, ROUTES[i]) <==> i == 5)
               && (RouteAvailable(a, ROUTES[i]) != RouteAvailable(b, ROUTES[i]) <==> i == 5 && changed)
    ensures TouchedRoutes(b, 0, OUT_RECEIVER) == RouteDiff(a, b) <==> changed
  {
    hide TouchesRoute, RouteAvailable, Filter;
    if changed {
      FilterSame(r => TouchesRoute(b, 0, OUT_RECEIVER, r), r => RouteAvailable(a, r) != RouteAvailable(b, r), ROUTES);
    } else {
      FilterNone(r => RouteAvailable(a, r) != RouteAvailable(b, r), ROUTES);
      FilterMembers(r => TouchesRoute(b, 0, OUT_RECEIVER, r), ROUTES);
      assert ROUTES[5] in ROUTES;
      assert ROUTES[5] in TouchedRoutes(b, 0, OUT_RECEIVER);
    }
  }

  /** Only the sixth route of the table goes through the receiver. */
  lemma CallDiffers(a: bv16, start: bool, i: nat)
    requires Plausible(a) && i < |ROUTES|
    ensures var b := AfterCall(a, start);
            && (TouchesRoute(b, 0, OUT_RECEIVER, ROUTES[i]) <==> i == 5)
            && (RouteAvailable(a, ROUTES[i]) != RouteAvailable(b, ROUTES[i]) <==> i == 5 && Has(a, OUT_RECEIVER) != start)
  {
    CallAvailable(Info(a, 0, Media), VoiceCall, start);
    ReceiverTouches(AfterCall(a, start), ROUTES[i]);
    hide TouchesRoute, AfterCall, Without, With;
    if i != 5 { ReceiverMatters(a, start, ROUTES[i]); }
  }

  function AfterCall(available: bv16, start: bool): bv16 {
    if start then With(available, OUT_RECEIVER) else Without(available, OUT_RECEIVER)
  }

  lemma CallAvailable(s: Info, session: Session, start: bool)
    requires IsCommunication(session)
    ensures Step(s, Talk(session, start)).0.available == AfterCall(s.available, start)
    ensures Plausible(s.available) ==> Plausible(AfterCall(s.available, start)) && Has(AfterCall(s.available, start), IN_MIC)
    ensures Has(AfterCall(s.available, start), OUT_RECEIVER) == start
  {
    hide PlaybackOnly, CaptureOnly;
  }

  /** A notice whose routes end up `on`, and that leaves out no route that changed,
      brings a view up to date. */
  lemma ApplyBrings(a: bv16, b: bv16, p: bv16 -> bool, on: bool)
    requires forall i :: 0 <= i < |ROUTES| ==>
               if p(ROUTES[i]) then RouteAvailable(b, ROUTES[i]) == on
               else RouteAvailable(a, ROUTES[i]) == RouteAvailable(b, ROUTES[i])
    ensures Apply(SetOf(AvailableRoutes(a)), RoutesChanged(Filter(p, ROUTES), on)) == SetOf(AvailableRoutes(b))
  {
    var routes := ROUTES;
    FilterMembers(r => RouteAvailable(a, r), routes);
    FilterMembers(r => RouteAvailable(b, r), routes);
    FilterMembers(p, routes);
    hide Filter, RouteAvailable;
    var view := Apply(SetOf(AvailableRoutes(a)), RoutesChanged(Filter(p, routes), on));
    forall r ensures r in view <==> r in SetOf(AvailableRoutes(b)) {
      if r in routes {
        var i :| 0 <= i < |routes| && routes[i] == r;
      }
    }
  }

  /** One event keeps a client's view up to date, and the devices plausible. */
  lemma ReplayStep(s: Info, e: DeviceEvent)
    requires Plausible(s.available)
    ensures var (t, notices) := Step(s, e);
            Plausible(t.available)
            && Replay(SetOf(AvailableRoutes(s.available)), notices) == SetOf(AvailableRoutes(t.available))
  {
    hide AvailableRoutes, Plausible, Step, SetOf;
    match e {
      case Plug(_, _, _) => ReplayPlug(s, e);
      case RouteTo(_) => QuietEvent(s, e, SetOf(AvailableRoutes(s.available)));
      case Talk(session, start) =>
        if IsCommunication(session) { ReplayCall(s, session, start); }
        else { QuietEvent(s, e, SetOf(AvailableRoutes(s.available))); }
    }
  }

  /** Routing and other sessions leave the devices, and every client's view, alone. */
  lemma QuietEvent(s: Info, e: DeviceEvent, view: set<bv16>)
    requires e.RouteTo? || (e.Talk? && !IsCommunication(e.session))
    ensures var (t, notices) := Step(s, e); t.available == s.available && Replay(view, notices) == view
  {
    hide Has, PlaybackOnly, CaptureOnly, IsCommunication;
    var notices := Step(s, e).1;
    assert notices == [] || (|notices| == 1 && notices[0].ActiveChanged? && notices[..0] == []);
  }

  lemma ReplayTwo(view: set<bv16>, notices: seq<Notice>, t: Info)
    requires notices != [] && (notices[1..] == [] || notices[1..] == Announce(t).1)
    ensures Replay(view, notices) == Apply(view, notices[0])
  {
    if notices[1..] == [] {
      assert notices == [notices[0]] && notices[..0] == [];
    } else {
      assert notices == [notices[0]] + Announce(t).1;
      assert notices[..1] == [notices[0]] && notices[..1][..0] == [];
    }
  }

  lemma ReplayPlug(s: Info, e: DeviceEvent)
    requires Plausible(s.available) && e.Plug?
    ensures var (t, notices) := Step(s, e);
            Plausible(t.available)
            && Replay(SetOf(AvailableRoutes(s.available)), notices) == SetOf(AvailableRoutes(t.available))
  {
    PlugNoticeIsTheDifference(s, e);
    PlugPlausible(s, e);
    var (t, notices) := Step(s, e);
    if Has(s.available, OutOf(e.device)) != e.on {
      var b := AfterPlug(s, e);
      forall i | 0 <= i < |ROUTES|
        ensures RouteAvailable(s.available, ROUTES[i]) != RouteAvailable(b, ROUTES[i]) ==>
                  RouteAvailable(b, ROUTES[i]) == e.on
      {
        if RouteAvailable(s.available, ROUTES[i]) != RouteAvailable(b, ROUTES[i]) { PlugOneWay(s, e, ROUTES[i]); }
      }
      hide RouteAvailable, Filter, AvailableRoutes, Plausible, Step, AfterPlug, Announce;
      ApplyBrings(s.available, b, r => RouteAvailable(s.available, r) != RouteAvailable(b, r), e.on);
      ReplayTwo(SetOf(AvailableRoutes(s.available)), notices, t);
    }
  }

  lemma ReplayCall(s: Info, session: Session, start: bool)
    requires Plausible(s.available) && IsCommunication(session)
    ensures var (t, notices) := Step(s, Talk(session, start));
            Plausible(t.available)
            && Replay(SetOf(AvailableRoutes(s.available)), notices) == SetOf(AvailableRoutes(t.available))
  {
    CallNoticeIsTheDifference(s, session, start);
    CallAvailable(s, session, start);
    var a, b := s.available, AfterCall(s.available, start);
    var (t, notices) := Step(s, Talk(session, start));
    forall i | 0 <= i < |ROUTES|
      ensures if TouchesRoute(b, 0, OUT_RECEIVER, ROUTES[i]) then RouteAvailable(b, ROUTES[i]) == start
              else RouteAvailable(a, ROUTES[i]) == RouteAvailable(b, ROUTES[i])
    {
      CallTouches(a, start, ROUTES[i]);
    }
    assert notices[0] == RoutesChanged(TouchedRoutes(b, 0, OUT_RECEIVER), start);
    hide RouteAvailable, TouchesRoute, Filter, AvailableRoutes, Plausible, Step, Announce;
    ApplyBrings(a, b, r => TouchesRoute(b, 0, OUT_RECEIVER, r), start);
    ReplayTwo(SetOf(AvailableRoutes(a)), notices, t);
  }

  lemma CallTouches(a: bv16, start: bool, r: bv16)
    requires Plausible(a) && r in ROUTES
    ensures var b := AfterCall(a, start);
            if TouchesRoute(b, 0, OUT_RECEIVER, r) then RouteAvailable(b, r) == start
            else RouteAvailable(a, r) == RouteAvailable(b, r)
  {
    var b := AfterCall(a, start);
    CallAvailable(Info(a, 0, Media), VoiceCall, start);
    ReceiverTouches(b, r);
    if r != (IN_MIC | OUT_RECEIVER) { ReceiverMatters(a, start, r); }
  }

  lemma StartPlausible(earjack: int, a2dp: bool, sco: bool)
    ensures Plausible(Start(earjack, a2dp, sco).available)
  {
    hide SelectPlayback, SelectCapture;
  }

  lemma {:induction false} RunPlausible(s: Info, events: seq<DeviceEvent>)
    requires Plausible(s.available)
    ensures Plausible(Run(s, events).0.available)
  {
    hide Step, Plausible;
    if events != [] {
      var k := |events| - 1;
      RunPlausible(s, events[..k]);
      ReplayStep(Run(s, events[..k]).0, events[k]);
    }
  }

  /** A client that asks for the whole list once and then applies every notice holds,
      after any events, exactly what asking again would give it. */
  lemma {:induction false} ReplayEqualsRecompute(s: Info, events: seq<DeviceEvent>)
    requires Plausible(s.available)
    ensures var (t, notices) := Run(s, events);
            Replay(SetOf(AvailableRoutes(s.available)), notices) == SetOf(AvailableRoutes(t.available))
  {
    hide Step, Plausible, AvailableRoutes;
    if events != [] {
      var k := |events| - 1;
      var (s1, before) := Run(s, events[..k]);
      RunPlausible(s, events[..k]);
      ReplayEqualsRecompute(s, events[..k]);
      ReplayStep(s1, events[k]);
      ReplayAppend(SetOf(AvailableRoutes(s.available)), before, Step(s1, events[k]).1);
    }
  }

  /** The same on every run of the server, for a client that joins at any time. */
  lemma EveryClientIsCurrent(earjack: int, a2dp: bool, sco: bool, past: seq<DeviceEvent>, events: seq<DeviceEvent>)
    ensures var joined := Run(Start(earjack, a2dp, sco), past).0;
            var (now, notices) := Run(joined, events);
            Replay(SetOf(AvailableRoutes(joined.available)), notices) == SetOf(AvailableRoutes(now.available))
  {
    StartPlausible(earjack, a2dp, sco);
    hide Plausible, Start, Run, AvailableRoutes, Replay;
    RunPlausible(Start(earjack, a2dp, sco), past);
    ReplayEqualsRecompute(Run(Start(earjack, a2dp, sco), past).0, events);
  }
}
