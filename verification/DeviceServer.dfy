/** The session manager itself: two masks and a session, changed in place by macros,
    and the loops over the route table. */
module DeviceServer {
  import opened AsmTypes
  import opened DeviceModel

  /** Whether a route is one of the table. */
  method IsRouteValid(route: bv16) returns (valid: bool)
    ensures valid <==> route in ROUTES
  {
    for i := 0 to |ROUTES|
      invariant forall j :: 0 <= j < i ==> ROUTES[j] != route
    {
      if ROUTES[i] == route { return true; }
    }
    return false;
  }

  class SessionManager {
    var available: bv16
    var active: bv16
    var session: Session

    /** Everything sent to clients so far. */
    var sent: seq<Notice>

    function Value(): Info
      reads this
    {
      Info(available, active, session)
    }

    constructor (earjack: int, a2dp: bool, sco: bool)
      ensures Value() == Start(earjack, a2dp, sco) && sent == []
    {
      available, active, session, sent := 0, 0, Media, [];
      new;
      hide With, SelectPlayback, SelectCapture;
      available := With(available, OUT_SPEAKER);
      available := With(available, IN_MIC);
      if earjack > 0 {
        available := With(available, OUT_WIRED);
        if earjack == EARJACK_WITH_MIC { available := With(available, IN_WIRED); }
      }
      if a2dp { available := With(available, OUT_A2DP); }
      if sco {
        available := With(available, OUT_SCO);
        available := With(available, IN_SCO);
      }
      SelectPlaybackDevice();
      SelectCaptureDevice();
    }

    // ----------------------------------------------------------- route lists

    method IsDeviceAvailable(playback: bv16, capture: bv16) returns (there: bool)
      ensures there <==> DevicesAvailable(available, playback, capture)
    {
      hide Has;
      if playback == 0 {
        there := Has(available, capture);
      } else if capture == 0 {
        there := Has(available, playback);
      } else {
        there := Has(available, playback) && Has(available, capture);
      }
    }

    method IsRouteAvailable(route: bv16) returns (there: bool)
      ensures there <==> RouteAvailable(available, route)
    {
      hide DevicesAvailable;
      there := IsDeviceAvailable(route & OUT_ANY, route & IN_ANY);
    }

    /** All routes one can take now. */
    method ForeachAvailableRoute() returns (list: seq<bv16>)
      ensures list == AvailableRoutes(available)
    {
      hide RouteAvailable;
      list := [];
      ghost var mask := available;
      for i := 0 to |ROUTES|
        invariant list == Filter(r => RouteAvailable(mask, r), ROUTES[..i])
      {
        assert ROUTES[..i + 1][..i] == ROUTES[..i];
        var there := IsRouteAvailable(ROUTES[i]);
        if there { list := list + [ROUTES[i]]; }
      }
      assert ROUTES[..|ROUTES|] == ROUTES;
    }

    /** The routes that a change of these devices touches, from the masks as they now are. */
    method ChangedRoutes(capture: bv16, playback: bv16) returns (list: seq<bv16>)
      ensures list == TouchedRoutes(available, capture, playback)
    {
      hide TouchesRoute;
      list := [];
      ghost var mask := available;
      for i := 0 to |ROUTES|
        invariant list == Filter(r => TouchesRoute(mask, capture, playback, r), ROUTES[..i])
      {
        assert ROUTES[..i + 1][..i] == ROUTES[..i];
        var changed := IsChanged(capture, playback, ROUTES[i]);
        if changed { list := list + [ROUTES[i]]; }
      }
      assert ROUTES[..|ROUTES|] == ROUTES;
    }

    method IsChanged(capture: bv16, playback: bv16, route: bv16) returns (changed: bool)
      ensures changed <==> TouchesRoute(available, capture, playback, route)
    {
      hide DevicesAvailable;
      var routeIn, routeOut := route & IN_ANY, route & OUT_ANY;
      changed := false;
      if capture != 0 && capture == routeIn {
        if playback != 0 && playback == routeOut {
          changed := true;
        } else if routeOut == 0 {
          changed := true;
        } else {
          changed := IsDeviceAvailable(routeOut, 0);
        }
      }
      if !changed && playback != 0 && playback == routeOut {
        if routeIn == 0 {
          changed := true;
        } else {
          changed := IsDeviceAvailable(0, routeIn);
        }
      }
    }

    method NotifyRoutes(capture: bv16, playback: bv16, on: bool)
      modifies this`sent
      ensures sent == old(sent) + [RoutesChanged(TouchedRoutes(available, capture, playback), on)]
    {
      hide TouchedRoutes;
      var routes := ChangedRoutes(capture, playback);
      sent := sent + [RoutesChanged(routes, on)];
    }

    method NotifyActive()
      modifies this`sent
      ensures sent == old(sent) + Announce(Value()).1
    {
      sent := sent + [ActiveChanged(active & IN_ANY, active & OUT_ANY)];
    }

    // -------------------------------------------------------- choosing devices

    method SelectPlaybackDevice()
      modifies this`active
      ensures Value() == SelectPlayback(old(Value()))
    {
      hide Has, With;
      if Has(active, OUT_ANY) { return; }
      if Has(available, OUT_A2DP) {
        active := With(active, OUT_A2DP);
      } else if Has(available, OUT_DOCK) {
        active := With(active, OUT_DOCK);
      } else if Has(available, OUT_WIRED) {
        active := With(active, OUT_WIRED);
      } else {
        active := With(active, OUT_SPEAKER);
      }
    }

    method SelectCaptureDevice()
      modifies this`active
      ensures Value() == SelectCapture(old(Value()))
    {
      hide Has, With;
      if Has(active, IN_ANY) { return; }
      if Has(available, IN_SCO) && (session == VoiceCall || session == Voip) {
        active := With(active, IN_SCO);
      } else if Has(available, IN_WIRED) {
        active := With(active, IN_WIRED);
      } else {
        active := With(active, IN_MIC);
      }
    }

    // ---------------------------------------------------- devices come and go

    method HandleHeadsetOn(earjack: int)
      modifies this`active, this`sent
      ensures var (t, notices) := HeadsetOn(old(Value()), earjack); Value() == t && sent == old(sent) + notices
    {
      hide PlaybackOnly, CaptureOnly;
      if IsCommunication(session) { return; }
      active := PlaybackOnly(active, OUT_WIRED);
      if earjack == EARJACK_WITH_MIC { active := CaptureOnly(active, IN_WIRED); }
      NotifyActive();
    }

    method HandleHeadsetOff()
      modifies this`active, this`sent
      ensures var (t, notices) := HeadsetOff(old(Value())); Value() == t && sent == old(sent) + notices
    {
      hide Has, Without, SelectPlayback, SelectCapture;
      if !Has(active, OUT_WIRED) { return; }
      active := Without(active, OUT_WIRED);
      active := Without(active, IN_WIRED);
      if IsCommunication(session) { return; }
      SelectPlaybackDevice();
      SelectCaptureDevice();
      NotifyActive();
    }

    /** A2DP and dock alike. */
    method HandleSinkOn(device: bv16)
      modifies this`active, this`sent
      ensures var (t, notices) := SinkOn(old(Value()), device); Value() == t && sent == old(sent) + notices
    {
      hide PlaybackOnly;
      if IsCommunication(session) { return; }
      active := PlaybackOnly(active, device);
      NotifyActive();
    }

    method HandleSinkOff(device: bv16)
      modifies this`active, this`sent
      ensures var (t, notices) := SinkOff(old(Value()), device); Value() == t && sent == old(sent) + notices
    {
      hide Has, Without, SelectPlayback;
      if !Has(active, device) { return; }
      active := Without(active, device);
      SelectPlaybackDevice();
      NotifyActive();
    }

    method HandleScoOff()
      modifies this`active, this`sent
      ensures var (t, notices) := ScoOff(old(Value())); Value() == t && sent == old(sent) + notices
    {
      hide Has, Without, SelectPlayback, SelectCapture;
      if !Has(active, OUT_SCO) && !Has(active, IN_SCO) { return; }
      active := Without(active, OUT_SCO);
      active := Without(active, IN_SCO);
      SelectPlaybackDevice();
      SelectCaptureDevice();
      NotifyActive();
    }

    method SetDeviceAvailable(device: Device, on: bool, earjack: int)
      modifies this
      ensures var (t, notices) := Step(old(Value()), Plug(device, on, earjack)); Value() == t && sent == old(sent) + notices
    {
      hide OnPlug;
      match device {
        case Wired => SetWiredAvailable(on, earjack);
        case A2dp => SetSinkAvailable(A2dp, on, earjack);
        case Dock => SetSinkAvailable(Dock, on, earjack);
        case Sco => SetScoAvailable(on, earjack);
      }
    }

    method SetWiredAvailable(on: bool, earjack: int)
      modifies this
      ensures var (t, notices) := OnPlug(old(Value()), Plug(Wired, on, earjack)); Value() == t && sent == old(sent) + notices
    {
      hide Has, With, Without, HeadsetOn, HeadsetOff, TouchedRoutes;
      PlainMasks(With(available, OUT_WIRED));
      if on {
        if !Has(available, OUT_WIRED) {
          available := With(available, OUT_WIRED);
          if earjack == EARJACK_WITH_MIC {
            available := With(available, IN_WIRED);
            NotifyRoutes(IN_WIRED, OUT_WIRED, true);
          } else {
            NotifyRoutes(0, OUT_WIRED, true);
          }
          HandleHeadsetOn(earjack);
        }
      } else if Has(available, OUT_WIRED) {
        WiredCapture(available);
        available := Without(available, OUT_WIRED);
        PlainMasks(available);
        if Has(available, IN_WIRED) {
          available := Without(available, IN_WIRED);
          NotifyRoutes(IN_WIRED, OUT_WIRED, false);
        } else {
          NotifyRoutes(0, OUT_WIRED, false);
        }
        HandleHeadsetOff();
      }
    }

    static lemma WiredCapture(available: bv16)
      ensures available & IN_WIRED == if Has(Without(available, OUT_WIRED), IN_WIRED) then IN_WIRED else 0
    {
    }

    static lemma PlainMasks(mask: bv16)
      ensures With(mask, 0) == mask && Without(mask, 0) == mask
    {
    }

    method SetSinkAvailable(device: Device, on: bool, earjack: int)
      requires device == A2dp || device == Dock
      modifies this
      ensures var (t, notices) := OnPlug(old(Value()), Plug(device, on, earjack)); Value() == t && sent == old(sent) + notices
    {
      hide Has, With, Without, SinkOn, SinkOff, TouchedRoutes;
      var x := OutOf(device);
      PlainMasks(With(available, x));
      PlainMasks(Without(available, x));
      if on {
        if !Has(available, x) {
          available := With(available, x);
          NotifyRoutes(0, x, true);
          HandleSinkOn(x);
        }
      } else if Has(available, x) {
        available := Without(available, x);
        NotifyRoutes(0, x, false);
        HandleSinkOff(x);
      }
    }

    method SetScoAvailable(on: bool, earjack: int)
      modifies this
      ensures var (t, notices) := OnPlug(old(Value()), Plug(Sco, on, earjack)); Value() == t && sent == old(sent) + notices
    {
      hide Has, With, Without, ScoOff, TouchedRoutes;
      if on {
        if !Has(available, OUT_SCO) {
          available := With(available, OUT_SCO);
          available := With(available, IN_SCO);
          NotifyRoutes(IN_SCO, OUT_SCO, true);
        }
      } else if Has(available, OUT_SCO) {
        available := Without(available, OUT_SCO);
        available := Without(available, IN_SCO);
        NotifyRoutes(IN_SCO, OUT_SCO, false);
        HandleScoOff();
      }
    }

    // ----------------------------------------------------- routes and sessions

    /** Refuses devices that are not there; otherwise uses them, and tells if that
        changed anything. */
    method SetDeviceActive(playback: bv16, capture: bv16) returns (ok: bool)
      modifies this`active, this`sent
      ensures var (t, notices) := OnRoute(old(Value()), playback, capture); Value() == t && sent == old(sent) + notices
      ensures ok <==> (playback != 0 ==> Has(available, playback)) && (capture != 0 ==> Has(available, capture))
    {
      hide Has, PlaybackOnly, CaptureOnly;
      var was := active;
      if (playback != 0 && !Has(available, playback)) || (capture != 0 && !Has(available, capture)) { return false; }
      if playback != 0 { active := PlaybackOnly(active, playback); }
      if capture != 0 { active := CaptureOnly(active, capture); }
      if was != active { NotifyActive(); }
      ok := true;
    }

    method SetActiveRoute(route: bv16)
      modifies this`active, this`sent
      ensures var (t, notices) := Step(old(Value()), RouteTo(route)); Value() == t && sent == old(sent) + notices
    {
      hide OnRoute;
      var _ := SetDeviceActive(route & OUT_ANY, route & IN_ANY);
    }

    method StartCall()
      modifies this`available, this`active, this`sent
      ensures var s := old(Value()).(available := With(old(available), OUT_RECEIVER));
              var (t, notices) := Announce(OnCallStart(s));
              Value() == t
              && sent == old(sent) + [RoutesChanged(TouchedRoutes(s.available, 0, OUT_RECEIVER), true)] + notices
    {
      hide Has, With, PlaybackOnly, CaptureOnly, TouchedRoutes;
      available := With(available, OUT_RECEIVER);
      NotifyRoutes(0, OUT_RECEIVER, true);
      if Has(active, OUT_SPEAKER) {
        active := PlaybackOnly(active, OUT_RECEIVER);
      } else if Has(active, OUT_A2DP) {
        active := PlaybackOnly(active, OUT_SCO);
        active := CaptureOnly(active, IN_SCO);
      }
      NotifyActive();
    }

    method EndCall()
      modifies this`available, this`active, this`sent
      ensures var s := old(Value()).(available := Without(old(available), OUT_RECEIVER));
              var (t, notices) := Announce(OnCallEnd(s));
              Value() == t
              && sent == old(sent) + [RoutesChanged(TouchedRoutes(s.available, 0, OUT_RECEIVER), false)] + notices
    {
      hide Has, Without, PlaybackOnly, CaptureOnly, TouchedRoutes;
      available := Without(available, OUT_RECEIVER);
      NotifyRoutes(0, OUT_RECEIVER, false);
      if Has(active, OUT_RECEIVER) {
        active := PlaybackOnly(active, OUT_SPEAKER);
      } else if Has(active, OUT_SCO) {
        active := PlaybackOnly(active, OUT_A2DP);
        active := CaptureOnly(active, if Has(available, IN_WIRED) then IN_WIRED else IN_MIC);
      } else if !Has(active, OUT_SPEAKER) && !Has(active, OUT_WIRED) {
        active := PlaybackOnly(active, OUT_SPEAKER);
        active := CaptureOnly(active, IN_MIC);
      }
      NotifyActive();
    }

    method SetSession(to: Session, start: bool)
      modifies this
      ensures var (t, notices) := Step(old(Value()), Talk(to, start)); Value() == t && sent == old(sent) + notices
    {
      hide With, Without, OnCallStart, OnCallEnd, TouchedRoutes;
      session := if start then to else Media;
      if IsCommunication(to) {
        if start { StartCall(); } else { EndCall(); }
      }
    }

    method Handle(e: DeviceEvent)
      modifies this
      ensures var (t, notices) := Step(old(Value()), e); Value() == t && sent == old(sent) + notices
    {
      hide Step;
      match e {
        case Plug(device, on, earjack) => SetDeviceAvailable(device, on, earjack);
        case RouteTo(route) => SetActiveRoute(route);
        case Talk(to, start) => SetSession(to, start);
      }
    }

    method HandleAll(events: seq<DeviceEvent>)
      modifies this
      ensures var (t, notices) := Run(old(Value()), events); Value() == t && sent == old(sent) + notices
    {
      hide Step;
      for k := 0 to |events|
        invariant var (t, notices) := Run(old(Value()), events[..k]); Value() == t && sent == old(sent) + notices
      {
        assert events[..k + 1][..k] == events[..k];
        Handle(events[k]);
      }
      assert events[..|events|] == events;
    }
  }
}
