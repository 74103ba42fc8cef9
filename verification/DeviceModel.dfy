/** Which devices are plugged in and which are in use: the two device masks, the
    current session, and what each event tells the clients. */
module DeviceModel {
  import opened AsmTypes

  const IN_MIC: bv16 := 0x0001
  const IN_WIRED: bv16 := 0x0002
  const IN_SCO: bv16 := 0x0004
  const OUT_SPEAKER: bv16 := 0x0100
  const OUT_RECEIVER: bv16 := 0x0200
  const OUT_WIRED: bv16 := 0x0400
  const OUT_SCO: bv16 := 0x0800
  const OUT_A2DP: bv16 := 0x1000
  const OUT_DOCK: bv16 := 0x2000
  const IN_ANY: bv16 := 0x00FF
  const OUT_ANY: bv16 := 0xFF00

  const EARJACK_WITH_MIC := 2

  /** The routes an application may ask for, in the order of the route table. */
  const ROUTES: seq<bv16> := [0x0100, 0x0400, 0x1000, 0x0001, 0x0002, 0x0201, 0x0101, 0x0401, 0x0402, 0x0804]

  datatype Device = Wired | A2dp | Sco | Dock

  datatype DeviceEvent =
    | Plug(device: Device, on: bool, earjack: int)
    | RouteTo(route: bv16)
    | Talk(session: Session, start: bool)

  datatype Info = Info(available: bv16, active: bv16, session: Session)

  /** Routes that became available or ceased to be; or the devices now in use. */
  datatype Notice =
    | RoutesChanged(routes: seq<bv16>, available: bool)
    | ActiveChanged(capture: bv16, playback: bv16)

  predicate Has(mask: bv16, x: bv16) {
    mask & x != 0
  }

  function With(mask: bv16, x: bv16): bv16 {
    mask | x
  }

  function Without(mask: bv16, x: bv16): bv16 {
    mask & !x
  }

  function PlaybackOnly(active: bv16, x: bv16): bv16 {
    (active & IN_ANY) | x
  }

  function CaptureOnly(active: bv16, x: bv16): bv16 {
    (active & OUT_ANY) | x
  }

  predicate IsCommunication(session: Session) {
    session == VoiceCall || session == Voip
  }

  // ------------------------------------------------------------------ routes

  predicate DevicesAvailable(available: bv16, playback: bv16, capture: bv16) {
    if playback == 0 then Has(available, capture)
    else if capture == 0 then Has(available, playback)
    else Has(available, playback) && Has(available, capture)
  }

  predicate RouteAvailable(available: bv16, route: bv16) {
    DevicesAvailable(available, route & OUT_ANY, route & IN_ANY)
  }

  function Filter(p: bv16 -> bool, routes: seq<bv16>): seq<bv16> {
    if routes == [] then []
    else
      var n := |routes| - 1;
      Filter(p, routes[..n]) + if p(routes[n]) then [routes[n]] else []
  }

  /** The routes one can take now, computed from scratch. */
  function AvailableRoutes(available: bv16): seq<bv16> {
    Filter(r => RouteAvailable(available, r), ROUTES)
  }

  /** Whether a change of the devices `capture` and `playback` (0 for none) changes
      this route, decided without looking at what was available before. */
  predicate TouchesRoute(available: bv16, capture: bv16, playback: bv16, route: bv16) {
    var routeIn, routeOut := route & IN_ANY, route & OUT_ANY;
    || (capture != 0 && capture == routeIn
        && ((playback != 0 && playback == routeOut) || routeOut == 0 || DevicesAvailable(available, routeOut, 0)))
    || (playback != 0 && playback == routeOut && (routeIn == 0 || DevicesAvailable(available, 0, routeIn)))
  }

  function TouchedRoutes(available: bv16, capture: bv16, playback: bv16): seq<bv16> {
    Filter(r => TouchesRoute(available, capture, playback, r), ROUTES)
  }

  // ------------------------------------------------------------------ events

  function SelectPlayback(s: Info): (t: Info)
    ensures t.available == s.available && t.session == s.session
  {
    if Has(s.active, OUT_ANY) then s
    else if Has(s.available, OUT_A2DP) then s.(active := With(s.active, OUT_A2DP))
    else if Has(s.available, OUT_DOCK) then s.(active := With(s.active, OUT_DOCK))
    else if Has(s.available, OUT_WIRED) then s.(active := With(s.active, OUT_WIRED))
    else s.(active := With(s.active, OUT_SPEAKER))
  }

  function SelectCapture(s: Info): (t: Info)
    ensures t.available == s.available && t.session == s.session
  {
    if Has(s.active, IN_ANY) then s
    else if Has(s.available, IN_SCO) && IsCommunication(s.session) then s.(active := With(s.active, IN_SCO))
    else if Has(s.available, IN_WIRED) then s.(active := With(s.active, IN_WIRED))
    else s.(active := With(s.active, IN_MIC))
  }

  function PluggedAtStart(earjack: int, a2dp: bool, sco: bool): bv16 {
    var m0 := With(With(0, OUT_SPEAKER), IN_MIC);
    var m1 := if earjack > 0 then With(m0, OUT_WIRED) else m0;
    var m2 := if earjack == EARJACK_WITH_MIC then With(m1, IN_WIRED) else m1;
    var m3 := if a2dp then With(m2, OUT_A2DP) else m2;
    if sco then With(With(m3, OUT_SCO), IN_SCO) else m3
  }

  /** The state after start-up, given what is plugged in already. */
  function Start(earjack: int, a2dp: bool, sco: bool): Info {
    SelectCapture(SelectPlayback(Info(PluggedAtStart(earjack, a2dp, sco), 0, Media)))
  }

  /** A state together with the notice of the devices in use. */
  function Announce(s: Info): (Info, seq<Notice>) {
    (s, [ActiveChanged(s.active & IN_ANY, s.active & OUT_ANY)])
  }

  function HeadsetOn(s: Info, earjack: int): (Info, seq<Notice>) {
    if IsCommunication(s.session) then (s, [])
    else
      var active := PlaybackOnly(s.active, OUT_WIRED);
      Announce(s.(active := if earjack == EARJACK_WITH_MIC then CaptureOnly(active, IN_WIRED) else active))
  }

  function HeadsetOff(s: Info): (Info, seq<Notice>) {
    if !Has(s.active, OUT_WIRED) then (s, [])
    else
      var s1 := s.(active := Without(Without(s.active, OUT_WIRED), IN_WIRED));
      if IsCommunication(s.session) then (s1, []) else Announce(SelectCapture(SelectPlayback(s1)))
  }

  function SinkOn(s: Info, device: bv16): (Info, seq<Notice>) {
    if IsCommunication(s.session) then (s, []) else Announce(s.(active := PlaybackOnly(s.active, device)))
  }

  function SinkOff(s: Info, device: bv16): (Info, seq<Notice>) {
    if !Has(s.active, device) then (s, [])
    else Announce(SelectPlayback(s.(active := Without(s.active, device))))
  }

  function ScoOff(s: Info): (Info, seq<Notice>) {
    if !Has(s.active, OUT_SCO) && !Has(s.active, IN_SCO) then (s, [])
    else Announce(SelectCapture(SelectPlayback(s.(active := Without(Without(s.active, OUT_SCO), IN_SCO)))))
  }

  function OutOf(device: Device): bv16 {
    match device case Wired => OUT_WIRED case A2dp => OUT_A2DP case Sco => OUT_SCO case Dock => OUT_DOCK
  }

  /** The input that comes or goes along with a device. */
  function InOf(s: Info, e: DeviceEvent): bv16
    requires e.Plug?
  {
    match e.device
    case Wired => if e.on then (if e.earjack == EARJACK_WITH_MIC then IN_WIRED else 0) else s.available & IN_WIRED
    case Sco => IN_SCO
    case _ => 0
  }

  /** How the devices in use follow when a device comes or goes. */
  function Follow(s: Info, e: DeviceEvent): (Info, seq<Notice>)
    requires e.Plug?
  {
    match e.device
    case Wired => if e.on then HeadsetOn(s, e.earjack) else HeadsetOff(s)
    case A2dp => if e.on then SinkOn(s, OUT_A2DP) else SinkOff(s, OUT_A2DP)
    case Sco => if e.on then (s, []) else ScoOff(s)
    case Dock => if e.on then SinkOn(s, OUT_DOCK) else SinkOff(s, OUT_DOCK)
  }

  function OnPlug(s: Info, e: DeviceEvent): (Info, seq<Notice>)
    requires e.Plug?
  {
    var playback, capture := OutOf(e.device), InOf(s, e);
    if Has(s.available, playback) == e.on then (s, [])
    else
      var available := if e.on then With(With(s.available, playback), capture)
                       else Without(Without(s.available, playback), capture);
      var (t, notices) := Follow(s.(available := available), e);
      (t, [RoutesChanged(TouchedRoutes(available, capture, playback), e.on)] + notices)
  }

  /** The playback and capture devices asked for; 0 leaves one as it is. */
  function OnRoute(s: Info, playback: bv16, capture: bv16): (Info, seq<Notice>) {
    if (playback != 0 && !Has(s.available, playback)) || (capture != 0 && !Has(s.available, capture)) then (s, [])
    else
      var active := if playback != 0 then PlaybackOnly(s.active, playback) else s.active;
      var t := s.(active := if capture != 0 then CaptureOnly(active, capture) else active);
      if t == s then (s, []) else Announce(t)
  }

  function OnCallStart(s: Info): Info {
    var active :=
      if Has(s.active, OUT_SPEAKER) then PlaybackOnly(s.active, OUT_RECEIVER)
      else if Has(s.active, OUT_A2DP) then CaptureOnly(PlaybackOnly(s.active, OUT_SCO), IN_SCO)
      else s.active;
    s.(active := active)
  }

  function OnCallEnd(s: Info): Info {
    var active :=
      if Has(s.active, OUT_RECEIVER) then PlaybackOnly(s.active, OUT_SPEAKER)
      else if Has(s.active, OUT_SCO) then
        CaptureOnly(PlaybackOnly(s.active, OUT_A2DP), if Has(s.available, IN_WIRED) then IN_WIRED else IN_MIC)
      else if Has(s.active, OUT_SPEAKER) || Has(s.active, OUT_WIRED) then s.active
      else CaptureOnly(PlaybackOnly(s.active, OUT_SPEAKER), IN_MIC);
    s.(active := active)
  }

  function OnTalk(s: Info, session: Session, start: bool): (Info, seq<Notice>) {
    var s1 := s.(session := if start then session else Media);
    if !IsCommunication(session) then (s1, [])
    else
      var available := if start then With(s.available, OUT_RECEIVER) else Without(s.available, OUT_RECEIVER);
      var s2 := s1.(available := available);
      var (t, notices) := Announce(if start then OnCallStart(s2) else OnCallEnd(s2));
      (t, [RoutesChanged(TouchedRoutes(available, 0, OUT_RECEIVER), start)] + notices)
  }

  /** One event: the new state, and the notices it sends, in order. */
  function Step(s: Info, e: DeviceEvent): (Info, seq<Notice>) {
    match e
    case Plug(_, _, _) => OnPlug(s, e)
    case RouteTo(route) => OnRoute(s, route & OUT_ANY, route & IN_ANY)
    case Talk(session, start) => OnTalk(s, session, start)
  }

  function Run(s: Info, events: seq<DeviceEvent>): (Info, seq<Notice>) {
    if events == [] then (s, [])
    else
      var k := |events| - 1;
      var (s1, before) := Run(s, events[..k]);
      var (t, notices) := Step(s1, events[k]);
      (t, before + notices)
  }
}
