/** The policy matrix that ships with the server, and what it entails. */
module AsmMatrix {
  import opened AsmTypes
  import opened AsmModel
  import opened AsmArbitration
  import opened AsmCache
  import opened AsmOutcome
  import opened AsmReach
  import opened AsmRuns

  function Column(e: Event): (k: nat)
    ensures k < 19
  {
    match e
    case ShareMmplayer => 0 case ShareMmcamcorder => 1 case ShareMmsound => 2
    case ShareOpenal => 3 case ShareAvsystem => 4
    case ExclusiveMmplayer => 5 case ExclusiveMmcamcorder => 6 case ExclusiveMmsound => 7
    case ExclusiveOpenal => 8 case ExclusiveAvsystem => 9
    case Notify => 10 case Call => 11 case ShareFmradio => 12 case ExclusiveFmradio => 13
    case EarjackUnplug => 14 case Alarm => 15 case VideoCall => 16 case Monitor => 17 case RichCall => 18
  }

  /** One row per event that already plays, one column per incoming event. */
  function Row(e: Event): (row: seq<nat>)
    ensures |row| == 19
  {
    match e
    case ShareMmplayer        => [8, 8, 8, 8, 8, 6, 6, 6, 6, 6, 8, 8, 8, 6, 6, 6, 6, 8, 8]
    case ShareMmcamcorder     => [8, 8, 8, 8, 8, 5, 5, 5, 5, 5, 8, 5, 8, 5, 8, 5, 5, 8, 5]
    case ShareMmsound         => [8, 8, 8, 8, 8, 5, 5, 5, 5, 5, 8, 5, 8, 5, 5, 5, 5, 8, 5]
    case ShareOpenal          => [8, 8, 8, 8, 8, 5, 5, 5, 5, 5, 8, 5, 8, 5, 6, 5, 5, 8, 5]
    case ShareAvsystem        => [8, 8, 8, 8, 8, 5, 5, 5, 5, 5, 8, 5, 8, 5, 8, 5, 5, 8, 5]
    case ExclusiveMmplayer    => [6, 6, 6, 6, 6, 6, 6, 6, 6, 6, 8, 8, 6, 6, 6, 6, 6, 8, 8]
    case ExclusiveMmcamcorder => [5, 5, 5, 5, 5, 5, 5, 5, 5, 5, 8, 5, 5, 5, 8, 5, 5, 8, 5]
    case ExclusiveMmsound     => [5, 5, 5, 5, 5, 5, 5, 5, 5, 5, 8, 5, 5, 5, 5, 5, 5, 8, 5]
    case ExclusiveOpenal      => [5, 5, 5, 5, 5, 5, 5, 5, 5, 5, 8, 5, 5, 5, 6, 5, 5, 8, 5]
    case ExclusiveAvsystem    => [5, 5, 5, 5, 5, 5, 5, 5, 5, 5, 8, 5, 5, 5, 8, 5, 5, 8, 5]
    case Notify               => [8, 8, 8, 8, 8, 8, 8, 8, 8, 8, 8, 5, 8, 8, 8, 5, 5, 8, 5]
    case Call                 => [1, 1, 1, 1, 1, 1, 1, 1, 1, 1, 8, 0, 1, 1, 8, 8, 1, 8, 0]
    case ShareFmradio         => [8, 8, 8, 8, 8, 5, 5, 5, 5, 5, 8, 5, 5, 5, 5, 5, 5, 8, 5]
    case ExclusiveFmradio     => [5, 5, 5, 5, 5, 5, 5, 5, 5, 5, 8, 5, 5, 5, 5, 5, 5, 8, 5]
    case EarjackUnplug        => [8, 8, 8, 8, 8, 8, 8, 8, 8, 8, 8, 8, 8, 8, 8, 8, 8, 8, 8]
    case Alarm                => [1, 1, 1, 1, 1, 1, 1, 1, 1, 1, 8, 5, 1, 1, 8, 8, 5, 8, 5]
    case VideoCall            => [1, 1, 1, 1, 1, 1, 1, 1, 1, 1, 8, 1, 1, 1, 8, 8, 0, 8, 1]
    case Monitor              => [8, 8, 8, 8, 8, 8, 8, 8, 8, 8, 8, 8, 8, 8, 8, 8, 8, 8, 8]
    case RichCall             => [1, 8, 1, 1, 1, 1, 1, 1, 1, 1, 8, 0, 1, 1, 8, 8, 1, 8, 0]
  }

  function PolicyOfCode(code: nat): Policy {
    match code
    case 1 => Play1Stop2
    case 2 => Play1Alter2
    case 3 => Play1Wait2
    case 4 => Alter1Play2
    case 5 => Stop1Play2
    case 6 => Pause1Play2
    case 7 => Virtual1Play2
    case 8 => Mix
    case _ => NoPolicy
  }

  function MatrixPolicy(current: Event, incoming: Event): Policy {
    PolicyOfCode(Row(current)[Column(incoming)])
  }

  /** The server as shipped; GCF is read from the device's settings. */
  function Shipped(maxHandles: nat, gcf: bool): Config {
    Config(MatrixPolicy, maxHandles, gcf)
  }

  // ----------------------------------------------------- the matrix in words

  predicate IsShare(e: Event) {
    e == ShareMmplayer || e == ShareMmcamcorder || e == ShareMmsound || e == ShareOpenal || e == ShareAvsystem
  }

  predicate IsExclusive(e: Event) {
    || e == ExclusiveMmplayer || e == ExclusiveMmcamcorder || e == ExclusiveMmsound
    || e == ExclusiveOpenal || e == ExclusiveAvsystem
  }

  /** Calls and alarms turn down media and radios, but a rich call suffers a shared
      camcorder; and voice and video calls turn down each other. */
  predicate TurnsDown(current: Event, incoming: Event) {
    || (NeedsResume(current) && (IsShare(incoming) || IsExclusive(incoming) || IsFmRadio(incoming))
        && !(current == RichCall && incoming == ShareMmcamcorder))
    || ((current == Call || current == RichCall) && incoming == VideoCall)
    || (current == VideoCall && (incoming == Call || incoming == RichCall))
  }

  /** Players are paused, a shared one by fewer events; others only when the headset goes,
      and of these only sounds of OpenAL. */
  predicate Pauses(current: Event, incoming: Event) {
    || (current == ShareMmplayer
        && (IsExclusive(incoming) || incoming == ExclusiveFmradio || incoming == EarjackUnplug
            || incoming == Alarm || incoming == VideoCall))
    || (current == ExclusiveMmplayer
        && incoming != Notify && incoming != Call && incoming != Monitor && incoming != RichCall)
    || ((current == ShareOpenal || current == ExclusiveOpenal) && incoming == EarjackUnplug)
  }

  /** Notifications and monitors mix with everything, and nothing minds a headset that goes
      or a monitor that is there; shared sounds mix with each other and with a shared
      radio; players mix with calls; and a few more pairs. */
  predicate Mixes(current: Event, incoming: Event) {
    || incoming == Notify || incoming == Monitor || current == EarjackUnplug || current == Monitor
    || (current == Notify && !NeedsResume(incoming))
    || (NeedsResume(current) && (incoming == EarjackUnplug || incoming == Alarm))
    || (current == RichCall && incoming == ShareMmcamcorder)
    || (IsShare(current) && (IsShare(incoming) || incoming == ShareFmradio))
    || (current == ShareFmradio && IsShare(incoming))
    || (IsMmplayer(current) && (incoming == Call || incoming == RichCall))
    || ((current == ShareMmcamcorder || current == ExclusiveMmcamcorder
         || current == ShareAvsystem || current == ExclusiveAvsystem) && incoming == EarjackUnplug)
  }

  /** Calls of one family have no policy against each other. */
  predicate Unruled(current: Event, incoming: Event) {
    || ((current == Call || current == RichCall) && (incoming == Call || incoming == RichCall))
    || (current == VideoCall && incoming == VideoCall)
  }

  function CodeInWords(current: Event, incoming: Event): nat {
    if Unruled(current, incoming) then 0
    else if TurnsDown(current, incoming) then 1
    else if Pauses(current, incoming) then 6
    else if Mixes(current, incoming) then 8
    else 5
  }

  lemma ShareMmplayerInWords(incoming: Event)
    ensures Row(ShareMmplayer)[Column(incoming)] == CodeInWords(ShareMmplayer, incoming)
  {
  }

  lemma ShareMmcamcorderInWords(incoming: Event)
    ensures Row(ShareMmcamcorder)[Column(incoming)] == CodeInWords(ShareMmcamcorder, incoming)
  {
  }

  lemma ShareMmsoundInWords(incoming: Event)
    ensures Row(ShareMmsound)[Column(incoming)] == CodeInWords(ShareMmsound, incoming)
  {
  }

  lemma ShareOpenalInWords(incoming: Event)
    ensures Row(ShareOpenal)[Column(incoming)] == CodeInWords(ShareOpenal, incoming)
  {
  }

  lemma ShareAvsystemInWords(incoming: Event)
    ensures Row(ShareAvsystem)[Column(incoming)] == CodeInWords(ShareAvsystem, incoming)
  {
  }

  lemma ExclusiveMmplayerInWords(incoming: Event)
    ensures Row(ExclusiveMmplayer)[Column(incoming)] == CodeInWords(ExclusiveMmplayer, incoming)
  {
  }

  lemma ExclusiveMmcamcorderInWords(incoming: Event)
    ensures Row(ExclusiveMmcamcorder)[Column(incoming)] == CodeInWords(ExclusiveMmcamcorder, incoming)
  {
  }

  lemma ExclusiveMmsoundInWords(incoming: Event)
    ensures Row(ExclusiveMmsound)[Column(incoming)] == CodeInWords(ExclusiveMmsound, incoming)
  {
  }

  lemma ExclusiveOpenalInWords(incoming: Event)
    ensures Row(ExclusiveOpenal)[Column(incoming)] == CodeInWords(ExclusiveOpenal, incoming)
  {
  }

  lemma ExclusiveAvsystemInWords(incoming: Event)
    ensures Row(ExclusiveAvsystem)[Column(incoming)] == CodeInWords(ExclusiveAvsystem, incoming)
  {
  }

  lemma NotifyInWords(incoming: Event)
    ensures Row(Notify)[Column(incoming)] == CodeInWords(Notify, incoming)
  {
  }

  lemma CallInWords(incoming: Event)
    ensures Row(Call)[Column(incoming)] == CodeInWords(Call, incoming)
  {
  }

  lemma ShareFmradioInWords(incoming: Event)
    ensures Row(ShareFmradio)[Column(incoming)] == CodeInWords(ShareFmradio, incoming)
  {
  }

  lemma ExclusiveFmradioInWords(incoming: Event)
    ensures Row(ExclusiveFmradio)[Column(incoming)] == CodeInWords(ExclusiveFmradio, incoming)
  {
  }

  lemma EarjackUnplugInWords(incoming: Event)
    ensures Row(EarjackUnplug)[Column(incoming)] == CodeInWords(EarjackUnplug, incoming)
  {
  }

  lemma AlarmRow(k: nat)
    requires k < 19
    ensures Row(Alarm)[k] == if k < 10 || k == 12 || k == 13 then 1 else if k == 11 || k == 16 || k == 18 then 5 else 8
  {
  }

  lemma AlarmInWords(incoming: Event)
    ensures Row(Alarm)[Column(incoming)] == CodeInWords(Alarm, incoming)
  {
    AlarmRow(Column(incoming));
    hide Row;
  }

  lemma VideoCallInWords(incoming: Event)
    ensures Row(VideoCall)[Column(incoming)] == CodeInWords(VideoCall, incoming)
  {
  }

  lemma MonitorInWords(incoming: Event)
    ensures Row(Monitor)[Column(incoming)] == CodeInWords(Monitor, incoming)
  {
  }

  lemma RichCallRow(k: nat)
    requires k < 19
    ensures Row(RichCall)[k] == if k == 11 || k == 18 then 0
                                else if k == 1 || k == 10 || k == 14 || k == 15 || k == 17 then 8 else 1
  {
  }

  lemma RichCallInWords(incoming: Event)
    ensures Row(RichCall)[Column(incoming)] == CodeInWords(RichCall, incoming)
  {
    RichCallRow(Column(incoming));
    hide Row;
  }

  lemma CodesInWords(current: Event, incoming: Event)
    ensures Row(current)[Column(incoming)] == CodeInWords(current, incoming)
  {
    hide Row, Column, CodeInWords;
    match current {
      case ShareMmplayer => ShareMmplayerInWords(incoming);
      case ShareMmcamcorder => ShareMmcamcorderInWords(incoming);
      case ShareMmsound => ShareMmsoundInWords(incoming);
      case ShareOpenal => ShareOpenalInWords(incoming);
      case ShareAvsystem => ShareAvsystemInWords(incoming);
      case ExclusiveMmplayer => ExclusiveMmplayerInWords(incoming);
      case ExclusiveMmcamcorder => ExclusiveMmcamcorderInWords(incoming);
      case ExclusiveMmsound => ExclusiveMmsoundInWords(incoming);
      case ExclusiveOpenal => ExclusiveOpenalInWords(incoming);
      case ExclusiveAvsystem => ExclusiveAvsystemInWords(incoming);
      case Notify => NotifyInWords(incoming);
      case Call => CallInWords(incoming);
      case ShareFmradio => ShareFmradioInWords(incoming);
      case ExclusiveFmradio => ExclusiveFmradioInWords(incoming);
      case EarjackUnplug => EarjackUnplugInWords(incoming);
      case Alarm => AlarmInWords(incoming);
      case VideoCall => VideoCallInWords(incoming);
      case Monitor => MonitorInWords(incoming);
      case RichCall => RichCallInWords(incoming);
    }
  }

  /** The shipped matrix, in words: every pair but those without a policy, those that deny,
      those that pause and those that mix stops the sound that plays. */
  lemma MatrixInWords(current: Event, incoming: Event)
    ensures MatrixPolicy(current, incoming) ==
              if Unruled(current, incoming) then NoPolicy
              else if TurnsDown(current, incoming) then Play1Stop2
              else if Pauses(current, incoming) then Pause1Play2
              else if Mixes(current, incoming) then Mix
              else Stop1Play2
  {
    CodesInWords(current, incoming);
    hide Row, Column, Unruled, TurnsDown, Pauses, Mixes;
  }

  /** Every pair has a policy, except calls against calls of the same family. */
  lemma MatrixHoles(current: Event, incoming: Event)
    ensures !Arbitrates(MatrixPolicy(current, incoming)) <==>
              || ((current == Call || current == RichCall) && (incoming == Call || incoming == RichCall))
              || (current == VideoCall && incoming == VideoCall)
  {
    MatrixInWords(current, incoming);
    hide MatrixPolicy, TurnsDown, Pauses, Mixes;
  }

  /** Only a call, a rich call, a video call or an alarm turns anybody down. */
  lemma MatrixDeniers(current: Event, incoming: Event)
    requires MatrixPolicy(current, incoming) == Play1Stop2
    ensures NeedsResume(current) && incoming != Notify && incoming != Monitor
  {
    MatrixInWords(current, incoming);
    hide MatrixPolicy, Unruled, Pauses, Mixes;
  }

  lemma DeniedRequest(max: nat, gcf: bool, w: World, r: Request, s: State)
    requires Ready(r, s) && Denied(Compare(Shipped(max, gcf), w, r, s).1)
    ensures !gcf && exists e :: e in s.list && e.state == Playing && e.pid != r.pid && NeedsResume(e.event)
  {
    var cfg := Shipped(max, gcf);
    hide Compare, MatrixPolicy, Ready, NeedsResume;
    OnlyPlayersAreDenied(cfg, w, r, s);
    DenialIsOrderIndependent(cfg, w, r, s);
    var e :| e in s.list && e.state == Playing && e.pid != r.pid && cfg.policy(e.event, r.event) == Play1Stop2;
    MatrixDeniers(e.event, r.event);
  }

  /** On every run of the shipped server, a client that is told to stop finds a call or
      an alarm of another living process playing at that moment. */
  lemma DenialMeansCall(max: nat, gcf: bool, run: seq<(Message, World)>, w: World, m: Message)
    requires m.MsgRegister? || m.MsgSetState?
    requires var answer := Process(Shipped(max, gcf), w, Run(Shipped(max, gcf), run), m).1;
             answer.Decided? && Denied(answer.decision)
    ensures !gcf && exists e :: e in Run(Shipped(max, gcf), run).list && PidExists(w, e.pid)
                                && e.state == Playing && e.pid != m.pid && NeedsResume(e.event)
  {
    var cfg := Shipped(max, gcf);
    var s := Run(cfg, run);
    var s1 := CheckDeadProcess(s, w);
    SurvivorsMembers(s.list, w);
    var handle := LeastFree(s1.list, 0, max);
    LeastFreeMeaning(s1.list, 0, max);
    var r := if m.MsgRegister? then Request(Register, m.pid, handle, m.event, m.state, m.resource)
             else Request(SetState, m.pid, m.handle, m.event, m.state, m.resource);
    ReadyOnEveryRun(cfg, run, w, r);
    hide Run, Compare, MatrixPolicy, Ready, Survivors, PidExists, LeastFree, Taken, NeedsResume, MaskOf,
      IsPlayingNow, ChangeState, SetSession, StartSession;
    DeniedRequest(max, gcf, w, r, s1);
  }
}
