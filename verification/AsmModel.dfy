/** What each operation of the audio session manager does to its list, its two
    cached masks, the current session and the outside world. */
module AsmModel {
  import opened AsmTypes

  // ---------------------------------------------------------------- the list

  /** The same sound in the same state; its flags may differ. */
  predicate SameSound(a: Sound, b: Sound) {
    a.pid == b.pid && a.handle == b.handle && a.event == b.event && a.state == b.state && a.resource == b.resource
  }

  predicate SameSounds(a: seq<Sound>, b: seq<Sound>) {
    |a| == |b| && forall k :: 0 <= k < |a| ==> SameSound(a[k], b[k])
  }

  /** `b` is `a` with a new state and resource for its k-th sound, up to flags. */
  predicate StateSetAt(a: seq<Sound>, b: seq<Sound>, k: int, status: Status, resource: Bits) {
    |a| == |b| && forall j :: 0 <= j < |a| ==>
      SameSound(if j == k then a[j].(state := status, resource := resource) else a[j], b[j])
  }

  /** The first sound of process `pid` with that handle, or the end of the list. */
  function IndexOf(list: seq<Sound>, pid: int, handle: int): (k: nat)
    ensures k <= |list|
    ensures k < |list| ==> list[k].pid == pid && list[k].handle == handle
    ensures forall j :: 0 <= j < k ==> !(list[j].pid == pid && list[j].handle == handle)
  {
    if list == [] || (list[0].pid == pid && list[0].handle == handle) then 0
    else 1 + IndexOf(list[1..], pid, handle)
  }

  /** The first monitor of process `pid`, or the end of the list. */
  function MonitorOf(list: seq<Sound>, pid: int): (k: nat)
    ensures k <= |list|
    ensures k < |list| ==> list[k].pid == pid && list[k].event == Monitor
    ensures forall j :: 0 <= j < k ==> !(list[j].pid == pid && list[j].event == Monitor)
  {
    if list == [] || (list[0].pid == pid && list[0].event == Monitor) then 0
    else 1 + MonitorOf(list[1..], pid)
  }

  function HandleIndex(list: seq<Sound>, handle: int): (k: nat)
    ensures k <= |list|
    ensures k < |list| ==> list[k].handle == handle
    ensures forall j :: 0 <= j < k ==> list[j].handle != handle
  {
    if list == [] || list[0].handle == handle then 0 else 1 + HandleIndex(list[1..], handle)
  }

  predicate HasActiveSound(list: seq<Sound>, pid: int) {
    exists k :: 0 <= k < |list| && list[k].pid == pid && list[k].event != Monitor && list[k].state == Playing
  }

  function UpdateMonitor(list: seq<Sound>, pid: int): (r: seq<Sound>)
    ensures SameSounds(list, r)
  {
    var m := MonitorOf(list, pid);
    if m < |list| then list[m := list[m].(monitorActive := HasActiveSound(list, pid))] else list
  }

  function MarkDirty(list: seq<Sound>, pid: int): (r: seq<Sound>)
    ensures SameSounds(list, r)
  {
    var m := MonitorOf(list, pid);
    if m < |list| then list[m := list[m].(monitorDirty := true)] else list
  }

  function CleanMonitors(list: seq<Sound>): (r: seq<Sound>)
    ensures |r| == |list|
    ensures forall k :: 0 <= k < |list| ==>
              r[k] == if list[k].event == Monitor then list[k].(monitorDirty := false) else list[k]
  {
    seq(|list|, k requires 0 <= k < |list| =>
      if list[k].event == Monitor then list[k].(monitorDirty := false) else list[k])
  }

  function SetResume(list: seq<Sound>, pid: int, handle: int, resume: bool): (r: seq<Sound>)
    ensures SameSounds(list, r)
  {
    var k := IndexOf(list, pid, handle);
    if k < |list| then list[k := list[k].(resume := resume)] else list
  }

  /** The OR of the status bits of the sounds in state `status`. */
  function MaskOf(list: seq<Sound>, status: Status): set<Event> {
    if list == [] then {}
    else
      var n := |list| - 1;
      MaskOf(list[..n], status) + if list[n].state == status then {list[n].event} else {}
  }

  function Refresh(s: State): State {
    s.(playing := MaskOf(s.list, Playing), paused := MaskOf(s.list, Paused))
  }

  function NewSound(r: Request): Sound {
    Sound(r.pid, r.handle, r.event, r.state, false, r.resource, false, false)
  }

  function RegisterSound(s: State, r: Request): State {
    Refresh(s.(list := [NewSound(r)] + s.list, log := s.log + [Admitted(r.pid, r.handle)]))
  }

  function WithState(list: seq<Sound>, pid: int, handle: int, status: Status, resource: Bits): seq<Sound> {
    var k := IndexOf(list, pid, handle);
    if k < |list| then list[k := list[k].(state := status, resource := resource)] else list
  }

  function ChangeState(s: State, pid: int, handle: int, status: Status, resource: Bits): (r: State)
    ensures r.log == s.log && r.session == s.session
    ensures status == Ignored ==> r == s
    ensures status != Ignored ==> StateSetAt(s.list, r.list, IndexOf(s.list, pid, handle), status, resource)
  {
    if status == Ignored then s
    else Refresh(s.(list := UpdateMonitor(WithState(s.list, pid, handle, status, resource), pid)))
  }

  function Unregister(s: State, handle: int): State {
    var k := HandleIndex(s.list, handle);
    Refresh(s.(list := if k < |s.list| then s.list[..k] + s.list[k + 1..] else s.list))
  }

  predicate PidExists(w: World, pid: int) {
    2 <= pid <= 999999 && w.alive(pid)
  }

  /** The sounds whose process exists, in their order. */
  function Survivors(list: seq<Sound>, w: World): seq<Sound> {
    if list == [] then []
    else (if PidExists(w, list[0].pid) then [list[0]] else []) + Survivors(list[1..], w)
  }

  /** The sounds of every other process, in their order. */
  function WithoutPid(list: seq<Sound>, pid: int): seq<Sound> {
    if list == [] then []
    else (if list[0].pid != pid then [list[0]] else []) + WithoutPid(list[1..], pid)
  }

  function CheckDeadProcess(s: State, w: World): State {
    Refresh(s.(list := Survivors(s.list, w)))
  }

  /** The masks are recomputed with each removal, so not when there is none. */
  function EmergentExit(s: State, pid: int): State {
    var list := WithoutPid(s.list, pid);
    if |list| == |s.list| then s else Refresh(s.(list := list))
  }

  // --------------------------------------------------------------- callbacks

  /** A RESUME is not waited for, so it never brings a state back. */
  function ReplyTo(w: World, n: nat, command: Command): Reply {
    if command == CmdResume then (if w.reply(n) == Unexpected then Unexpected else ResNone) else w.reply(n)
  }

  function Ring(w: World, s: State, pid: int, handle: int, command: Command,
                source: Source, role: Role, cause: Event): State {
    s.(log := s.log + [Callback(pid, handle, command, source, role, cause, ReplyTo(w, |s.log|, command))])
  }

  predicate NeedsResume(e: Event) {
    e == Call || e == RichCall || e == VideoCall || e == Alarm
  }

  predicate IsFmRadio(e: Event) {
    e == ShareFmradio || e == ExclusiveFmradio
  }

  predicate IsMmplayer(e: Event) {
    e == ShareMmplayer || e == ExclusiveMmplayer
  }

  /** Resources are compared through an unsigned short, so by their low 16 bits. */
  predicate Clash(a: Bits, b: Bits) {
    exists k :: k in a && k in b && k < 16
  }

  /** The cause reported to the client of an interrupted sound. */
  function SourceOf(victim: Sound, r: Request, pausing: bool): Source {
    if Clash(victim.resource, r.resource) then ResourceConflict
    else if r.event == Call || r.event == RichCall || r.event == VideoCall then CallStart
    else if r.event == EarjackUnplug then EarjackUnplugged
    else if r.event == Alarm then AlarmStart
    else if pausing && IsMmplayer(r.event) && IsMmplayer(victim.event) then OtherPlayerApp
    else OtherApp
  }

  function SetSession(s: State, session: Session, start: bool): State {
    s.(session := if start then session else Media, log := s.log + [SessionSet(session, start)])
  }

  /** Stops the monitor of a process once per pass, if it is not dirty already. */
  function StopMonitor(w: World, s: State, pid: int, source: Source, cause: Event, flag: bool): (r: State)
    ensures SameSounds(s.list, r.list) && r.session == s.session
  {
    var m := MonitorOf(s.list, pid);
    if m < |s.list| && !s.list[m].monitorDirty then
      var handle := s.list[m].handle;
      var s1 := Ring(w, s, pid, handle, CmdStop, source, Watcher, cause);
      var s2 := s1.(list := MarkDirty(s1.list, pid));
      if flag then s2.(list := SetResume(s2.list, pid, handle, true)) else s2
    else s
  }

  // -------------------------------------------------------------- first pass

  datatype Cursor = Cursor(s: State, i: nat, updated: bool, answer: Option<Decision>)

  predicate IsOwn(e: Sound, r: Request) {
    e.pid == r.pid && e.handle == r.handle
  }

  /** The GCF switch turns every policy into MIX. */
  function Effective(cfg: Config, current: Event, incoming: Event): Policy {
    if cfg.gcf then Mix else cfg.policy(current, incoming)
  }

  /** Stops the monitor of the sound `v`, sends `v` a command, and flags the two for
      resuming as asked; also the reply of `v`. */
  function Strike(w: World, s: State, v: Sound, command: Command, source: Source, cause: Event,
                  flagMonitor: bool, flag: bool): (State, Reply) {
    var s1 := StopMonitor(w, s, v.pid, source, cause, flagMonitor);
    var s2 := Ring(w, s1, v.pid, v.handle, command, source, Worker, cause);
    (if flag then s2.(list := SetResume(s2.list, v.pid, v.handle, true)) else s2, ReplyTo(w, |s1.log|, command))
  }

  /** Stops the playing sound `v` on behalf of `r` (policy 1STOP_2PLAY). */
  function StopVictim(w: World, r: Request, s: State, v: Sound): (t: State)
    ensures |t.list| == |s.list|
  {
    var (s1, reply) := Strike(w, s, v, CmdStop, SourceOf(v, r, false), r.event, NeedsResume(r.event), NeedsResume(r.event));
    var s2 := ChangeState(s1, v.pid, v.handle, if reply == ResStop then Stopped else NoState, {});
    if IsFmRadio(v.event) && s2.session == FmRadio then SetSession(s2, FmRadio, false) else s2
  }

  /** Pauses the playing sound `v`, or stops it when resources clash (policy 1PAUSE_2PLAY). */
  function PauseVictim(w: World, r: Request, s: State, v: Sound): (t: State)
    ensures |t.list| == |s.list|
  {
    var command := if Clash(v.resource, r.resource) then CmdStop else CmdPause;
    var (s1, reply) := Strike(w, s, v, command, SourceOf(v, r, true), r.event, NeedsResume(r.event), NeedsResume(r.event));
    ChangeState(s1, v.pid, v.handle,
      if reply == ResPause then Paused else if reply == ResIgnore then Ignored else NoState,
      if reply == ResNone || reply == ResStop then {} else v.resource)
  }

  /** Lets `v` play along unless it holds a resource that `r` wants (policy 1PLAY_2PLAY_MIX);
      then it is stopped, and only its monitor is flagged. */
  function MixVictim(w: World, r: Request, s: State, v: Sound): (t: State)
    ensures |t.list| == |s.list|
  {
    if !Clash(v.resource, r.resource) then s
    else
      var (s1, reply) := Strike(w, s, v, CmdStop, ResourceConflict, r.event, NeedsResume(r.event), false);
      ChangeState(s1, v.pid, v.handle,
        if reply == ResIgnore then Ignored else NoState,
        if reply == ResNone || reply == ResStop then {} else v.resource)
  }

  /** Records the requester: a new entry in front, or the state of its own entry. */
  function Record(r: Request, s: State): State {
    if r.kind == Register then RegisterSound(s, r)
    else ChangeState(s, r.pid, r.handle, r.state, r.resource)
  }

  /** Answers `command` and, the first time, records the requester; the cursor moves
      one sound on, wherever that sound now is. */
  function Admit(r: Request, c: Cursor, command: Command): (d: Cursor)
    ensures |d.s.list| - d.i == |c.s.list| - c.i - 1
  {
    var answer := Some(Decision(r.handle, r.handle, command, r.state));
    if c.updated then Cursor(c.s, c.i + 1, true, answer)
    else Cursor(Record(r, c.s), if r.kind == Register then c.i + 2 else c.i + 1, true, answer)
  }

  /** The policies that admit the newcomer, or deny it to another process. */
  predicate Arbitrates(p: Policy) {
    p == Play1Stop2 || p == Stop1Play2 || p == Pause1Play2 || p == Mix
  }

  /** What the policy does to the playing sound `v`; processes never interrupt themselves. */
  function Interrupt(cfg: Config, w: World, r: Request, s: State, v: Sound): (t: State)
    ensures |t.list| == |s.list|
  {
    if v.pid == r.pid then s
    else match Effective(cfg, v.event, r.event)
      case Stop1Play2 => StopVictim(w, r, s, v)
      case Pause1Play2 => PauseVictim(w, r, s, v)
      case Mix => MixVictim(w, r, s, v)
      case _ => s
  }

  function Step1(cfg: Config, w: World, r: Request, c: Cursor): Cursor
    requires c.i < |c.s.list|
  {
    var v := c.s.list[c.i];
    var p := Effective(cfg, v.event, r.event);
    if v.state != Playing || IsOwn(v, r) then c.(i := c.i + 1)
    else if r.state != Playing then Admit(r, c, CmdNone)
    else if p == Play1Stop2 && v.pid != r.pid then
      c.(i := |c.s.list|, answer := Some(Decision(r.handle, r.handle, CmdStop, r.state)))
    else if Arbitrates(p) then Admit(r, c.(s := Interrupt(cfg, w, r, c.s, v)), CmdPlay)
    else Cursor(c.s, c.i + 1, c.updated, Some(Decision(r.handle, r.handle, CmdNone, r.state)))
  }

  lemma Step1Advances(cfg: Config, w: World, r: Request, c: Cursor)
    requires c.i < |c.s.list|
    ensures var d := Step1(cfg, w, r, c); |d.s.list| - d.i < |c.s.list| - c.i
  {
    hide Interrupt, Admit;
  }

  function Pass1(cfg: Config, w: World, r: Request, c: Cursor): Cursor
    decreases |c.s.list| - c.i
  {
    if c.i >= |c.s.list| then c else Step1Advances(cfg, w, r, c); Pass1(cfg, w, r, Step1(cfg, w, r, c))
  }

  // ------------------------------------------------------------- second pass

  /** Stops the paused sound `v`, which holds a resource that `r` wants. */
  function EvictPaused(w: World, r: Request, s: State, v: Sound): (t: State)
    ensures |t.list| == |s.list|
  {
    var (s1, _) := Strike(w, s, v, CmdStop, ResourceConflict, r.event, false, false);
    ChangeState(s1, v.pid, v.handle, NoState, {})
  }

  predicate Yields(cfg: Config, current: Event, incoming: Event) {
    cfg.policy(current, incoming) == Pause1Play2 || cfg.policy(current, incoming) == Stop1Play2
  }

  function Step2(cfg: Config, w: World, r: Request, s: State, i: nat): (t: State)
    requires i < |s.list|
    ensures |t.list| == |s.list|
  {
    var v := s.list[i];
    if v.state != Paused then s
    else if IsOwn(v, r) then
      if r.kind == SetState then ChangeState(s, r.pid, r.handle, r.state, r.resource) else s
    else if r.state == Playing && Yields(cfg, v.event, r.event) && v.pid != r.pid
            && Clash(v.resource, r.resource) then EvictPaused(w, r, s, v)
    else s
  }

  function Pass2(cfg: Config, w: World, r: Request, s: State, i: nat): State
    decreases |s.list| - i
  {
    if i >= |s.list| then s else Pass2(cfg, w, r, Step2(cfg, w, r, s, i), i + 1)
  }

  // ------------------------------------------------------------- arbitration

  function FirstPass(cfg: Config, w: World, r: Request, s: State): (State, Option<Decision>) {
    if s.playing == {} then (s, Some(Decision(r.handle, -1, CmdNone, r.state)))
    else
      var c := Pass1(cfg, w, r, Cursor(s, 0, false, None));
      (c.s.(list := CleanMonitors(c.s.list)), c.answer)
  }

  /** The second pass runs for a newcomer that wants resources and was not turned down. */
  predicate Evicts(r: Request, s: State, free: bool, answer: Option<Decision>) {
    s.paused != {} && r.resource != {} && (free || (answer.Some? && answer.value.command == CmdPlay))
  }

  function Compare(cfg: Config, w: World, r: Request, s: State): (State, Option<Decision>) {
    var free := s.playing == {};
    var (s1, answer) := FirstPass(cfg, w, r, s);
    var s2 := if Evicts(r, s1, free, answer) then Pass2(cfg, w, r, s1, 0) else s1;
    (if free then Record(r, s2) else s2, answer)
  }

  /** Sends RESUME to every flagged sound from position `i` on, and drops the flags. */
  function ResumeAll(w: World, s: State, i: nat, source: Source, cause: Event): State
    decreases |s.list| - i
  {
    if i >= |s.list| then s
    else if !s.list[i].resume then ResumeAll(w, s, i + 1, source, cause)
    else
      var v := s.list[i];
      var reply := ReplyTo(w, |s.log|, CmdResume);
      var s1 := Ring(w, s, v.pid, v.handle, CmdResume, source, Worker, cause);
      var status := if reply == ResPlaying then Playing else v.state;
      ResumeAll(w, s1.(list := s1.list[i := v.(state := status, resume := false)]), i + 1, source, cause)
  }

  // ------------------------------------------------------------ message step

  /** The least handle no sound holds, below the limit; -1 when there is none. */
  function LeastFree(list: seq<Sound>, h: nat, max: nat): int
    decreases max - h
  {
    if h >= max then -1
    else if HandleIndex(list, h) == |list| then h
    else LeastFree(list, h + 1, max)
  }

  function Rank(status: Status): nat {
    match status
    case Waiting => 1
    case Stopped => 1
    case Paused => 2
    case PausedByApp => 2
    case Playing => 3
    case _ => 0
  }

  /** The most prominent state of a process; later entries win ties. */
  function ProcessStatus(list: seq<Sound>, pid: int, best: Status): Status {
    if list == [] then best
    else
      ProcessStatus(list[1..], pid,
        if list[0].pid == pid && Rank(list[0].state) >= Rank(best) then list[0].state else best)
  }

  predicate IsPlayingNow(list: seq<Sound>, pid: int, handle: int) {
    exists k :: 0 <= k < |list| && list[k].pid == pid && list[k].handle == handle && list[k].state == Playing
  }

  function OnRegister(cfg: Config, w: World, s: State, pid: int, event: Event, status: Status, resource: Bits)
    : (State, Answer)
  {
    var s1 := CheckDeadProcess(s, w);
    var handle := LeastFree(s1.list, 0, cfg.maxHandles);
    if handle == -1 then (s1, NoHandle)
    else
      var (s2, d) := Compare(cfg, w, Request(Register, pid, handle, event, status, resource), s1);
      var s3 := if event == Call || event == RichCall then SetSession(s2, VoiceCall, true)
                else if event == VideoCall then SetSession(s2, Voip, true) else s2;
      (s3, Decided(d))
  }

  function OnUnregister(w: World, s: State, handle: int, event: Event): State {
    var s1 := Unregister(s, handle);
    if event == Call || event == RichCall then ResumeAll(w, SetSession(s1, VoiceCall, false), 0, CallEnd, event)
    else if event == VideoCall then ResumeAll(w, SetSession(s1, Voip, false), 0, CallEnd, event)
    else if event == Alarm then ResumeAll(w, SetSession(s1, Notification, false), 0, AlarmEnd, event)
    else s1
  }

  /** An alarm or a radio that was not denied starts its session, unless it is on. */
  function StartSession(s: State, event: Event): State {
    if event == Alarm && s.session != Notification then SetSession(s, Notification, true)
    else if IsFmRadio(event) && s.session != FmRadio then SetSession(s, FmRadio, true)
    else s
  }

  function OnPlay(cfg: Config, w: World, s: State, r: Request): (State, Answer) {
    if IsPlayingNow(s.list, r.pid, r.handle) then
      (ChangeState(s, r.pid, r.handle, r.state, r.resource), Acknowledged(r.handle, r.state))
    else
      var (t, d) := Compare(cfg, w, r, s);
      (if d.Some? && (d.value.command == CmdPlay || d.value.command == CmdNone) then StartSession(t, r.event) else t,
       Decided(d))
  }

  function OnOther(s: State, r: Request): State {
    var t := ChangeState(s, r.pid, r.handle, r.state, r.resource);
    if r.state == Stopped && IsFmRadio(r.event) && t.session == FmRadio then SetSession(t, FmRadio, false) else t
  }

  function OnSetState(cfg: Config, w: World, s: State, r: Request): (State, Answer) {
    var s1 := CheckDeadProcess(s, w);
    if r.state == Playing then OnPlay(cfg, w, s1, r) else (OnOther(s1, r), Silent)
  }

  /** One message, handled under the server's lock. */
  function Process(cfg: Config, w: World, s: State, m: Message): (State, Answer) {
    match m
    case MsgRegister(pid, event, status, resource) => OnRegister(cfg, w, s, pid, event, status, resource)
    case MsgUnregister(handle, event) => (OnUnregister(w, s, handle, event), Silent)
    case MsgSetState(pid, handle, event, status, resource) =>
      OnSetState(cfg, w, s, Request(SetState, pid, handle, event, status, resource))
    case MsgGetState(handle) =>
      var k := HandleIndex(s.list, handle);
      (s, StateIs(if k < |s.list| then s.list[k].state else NoState))
    case MsgGetMyState(pid) =>
      var s1 := CheckDeadProcess(s, w);
      (s1, StateIs(ProcessStatus(s1.list, pid, NoState)))
    case MsgEmergentExit(pid) => (EmergentExit(s, pid), Silent)
    case MsgDump => (s, Silent)
  }

  const Initial := State([], {}, {}, Media, [])

  /** The state after a run of messages, each handled amid its own world. */
  function Run(cfg: Config, run: seq<(Message, World)>): State {
    if run == [] then Initial
    else
      var k := |run| - 1;
      Process(cfg, run[k].1, Run(cfg, run[..k]), run[k].0).0
  }

  /** The answers that such a run gives, in order. */
  function Answers(cfg: Config, run: seq<(Message, World)>): seq<Answer> {
    if run == [] then []
    else
      var k := |run| - 1;
      Answers(cfg, run[..k]) + [Process(cfg, run[k].1, Run(cfg, run[..k]), run[k].0).1]
  }
}
