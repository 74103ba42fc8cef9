/** The outcome of a request: who is interrupted, who is denied, who is evicted. */
module AsmArbitration {
  import opened AsmTypes
  import opened AsmModel

  ghost predicate Unique(list: seq<Sound>) {
    forall j, k :: 0 <= j < k < |list| ==> list[j].handle != list[k].handle
  }

  predicate SameIdentity(a: Sound, b: Sound) {
    a.pid == b.pid && a.handle == b.handle && a.event == b.event
  }

  /** A worker callback to `e`, from position `from` of the log on, was answered IGNORE. */
  ghost predicate IgnoredBy(log: seq<Effect>, from: nat, e: Sound) {
    exists k :: from <= k < |log| && log[k].Callback? && log[k].role == Worker
                && log[k].pid == e.pid && log[k].handle == e.handle && log[k].reply == ResIgnore
  }

  /** From position `from` of the log on, `e` was sent this command, and replied so. */
  ghost predicate Told(log: seq<Effect>, from: nat, e: Sound, command: Command, source: Source, cause: Event,
                       reply: Reply) {
    exists k :: from <= k < |log| && log[k] == Callback(e.pid, e.handle, command, source, Worker, cause, reply)
  }

  /** The policy interrupts `e`: it has to stop or to pause, or may mix but holds a resource
      that the requester wants. */
  predicate MustYield(cfg: Config, r: Request, e: Sound) {
    var p := Effective(cfg, e.event, r.event);
    p == Stop1Play2 || p == Pause1Play2 || (p == Mix && Clash(e.resource, r.resource))
  }

  /** Only a sound that may pause and holds no wanted resource is sent PAUSE. */
  function CommandTo(cfg: Config, r: Request, e: Sound): Command {
    if Effective(cfg, e.event, r.event) == Pause1Play2 && !Clash(e.resource, r.resource) then CmdPause else CmdStop
  }

  function SourceTo(cfg: Config, r: Request, e: Sound): Source {
    match Effective(cfg, e.event, r.event)
    case Mix => ResourceConflict
    case Pause1Play2 => SourceOf(e, r, true)
    case _ => SourceOf(e, r, false)
  }

  /** The cause that an interrupted sound is told: each one exactly when. */
  lemma CauseInWords(v: Sound, r: Request, pausing: bool)
    ensures var source, free := SourceOf(v, r, pausing), !Clash(v.resource, r.resource);
            && (source == ResourceConflict <==> !free)
            && (source == CallStart <==> free && r.event in {Call, RichCall, VideoCall})
            && (source == EarjackUnplugged <==> free && r.event == EarjackUnplug)
            && (source == AlarmStart <==> free && r.event == Alarm)
            && (source == OtherPlayerApp <==> free && pausing && IsMmplayer(v.event) && IsMmplayer(r.event))
            && (source == OtherApp <==> free && !NeedsResume(r.event) && r.event != EarjackUnplug
                                        && !(pausing && IsMmplayer(v.event) && IsMmplayer(r.event)))
  {
    hide Clash;
  }

  /** What its reply makes of an interrupted sound. One that must stop cannot refuse; one
      that replies nothing, or STOP, gives up its resources. */
  function AfterReply(p: Policy, e: Sound, reply: Reply): Sound {
    if p == Stop1Play2 then e.(state := if reply == ResStop then Stopped else NoState, resource := {})
    else
      match reply
      case ResIgnore => e
      case ResPause => e.(state := if p == Pause1Play2 then Paused else NoState)
      case ResNone => e.(state := NoState, resource := {})
      case ResStop => e.(state := NoState, resource := {})
      case _ => e.(state := NoState)
  }

  /** How a playing sound of another process comes out of a request that wants to
      play and is not denied. */
  ghost predicate Settled(cfg: Config, r: Request, e: Sound, f: Sound, log: seq<Effect>, from: nat) {
    var p := Effective(cfg, e.event, r.event);
    && p != Play1Stop2
    && if MustYield(cfg, r, e) then
         exists reply :: Told(log, from, e, CommandTo(cfg, r, e), SourceTo(cfg, r, e), r.event, reply)
                         && SameSound(AfterReply(p, e, reply), f)
       else SameSound(e, f)
  }

  /** In outline: who plays on was spared or answered IGNORE, and only a sound that may
      pause is paused. */
  ghost predicate Yielded(cfg: Config, r: Request, e: Sound, f: Sound, log: seq<Effect>, from: nat) {
    match Effective(cfg, e.event, r.event)
    case Play1Stop2 => false
    case Stop1Play2 => (f.state == Stopped || f.state == NoState) && f.resource == {}
    case Pause1Play2 =>
      || (f.state == Paused && f.resource == e.resource)
      || f.state == NoState
      || (SameSound(e, f) && IgnoredBy(log, from, e))
    case Mix =>
      if Clash(e.resource, r.resource) then f.state == NoState || (SameSound(e, f) && IgnoredBy(log, from, e))
      else SameSound(e, f)
    case _ => SameSound(e, f)
  }

  lemma ToldIgnored(log: seq<Effect>, from: nat, e: Sound, command: Command, source: Source, cause: Event)
    ensures Told(log, from, e, command, source, cause, ResIgnore) ==> IgnoredBy(log, from, e)
  {
  }

  lemma SettledYields(cfg: Config, r: Request, e: Sound, f: Sound, log: seq<Effect>, from: nat)
    requires Settled(cfg, r, e, f, log, from)
    ensures Yielded(cfg, r, e, f, log, from)
  {
    hide Told, IgnoredBy, Effective, Clash, CommandTo, SourceTo;
    if MustYield(cfg, r, e) {
      var reply := ReplyOf(cfg, r, e, f, log, from);
      ToldIgnored(log, from, e, CommandTo(cfg, r, e), SourceTo(cfg, r, e), r.event);
    }
  }

  lemma SettledBy(cfg: Config, r: Request, e: Sound, f: Sound, log: seq<Effect>, from: nat, reply: Reply)
    requires MustYield(cfg, r, e) && Told(log, from, e, CommandTo(cfg, r, e), SourceTo(cfg, r, e), r.event, reply)
    requires SameSound(AfterReply(Effective(cfg, e.event, r.event), e, reply), f)
    ensures Settled(cfg, r, e, f, log, from)
  {
    hide Told, Effective, Clash, CommandTo, SourceTo, AfterReply;
  }

  /** `t` is `s` with only its i-th sound in a new state, and with more effects. */
  ghost predicate OnlyAt(s: State, t: State, i: nat) {
    && |t.list| == |s.list| && i < |s.list|
    && (forall j :: 0 <= j < |s.list| && j != i ==> SameSound(s.list[j], t.list[j]))
    && SameIdentity(s.list[i], t.list[i])
    && s.log <= t.log
  }

  lemma IndexOfUnique(list: seq<Sound>, i: nat)
    requires Unique(list) && i < |list|
    ensures IndexOf(list, list[i].pid, list[i].handle) == i
  {
  }

  lemma StopMonitorKeeps(w: World, s: State, pid: int, source: Source, cause: Event, flag: bool)
    ensures var t := StopMonitor(w, s, pid, source, cause, flag);
            s.log <= t.log && s.playing == t.playing && s.paused == t.paused
  {
  }

  /** Changing the state of a listed sound changes that sound only. */
  lemma ChangeStateOutcome(s: State, s1: State, i: nat, status: Status, resource: Bits)
    requires Unique(s.list) && i < |s.list| && SameSounds(s.list, s1.list) && s.log <= s1.log
    ensures var t := ChangeState(s1, s.list[i].pid, s.list[i].handle, status, resource);
            && OnlyAt(s, t, i) && t.log == s1.log
            && SameSound(if status == Ignored then s.list[i]
                         else s.list[i].(state := status, resource := resource), t.list[i])
  {
    hide ChangeState, IndexOf;
    assert SameSound(s.list[i], s1.list[i]);
    IndexOfUnique(s1.list, i);
  }

  lemma ToldLast(log: seq<Effect>, from: nat, e: Sound, command: Command, source: Source, cause: Event, reply: Reply)
    requires from <= |log|
    ensures Told(log + [Callback(e.pid, e.handle, command, source, Worker, cause, reply)],
                 from, e, command, source, cause, reply)
  {
    var more := log + [Callback(e.pid, e.handle, command, source, Worker, cause, reply)];
    assert more[|log|] == Callback(e.pid, e.handle, command, source, Worker, cause, reply);
  }

  lemma StrikeOutcome(w: World, s: State, v: Sound, command: Command, source: Source, cause: Event,
                      flagMonitor: bool, flag: bool)
    ensures var (t, reply) := Strike(w, s, v, command, source, cause, flagMonitor, flag);
            && SameSounds(s.list, t.list) && s.log <= t.log
            && s.playing == t.playing && s.paused == t.paused && s.session == t.session
            && Told(t.log, |s.log|, v, command, source, cause, reply)
  {
    hide SetResume, StopMonitor, Told, ReplyTo;
    StopMonitorKeeps(w, s, v.pid, source, cause, flagMonitor);
    var s1 := StopMonitor(w, s, v.pid, source, cause, flagMonitor);
    ToldLast(s1.log, |s.log|, v, command, source, cause, ReplyTo(w, |s1.log|, command));
  }

  lemma StopVictimOutcome(cfg: Config, w: World, r: Request, s: State, i: nat)
    requires Unique(s.list) && i < |s.list|
    requires Effective(cfg, s.list[i].event, r.event) == Stop1Play2
    ensures var t := StopVictim(w, r, s, s.list[i]);
            OnlyAt(s, t, i) && Settled(cfg, r, s.list[i], t.list[i], t.log, |s.log|)
  {
    hide Strike, ChangeState, SourceOf, Unique, Told, NeedsResume, Effective, IsFmRadio, Settled;
    var v := s.list[i];
    var flag := NeedsResume(r.event);
    StrikeOutcome(w, s, v, CmdStop, SourceOf(v, r, false), r.event, flag, flag);
    var (s1, reply) := Strike(w, s, v, CmdStop, SourceOf(v, r, false), r.event, flag, flag);
    ChangeStateOutcome(s, s1, i, if reply == ResStop then Stopped else NoState, {});
    var t := StopVictim(w, r, s, v);
    ToldExtends(s1.log, t.log, |s.log|, v, CmdStop, SourceOf(v, r, false), r.event, reply);
    SettledBy(cfg, r, v, t.list[i], t.log, |s.log|, reply);
  }

  lemma ToldExtends(log: seq<Effect>, more: seq<Effect>, from: nat, e: Sound, command: Command, source: Source,
                    cause: Event, reply: Reply)
    requires log <= more
    ensures Told(log, from, e, command, source, cause, reply) ==> Told(more, from, e, command, source, cause, reply)
  {
  }

  lemma PauseVictimOutcome(cfg: Config, w: World, r: Request, s: State, i: nat)
    requires Unique(s.list) && i < |s.list|
    requires Effective(cfg, s.list[i].event, r.event) == Pause1Play2
    ensures var t := PauseVictim(w, r, s, s.list[i]);
            OnlyAt(s, t, i) && Settled(cfg, r, s.list[i], t.list[i], t.log, |s.log|)
  {
    hide Strike, ChangeState, SourceOf, Unique, Told, NeedsResume, Effective, Clash, Settled;
    var v := s.list[i];
    var flag := NeedsResume(r.event);
    var command := if Clash(v.resource, r.resource) then CmdStop else CmdPause;
    StrikeOutcome(w, s, v, command, SourceOf(v, r, true), r.event, flag, flag);
    var (s1, reply) := Strike(w, s, v, command, SourceOf(v, r, true), r.event, flag, flag);
    var status := if reply == ResPause then Paused else if reply == ResIgnore then Ignored else NoState;
    ChangeStateOutcome(s, s1, i, status, if reply == ResNone || reply == ResStop then {} else v.resource);
    SettledBy(cfg, r, v, PauseVictim(w, r, s, v).list[i], s1.log, |s.log|, reply);
  }

  lemma MixVictimOutcome(cfg: Config, w: World, r: Request, s: State, i: nat)
    requires Unique(s.list) && i < |s.list|
    requires Effective(cfg, s.list[i].event, r.event) == Mix
    ensures var t := MixVictim(w, r, s, s.list[i]);
            OnlyAt(s, t, i) && Settled(cfg, r, s.list[i], t.list[i], t.log, |s.log|)
  {
    var v := s.list[i];
    if Clash(v.resource, r.resource) {
      MixClashOutcome(cfg, w, r, s, i);
    } else {
      MixSettled(cfg, r, v, s.log);
    }
    hide Strike, ChangeState, Settled, Effective, Clash, Unique;
  }

  lemma MixSettled(cfg: Config, r: Request, e: Sound, log: seq<Effect>)
    requires Effective(cfg, e.event, r.event) == Mix && !Clash(e.resource, r.resource)
    ensures Settled(cfg, r, e, e, log, |log|)
  {
    hide Told, Effective, Clash;
  }

  lemma MixClashOutcome(cfg: Config, w: World, r: Request, s: State, i: nat)
    requires Unique(s.list) && i < |s.list|
    requires Effective(cfg, s.list[i].event, r.event) == Mix && Clash(s.list[i].resource, r.resource)
    ensures var t := MixVictim(w, r, s, s.list[i]);
            OnlyAt(s, t, i) && Settled(cfg, r, s.list[i], t.list[i], t.log, |s.log|)
  {
    hide Strike, ChangeState, Unique, Told, NeedsResume, Effective, Clash, Settled;
    var v := s.list[i];
    var flag := NeedsResume(r.event);
    StrikeOutcome(w, s, v, CmdStop, ResourceConflict, r.event, flag, false);
    var (s1, reply) := Strike(w, s, v, CmdStop, ResourceConflict, r.event, flag, false);
    ChangeStateOutcome(s, s1, i, if reply == ResIgnore then Ignored else NoState,
      if reply == ResNone || reply == ResStop then {} else v.resource);
    SettledBy(cfg, r, v, MixVictim(w, r, s, v).list[i], s1.log, |s.log|, reply);
  }

  // -------------------------------------------------- one step of the first pass

  predicate Denied(answer: Option<Decision>) {
    answer.Some? && answer.value.command == CmdStop
  }

  predicate Granted(answer: Option<Decision>) {
    answer.Some? && answer.value.command == CmdPlay
  }

  /** No sound holds the handle of a newcomer that is not listed yet. */
  ghost predicate FreshHandle(r: Request, c: Cursor) {
    r.kind == Register && !c.updated ==> forall j :: 0 <= j < |c.s.list| ==> c.s.list[j].handle != r.handle
  }

  /** How many entries were put in front between two cursors of one pass. */
  function Shift(r: Request, c: Cursor, d: Cursor): nat {
    if r.kind == Register && !c.updated && d.updated then 1 else 0
  }

  ghost predicate OwnOutcome(r: Request, recorded: bool, e: Sound, f: Sound) {
    SameSound(if recorded && r.kind == SetState && r.state != Ignored
              then e.(state := r.state, resource := r.resource) else e, f)
  }

  /** What became of the sound at `j` between cursor `c` and the later cursor `d`. */
  ghost predicate Fate(cfg: Config, r: Request, c: Cursor, d: Cursor, j: nat, e: Sound, f: Sound) {
    && SameIdentity(e, f)
    && if IsOwn(e, r) then OwnOutcome(r, !c.updated && d.updated, e, f)
       else if j < c.i || j + Shift(r, c, d) >= d.i || e.pid == r.pid || e.state != Playing || r.state != Playing then
         SameSound(e, f)
        else
         || Settled(cfg, r, e, f, d.s.log, |c.s.log|)
         || (Denied(d.answer) && SameSound(e, f))
  }

  ghost predicate Moved(cfg: Config, r: Request, c: Cursor, d: Cursor) {
    var k := Shift(r, c, d);
    && |d.s.list| == |c.s.list| + k
    && (k == 1 ==> SameSound(NewSound(r), d.s.list[0]))
    && (c.updated ==> d.updated)
    && c.s.log <= d.s.log
    && c.i + k <= d.i <= |d.s.list|
    && forall j :: 0 <= j < |c.s.list| ==> Fate(cfg, r, c, d, j, c.s.list[j], d.s.list[j + k])
  }

  lemma MovedUnique(cfg: Config, r: Request, c: Cursor, d: Cursor)
    requires Unique(c.s.list) && FreshHandle(r, c) && Moved(cfg, r, c, d)
    ensures Unique(d.s.list) && FreshHandle(r, d)
  {
    hide Settled, OwnOutcome;
    var k := Shift(r, c, d);
    assert forall j :: 0 <= j < |c.s.list| ==> c.s.list[j].handle == d.s.list[j + k].handle;
    forall i, j | 0 <= i < j < |d.s.list| ensures d.s.list[i].handle != d.s.list[j].handle {
      assert d.s.list[j].handle == c.s.list[j - k].handle;
      if i >= k { assert d.s.list[i].handle == c.s.list[i - k].handle; }
    }
    if r.kind == Register && !d.updated {
      forall j | 0 <= j < |d.s.list| ensures d.s.list[j].handle != r.handle {
        assert d.s.list[j].handle == c.s.list[j].handle;
      }
    }
  }

  lemma RecordOutcome(r: Request, s: State)
    ensures var t := Record(r, s);
            && s.log <= t.log
            && (r.kind == Register ==> t.list == [NewSound(r)] + s.list)
            && (r.kind == SetState ==>
                 && |t.list| == |s.list|
                 && (Unique(s.list) ==> forall j :: 0 <= j < |s.list| ==>
                       if IsOwn(s.list[j], r) then OwnOutcome(r, true, s.list[j], t.list[j])
                       else SameSound(s.list[j], t.list[j])))
  {
    hide ChangeState, IndexOf;
    if r.kind == SetState && Unique(s.list) {
      forall j | 0 <= j < |s.list| && IsOwn(s.list[j], r) ensures IndexOf(s.list, r.pid, r.handle) == j {
        IndexOfUnique(s.list, j);
      }
    }
  }

  /** Admitting the requester after the sound under the cursor was dealt with. */
  lemma AdmitMoves(cfg: Config, r: Request, c: Cursor, s: State, command: Command)
    requires Unique(c.s.list) && c.i < |c.s.list| && !IsOwn(c.s.list[c.i], r) && OnlyAt(c.s, s, c.i)
    requires c.s.list[c.i].pid == r.pid || r.state != Playing ==> SameSound(c.s.list[c.i], s.list[c.i])
    requires c.s.list[c.i].state == Playing
    requires SameSound(c.s.list[c.i], s.list[c.i])
             || Settled(cfg, r, c.s.list[c.i], s.list[c.i], s.log, |c.s.log|)
    requires c.s.list[c.i].pid != r.pid && r.state == Playing ==>
               Settled(cfg, r, c.s.list[c.i], s.list[c.i], s.log, |c.s.log|)
    ensures Moved(cfg, r, c, Admit(r, c.(s := s), command))
  {
    hide Record, Settled, NewSound, IgnoredBy;
    var d := Admit(r, c.(s := s), command);
    RecordOutcome(r, s);
    assert Unique(s.list);
    SettledExtends(cfg, r, c.s.list[c.i], s.list[c.i], s.log, d.s.log, |c.s.log|);
    var k := Shift(r, c, d);
    forall j | 0 <= j < |c.s.list|
      ensures Fate(cfg, r, c, d, j, c.s.list[j], d.s.list[j + k])
    {
      if !c.updated && r.kind == Register { assert d.s.list[j + 1] == s.list[j]; }
    }
  }

  /** What was settled stays settled while the log grows and the sound stays the same. */
  lemma SettledExtends(cfg: Config, r: Request, e: Sound, f: Sound, log: seq<Effect>, more: seq<Effect>, from: nat)
    requires log <= more
    ensures Settled(cfg, r, e, f, log, from) ==>
              forall g :: SameSound(f, g) ==> Settled(cfg, r, e, g, more, from)
  {
    hide Told, Effective, Clash, CommandTo, SourceTo, AfterReply, MustYield;
    forall reply ensures
      Told(log, from, e, CommandTo(cfg, r, e), SourceTo(cfg, r, e), r.event, reply) ==>
        Told(more, from, e, CommandTo(cfg, r, e), SourceTo(cfg, r, e), r.event, reply)
    {
      ToldExtends(log, more, from, e, CommandTo(cfg, r, e), SourceTo(cfg, r, e), r.event, reply);
    }
  }

  /** The steps that leave every sound as it was: a sound that does not play, the
      requester's own, a denial, and a pair without a policy. */
  lemma StepAside(cfg: Config, r: Request, c: Cursor, d: Cursor)
    requires c.i < |c.s.list| && d.s == c.s && d.updated == c.updated
    requires d.i == c.i + 1 || (d.i == |c.s.list| && Denied(d.answer))
    requires var v := c.s.list[c.i];
             || v.state != Playing || r.state != Playing || v.pid == r.pid || IsOwn(v, r) || Denied(d.answer)
             || !Arbitrates(Effective(cfg, v.event, r.event))
    ensures Moved(cfg, r, c, d)
  {
    hide Effective, Fate, Moved, IsOwn, Arbitrates, Denied;
    forall j: nat | j < |c.s.list| ensures Fate(cfg, r, c, d, j, c.s.list[j], c.s.list[j]) {
      SetAside(cfg, r, c, d, j, c.s.list[j]);
    }
    StillMoved(cfg, r, c, d);
  }

  lemma StillMoved(cfg: Config, r: Request, c: Cursor, d: Cursor)
    requires d.s == c.s && d.updated == c.updated && c.i <= d.i <= |c.s.list|
    requires forall j: nat :: j < |c.s.list| ==> Fate(cfg, r, c, d, j, c.s.list[j], c.s.list[j])
    ensures Moved(cfg, r, c, d)
  {
    hide Fate, NewSound;
  }

  lemma SetAside(cfg: Config, r: Request, c: Cursor, d: Cursor, j: nat, e: Sound)
    requires d.updated == c.updated && (d.i == c.i + 1 || Denied(d.answer))
    requires j == c.i ==> || e.state != Playing || r.state != Playing || e.pid == r.pid || IsOwn(e, r)
                          || Denied(d.answer) || !Arbitrates(Effective(cfg, e.event, r.event))
    ensures Fate(cfg, r, c, d, j, e, e)
  {
    hide Effective, IgnoredBy, Clash;
  }

  lemma InterruptOutcome(cfg: Config, w: World, r: Request, s: State, i: nat)
    requires Unique(s.list) && i < |s.list|
    requires s.list[i].pid != r.pid ==> Effective(cfg, s.list[i].event, r.event) != Play1Stop2
    ensures var v := s.list[i];
            var t := Interrupt(cfg, w, r, s, v);
            && OnlyAt(s, t, i)
            && if v.pid == r.pid then t == s else Settled(cfg, r, v, t.list[i], t.log, |s.log|)
  {
    hide StopVictim, PauseVictim, MixVictim, Effective, IgnoredBy, Unique;
    var v := s.list[i];
    match Effective(cfg, v.event, r.event) {
      case Stop1Play2 => StopVictimOutcome(cfg, w, r, s, i);
      case Pause1Play2 => PauseVictimOutcome(cfg, w, r, s, i);
      case Mix => MixVictimOutcome(cfg, w, r, s, i);
      case _ =>
    }
  }

  lemma Step1Moves(cfg: Config, w: World, r: Request, c: Cursor)
    requires Unique(c.s.list) && c.i < |c.s.list|
    ensures Moved(cfg, r, c, Step1(cfg, w, r, c))
  {
    var v := c.s.list[c.i];
    hide Interrupt, Admit, Effective, Settled, Unique, NewSound, Moved;
    if v.state != Playing || IsOwn(v, r) {
      StepAside(cfg, r, c, Step1(cfg, w, r, c));
    } else if r.state != Playing {
      AdmitMoves(cfg, r, c, c.s, CmdNone);
    } else if Arbitrates(Effective(cfg, v.event, r.event))
              && !(Effective(cfg, v.event, r.event) == Play1Stop2 && v.pid != r.pid) {
      InterruptOutcome(cfg, w, r, c.s, c.i);
      AdmitMoves(cfg, r, c, Interrupt(cfg, w, r, c.s, v), CmdPlay);
    } else {
      StepAside(cfg, r, c, Step1(cfg, w, r, c));
    }
  }

  lemma FateChain(cfg: Config, r: Request, c: Cursor, d: Cursor, x: Cursor, j: nat, e: Sound, f: Sound, g: Sound)
    requires !Denied(d.answer) && (c.updated ==> d.updated) && (d.updated ==> x.updated)
    requires d.s.log <= x.s.log && |c.s.log| <= |d.s.log| && c.i + Shift(r, c, d) <= d.i
    requires d.i + Shift(r, d, x) <= x.i
    requires Fate(cfg, r, c, d, j, e, f) && Fate(cfg, r, d, x, j + Shift(r, c, d), f, g)
    ensures Fate(cfg, r, c, x, j, e, g)
  {
    hide Settled;
    SettledExtends(cfg, r, e, f, d.s.log, x.s.log, |c.s.log|);
    SettledFrom(cfg, r, e, f, g, x.s.log, |c.s.log|, |d.s.log|);
  }

  lemma SettledFrom(cfg: Config, r: Request, e: Sound, f: Sound, g: Sound, log: seq<Effect>, from: nat, later: nat)
    ensures from <= later && SameSound(e, f) && Settled(cfg, r, f, g, log, later) ==> Settled(cfg, r, e, g, log, from)
  {
    hide Settled;
    if from <= later && SameSound(e, f) && Settled(cfg, r, f, g, log, later) {
      SettledOfSame(cfg, r, e, f, g, log, from, later);
    }
  }

  lemma SettledOfSame(cfg: Config, r: Request, e: Sound, f: Sound, g: Sound, log: seq<Effect>, from: nat, later: nat)
    requires from <= later && SameSound(e, f) && Settled(cfg, r, f, g, log, later)
    ensures Settled(cfg, r, e, g, log, from)
  {
    SameTerms(cfg, r, e, f);
    if MustYield(cfg, r, f) {
      hide Settled, Told, Effective, Clash, CommandTo, SourceTo, MustYield, AfterReply;
      var reply := ReplyOf(cfg, r, f, g, log, later);
      ToldFrom(log, from, later, e, f, CommandTo(cfg, r, e), SourceTo(cfg, r, e), r.event, reply);
      AfterSame(Effective(cfg, e.event, r.event), e, f, reply);
      SettledBy(cfg, r, e, g, log, from, reply);
    } else {
      hide Told, Effective, Clash, CommandTo, SourceTo, MustYield, AfterReply;
    }
  }

  lemma ReplyOf(cfg: Config, r: Request, e: Sound, f: Sound, log: seq<Effect>, from: nat) returns (reply: Reply)
    requires MustYield(cfg, r, e) && Settled(cfg, r, e, f, log, from)
    ensures Told(log, from, e, CommandTo(cfg, r, e), SourceTo(cfg, r, e), r.event, reply)
    ensures SameSound(AfterReply(Effective(cfg, e.event, r.event), e, reply), f)
  {
    hide Told, Effective, Clash, CommandTo, SourceTo, MustYield, AfterReply;
    reply :| Told(log, from, e, CommandTo(cfg, r, e), SourceTo(cfg, r, e), r.event, reply)
             && SameSound(AfterReply(Effective(cfg, e.event, r.event), e, reply), f);
  }

  lemma AfterSame(p: Policy, e: Sound, f: Sound, reply: Reply)
    ensures SameSound(e, f) ==> SameSound(AfterReply(p, e, reply), AfterReply(p, f, reply))
  {
  }

  lemma SameTerms(cfg: Config, r: Request, e: Sound, f: Sound)
    requires SameSound(e, f)
    ensures MustYield(cfg, r, e) == MustYield(cfg, r, f)
    ensures CommandTo(cfg, r, e) == CommandTo(cfg, r, f) && SourceTo(cfg, r, e) == SourceTo(cfg, r, f)
  {
    hide Effective, Clash;
  }

  lemma ToldFrom(log: seq<Effect>, from: nat, later: nat, e: Sound, f: Sound, command: Command, source: Source,
                 cause: Event, reply: Reply)
    requires from <= later && SameIdentity(e, f)
    ensures Told(log, later, f, command, source, cause, reply) ==> Told(log, from, e, command, source, cause, reply)
  {
  }

  lemma MovedChain(cfg: Config, r: Request, c: Cursor, d: Cursor, x: Cursor)
    requires Moved(cfg, r, c, d) && Moved(cfg, r, d, x) && !Denied(d.answer)
    ensures Moved(cfg, r, c, x)
  {
    var k := Shift(r, c, d);
    var l := Shift(r, d, x);
    forall j | 0 <= j < |c.s.list| ensures Fate(cfg, r, c, x, j, c.s.list[j], x.s.list[j + Shift(r, c, x)]) {
      assert Fate(cfg, r, d, x, j + k, d.s.list[j + k], x.s.list[j + k + l]);
      hide Fate;
      FateChain(cfg, r, c, d, x, j, c.s.list[j], d.s.list[j + k], x.s.list[j + k + l]);
    }
    if k == 1 {
      assert Fate(cfg, r, d, x, 0, d.s.list[0], x.s.list[0]);
      hide Settled;
    }
  }

  // ------------------------------------------------------- the whole first pass

  /** A playing sound of another process turns the requester down. */
  predicate Denies(cfg: Config, r: Request, e: Sound) {
    r.state == Playing && e.state == Playing && e.pid != r.pid && Effective(cfg, e.event, r.event) == Play1Stop2
  }

  lemma {:induction false} Pass1Moves(cfg: Config, w: World, r: Request, c: Cursor)
    requires Unique(c.s.list) && FreshHandle(r, c) && c.i <= |c.s.list| && !Denied(c.answer)
    ensures var x := Pass1(cfg, w, r, c);
            Moved(cfg, r, c, x) && x.i == |x.s.list| && Unique(x.s.list) && FreshHandle(r, x)
    decreases |c.s.list| - c.i
  {
    hide Step1, Settled, NewSound;
    if c.i < |c.s.list| {
      var d := Step1(cfg, w, r, c);
      Step1Moves(cfg, w, r, c);
      MovedUnique(cfg, r, c, d);
      Step1Advances(cfg, w, r, c);
      Step1Denial(cfg, w, r, c);
      hide Fate;
      if !Denied(d.answer) {
        Pass1Moves(cfg, w, r, d);
        MovedChain(cfg, r, c, d, Pass1(cfg, w, r, d));
      }
    }
    MovedUnique(cfg, r, c, Pass1(cfg, w, r, c));
  }

  lemma Step1Denial(cfg: Config, w: World, r: Request, c: Cursor)
    requires c.i < |c.s.list| && !Denied(c.answer)
    ensures var d := Step1(cfg, w, r, c);
            && (Denied(d.answer) <==> Denies(cfg, r, c.s.list[c.i]))
            && (Denied(d.answer) ==> d.i == |d.s.list|)
            && (Granted(d.answer) ==> Granted(c.answer) || d.updated)
            && (c.answer.Some? || Meets(r, c.s.list[c.i]) ==> d.answer.Some?)
  {
    hide Interrupt, Record, Effective;
  }

  lemma {:induction false} Pass1Answer(cfg: Config, w: World, r: Request, c: Cursor)
    requires Unique(c.s.list) && FreshHandle(r, c) && c.i <= |c.s.list| && !Denied(c.answer)
    requires Granted(c.answer) ==> c.updated
    ensures var x := Pass1(cfg, w, r, c);
            && (Denied(x.answer) <==> exists j :: c.i <= j < |c.s.list| && Denies(cfg, r, c.s.list[j]))
            && (Granted(x.answer) ==> x.updated)
            && (c.answer.Some? || (exists j :: c.i <= j < |c.s.list| && Meets(r, c.s.list[j]))
                ==> x.answer.Some?)
    decreases |c.s.list| - c.i
  {
    hide Step1, Settled, NewSound, Denies, Meets, Unique, FreshHandle;
    if c.i < |c.s.list| {
      var d := Step1(cfg, w, r, c);
      Step1Moves(cfg, w, r, c);
      MovedUnique(cfg, r, c, d);
      Step1Advances(cfg, w, r, c);
      Step1Denial(cfg, w, r, c);
      if !Denied(d.answer) {
        LaterSame(cfg, w, r, c);
        hide Fate;
        Pass1Answer(cfg, w, r, d);
      }
    }
  }

  /** A sound that plays and is not the requester's own, so that a step answers at it. */
  predicate Meets(r: Request, e: Sound) {
    e.state == Playing && !IsOwn(e, r)
  }

  lemma Shifted(cfg: Config, r: Request, a: seq<Sound>, i: nat, b: seq<Sound>, k: nat)
    requires |b| == |a| + k
    requires forall j :: i <= j < |a| ==> (Denies(cfg, r, a[j]) <==> Denies(cfg, r, b[j + k]))
    requires forall j :: i <= j < |a| && Meets(r, a[j]) ==> Meets(r, b[j + k])
    ensures (exists j :: i <= j < |a| && Denies(cfg, r, a[j])) <==> (exists j :: i + k <= j < |b| && Denies(cfg, r, b[j]))
    ensures (exists j :: i <= j < |a| && Meets(r, a[j])) ==> exists j :: i + k <= j < |b| && Meets(r, b[j])
  {
    hide Denies, Meets;
    if j :| i + k <= j < |b| && Denies(cfg, r, b[j]) { assert Denies(cfg, r, a[j - k]); }
    if j :| i <= j < |a| && Denies(cfg, r, a[j]) { assert Denies(cfg, r, b[j + k]); }
    if j :| i <= j < |a| && Meets(r, a[j]) { assert Meets(r, b[j + k]); }
  }

  /** A step leaves the sounds after the cursor to the steps that follow. */
  lemma LaterSame(cfg: Config, w: World, r: Request, c: Cursor)
    requires Unique(c.s.list) && FreshHandle(r, c) && c.i < |c.s.list| && !Denied(c.answer)
    requires !Denied(Step1(cfg, w, r, c).answer)
    ensures var d := Step1(cfg, w, r, c);
            && ((exists j :: c.i < j < |c.s.list| && Denies(cfg, r, c.s.list[j]))
                <==> (exists j :: d.i <= j < |d.s.list| && Denies(cfg, r, d.s.list[j])))
            && ((exists j :: c.i < j < |c.s.list| && Meets(r, c.s.list[j]))
                ==> exists j :: d.i <= j < |d.s.list| && Meets(r, d.s.list[j]))
  {
    hide Settled, NewSound, Effective, Step1, Unique, FreshHandle;
    var d := Step1(cfg, w, r, c);
    Step1Moves(cfg, w, r, c);
    StepWidth(cfg, w, r, c);
    var k := Shift(r, c, d);
    forall j | c.i + 1 <= j < |c.s.list|
      ensures Denies(cfg, r, c.s.list[j]) <==> Denies(cfg, r, d.s.list[j + k])
      ensures Meets(r, c.s.list[j]) ==> Meets(r, d.s.list[j + k])
    {
      assert Fate(cfg, r, c, d, j, c.s.list[j], d.s.list[j + k]);
    }
    hide Denies, Meets, Moved;
    Shifted(cfg, r, c.s.list, c.i + 1, d.s.list, k);
  }

  lemma StepWidth(cfg: Config, w: World, r: Request, c: Cursor)
    requires c.i < |c.s.list| && !Denied(c.answer)
    ensures var d := Step1(cfg, w, r, c); !Denied(d.answer) ==> d.i == c.i + 1 + Shift(r, c, d)
  {
    hide Interrupt, Record, Effective;
  }
}
