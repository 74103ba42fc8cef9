/** The monitor of a process hears of one pass at most once, however many sounds of
    that process the pass interrupts. */
module AsmMonitors {
  import opened AsmTypes
  import opened AsmModel
  import opened AsmArbitration

  /** Process `pid` has a monitor that was not told to stop yet. */
  predicate HasCleanMonitor(list: seq<Sound>, pid: int) {
    var m := MonitorOf(list, pid);
    m < |list| && !list[m].monitorDirty
  }

  predicate CallsBack(x: Effect, role: Role, pid: int) {
    x.Callback? && x.role == role && x.pid == pid
  }

  /** How many callbacks went to the monitor of `pid` since position `from` of the log. */
  function MonitorCalls(log: seq<Effect>, from: nat, pid: int): nat {
    if |log| <= from then 0
    else MonitorCalls(log[..|log| - 1], from, pid) + if CallsBack(log[|log| - 1], Watcher, pid) then 1 else 0
  }

  /** Some sound of `pid` was called back since then. */
  predicate Disturbed(log: seq<Effect>, from: nat, pid: int) {
    if |log| <= from then false
    else CallsBack(log[|log| - 1], Worker, pid) || Disturbed(log[..|log| - 1], from, pid)
  }

  lemma After(log: seq<Effect>, x: Effect, from: nat, pid: int)
    requires from <= |log|
    ensures MonitorCalls(log + [x], from, pid) ==
              MonitorCalls(log, from, pid) + if CallsBack(x, Watcher, pid) then 1 else 0
    ensures Disturbed(log + [x], from, pid) <==> CallsBack(x, Worker, pid) || Disturbed(log, from, pid)
  {
    assert (log + [x])[..|log|] == log;
  }

  /** A clean monitor becomes dirty, and is called once, with the first disturbance. */
  ghost predicate Tally(clean: bool, s: State, from: nat, pid: int) {
    && from <= |s.log|
    && (HasCleanMonitor(s.list, pid) <==> clean && !Disturbed(s.log, from, pid))
    && MonitorCalls(s.log, from, pid) == if clean && Disturbed(s.log, from, pid) then 1 else 0
  }

  ghost predicate SameMonitors(a: seq<Sound>, b: seq<Sound>) {
    |a| == |b| && forall k :: 0 <= k < |a| ==> SameIdentity(a[k], b[k]) && a[k].monitorDirty == b[k].monitorDirty
  }

  lemma {:induction false} MonitorOfSame(a: seq<Sound>, b: seq<Sound>, pid: int)
    requires SameMonitors(a, b)
    ensures MonitorOf(a, pid) == MonitorOf(b, pid) && HasCleanMonitor(a, pid) == HasCleanMonitor(b, pid)
  {
    var m, n := MonitorOf(a, pid), MonitorOf(b, pid);
    hide MonitorOf;
    if m < |a| { assert SameIdentity(a[m], b[m]); }
    if n < |a| { assert SameIdentity(a[n], b[n]); }
  }

  lemma ChangeStateMonitors(s: State, pid: int, handle: int, status: Status, resource: Bits)
    ensures SameMonitors(s.list, ChangeState(s, pid, handle, status, resource).list)
  {
    hide IndexOf, MonitorOf, HasActiveSound, MaskOf;
  }

  lemma SetResumeMonitors(list: seq<Sound>, pid: int, handle: int, resume: bool)
    ensures SameMonitors(list, SetResume(list, pid, handle, resume))
  {
    hide IndexOf;
  }

  lemma MarkDirtyMonitors(list: seq<Sound>, pid: int, other: int)
    ensures HasCleanMonitor(MarkDirty(list, pid), other) <==> other != pid && HasCleanMonitor(list, other)
  {
    var t := MarkDirty(list, pid);
    var m, n := MonitorOf(list, other), MonitorOf(t, other);
    forall k | 0 <= k < |list| ensures SameIdentity(list[k], t[k]) { }
    hide MonitorOf;
    assert m == n;
  }

  lemma TallySame(clean: bool, s: State, list: seq<Sound>, from: nat, pid: int)
    requires Tally(clean, s, from, pid) && SameMonitors(s.list, list)
    ensures Tally(clean, s.(list := list), from, pid)
  {
    MonitorOfSame(s.list, list, pid);
    hide MonitorCalls, Disturbed, HasCleanMonitor;
  }

  lemma TallyQuiet(clean: bool, s: State, x: Effect, from: nat, pid: int)
    requires Tally(clean, s, from, pid) && (x.Callback? ==> x.pid != pid)
    ensures Tally(clean, s.(log := s.log + [x]), from, pid)
  {
    After(s.log, x, from, pid);
    hide MonitorCalls, Disturbed, HasCleanMonitor;
  }

  /** The callbacks of one strike, seen from process `pid`. */
  lemma TallyStrike(clean: bool, w: World, s: State, v: Sound, command: Command, source: Source, cause: Event,
                    flagMonitor: bool, flag: bool, from: nat, pid: int)
    requires Tally(clean, s, from, pid)
    ensures Tally(clean, Strike(w, s, v, command, source, cause, flagMonitor, flag).0, from, pid)
  {
    hide MonitorCalls, Disturbed, SetResume, MarkDirty, Tally, SameMonitors;
    var m := MonitorOf(s.list, v.pid);
    var s1 := StopMonitor(w, s, v.pid, source, cause, flagMonitor);
    var x := Callback(v.pid, v.handle, command, source, Worker, cause, ReplyTo(w, |s1.log|, command));
    var s2 := s1.(log := s1.log + [x]);
    if HasCleanMonitor(s.list, v.pid) {
      var handle := s.list[m].handle;
      var y := Callback(v.pid, handle, CmdStop, source, Watcher, cause, ReplyTo(w, |s.log|, CmdStop));
      var dirty := MarkDirty(s.list, v.pid);
      assert s1.log == s.log + [y];
      assert s1.list == if flagMonitor then SetResume(dirty, v.pid, handle, true) else dirty;
      TallyClean(clean, s, v.pid, y, x, from, pid);
      SetResumeMonitors(dirty, v.pid, handle, true);
      if flagMonitor { TallySame(clean, s2.(list := dirty), SetResume(dirty, v.pid, handle, true), from, pid); }
    } else {
      assert s1 == s;
      TallyDirty(clean, s, v.pid, x, from, pid);
    }
    SetResumeMonitors(s2.list, v.pid, v.handle, true);
    if flag { TallySame(clean, s2, SetResume(s2.list, v.pid, v.handle, true), from, pid); }
  }

  lemma TallyClean(clean: bool, s: State, victim: int, y: Effect, x: Effect, from: nat, pid: int)
    requires Tally(clean, s, from, pid) && HasCleanMonitor(s.list, victim)
    requires CallsBack(y, Watcher, victim) && CallsBack(x, Worker, victim)
    ensures Tally(clean, s.(list := MarkDirty(s.list, victim), log := s.log + [y] + [x]), from, pid)
  {
    After(s.log, y, from, pid);
    After(s.log + [y], x, from, pid);
    MarkDirtyMonitors(s.list, victim, pid);
    hide MonitorCalls, Disturbed, HasCleanMonitor, MarkDirty;
  }

  lemma TallyDirty(clean: bool, s: State, victim: int, x: Effect, from: nat, pid: int)
    requires Tally(clean, s, from, pid) && !HasCleanMonitor(s.list, victim) && CallsBack(x, Worker, victim)
    ensures Tally(clean, s.(log := s.log + [x]), from, pid)
  {
    After(s.log, x, from, pid);
    hide MonitorCalls, Disturbed, HasCleanMonitor;
  }

  lemma TallyChange(clean: bool, s: State, from: nat, pid: int, own: int, handle: int, status: Status, resource: Bits)
    requires Tally(clean, s, from, pid)
    ensures Tally(clean, ChangeState(s, own, handle, status, resource), from, pid)
  {
    ChangeStateMonitors(s, own, handle, status, resource);
    hide ChangeState, Tally, SameMonitors;
    var t := ChangeState(s, own, handle, status, resource);
    TallySame(clean, s, t.list, from, pid);
    TallyOnly(clean, s.(list := t.list), t, from, pid);
  }

  lemma TallyOnly(clean: bool, s: State, t: State, from: nat, pid: int)
    requires Tally(clean, s, from, pid) && s.list == t.list && s.log == t.log
    ensures Tally(clean, t, from, pid)
  {
  }

  lemma TallyStruck(clean: bool, w: World, s: State, v: Sound, command: Command, source: Source, cause: Event,
                    flagMonitor: bool, flag: bool, status: Status, resource: Bits, from: nat, pid: int)
    requires Tally(clean, s, from, pid)
    ensures var t := Strike(w, s, v, command, source, cause, flagMonitor, flag).0;
            Tally(clean, ChangeState(t, v.pid, v.handle, status, resource), from, pid)
  {
    hide Strike, ChangeState, Tally;
    TallyStrike(clean, w, s, v, command, source, cause, flagMonitor, flag, from, pid);
    TallyChange(clean, Strike(w, s, v, command, source, cause, flagMonitor, flag).0, from, pid,
      v.pid, v.handle, status, resource);
  }

  lemma TallySession(clean: bool, s: State, session: Session, start: bool, from: nat, pid: int)
    requires Tally(clean, s, from, pid)
    ensures Tally(clean, SetSession(s, session, start), from, pid)
  {
    hide Tally;
    TallyQuiet(clean, s, SessionSet(session, start), from, pid);
    var t := SetSession(s, session, start);
    TallyOnly(clean, s.(log := t.log), t, from, pid);
  }

  lemma TallyInterrupt(clean: bool, cfg: Config, w: World, r: Request, s: State, v: Sound, from: nat, pid: int)
    requires Tally(clean, s, from, pid)
    ensures Tally(clean, Interrupt(cfg, w, r, s, v), from, pid)
  {
    hide Strike, SourceOf, ChangeState, Effective, Clash, NeedsResume, IsFmRadio, Tally, SetSession;
    var flag := NeedsResume(r.event);
    if v.pid != r.pid {
      match Effective(cfg, v.event, r.event) {
        case Stop1Play2 =>
          var (s1, reply) := Strike(w, s, v, CmdStop, SourceOf(v, r, false), r.event, flag, flag);
          var status := if reply == ResStop then Stopped else NoState;
          TallyStruck(clean, w, s, v, CmdStop, SourceOf(v, r, false), r.event, flag, flag, status, {}, from, pid);
          TallySession(clean, ChangeState(s1, v.pid, v.handle, status, {}), FmRadio, false, from, pid);
        case Pause1Play2 =>
          var command := if Clash(v.resource, r.resource) then CmdStop else CmdPause;
          var (s1, reply) := Strike(w, s, v, command, SourceOf(v, r, true), r.event, flag, flag);
          TallyStruck(clean, w, s, v, command, SourceOf(v, r, true), r.event, flag, flag,
            if reply == ResPause then Paused else if reply == ResIgnore then Ignored else NoState,
            if reply == ResNone || reply == ResStop then {} else v.resource, from, pid);
        case Mix =>
          if Clash(v.resource, r.resource) {
            var (s1, reply) := Strike(w, s, v, CmdStop, ResourceConflict, r.event, flag, false);
            TallyStruck(clean, w, s, v, CmdStop, ResourceConflict, r.event, flag, false,
              if reply == ResIgnore then Ignored else NoState,
              if reply == ResNone || reply == ResStop then {} else v.resource, from, pid);
          }
        case _ =>
      }
    }
  }

  lemma TallyRegister(clean: bool, s: State, r: Request, from: nat, pid: int)
    requires Tally(clean, s, from, pid) && pid != r.pid
    ensures Tally(clean, RegisterSound(s, r), from, pid)
  {
    var t := RegisterSound(s, r);
    assert t.list[1..] == s.list;
    assert MonitorOf(t.list, pid) == 1 + MonitorOf(s.list, pid);
    hide MonitorOf, MonitorCalls, Disturbed, Tally;
    TallyQuiet(clean, s, Admitted(r.pid, r.handle), from, pid);
    PrependTally(clean, s.(log := t.log), t, from, pid);
  }

  lemma PrependTally(clean: bool, s: State, t: State, from: nat, pid: int)
    requires Tally(clean, s, from, pid) && s.log == t.log && HasCleanMonitor(s.list, pid) == HasCleanMonitor(t.list, pid)
    ensures Tally(clean, t, from, pid)
  {
  }

  lemma TallyRecord(clean: bool, r: Request, s: State, from: nat, pid: int)
    requires Tally(clean, s, from, pid) && pid != r.pid
    ensures Tally(clean, Record(r, s), from, pid)
  {
    hide Tally, ChangeState, RegisterSound;
    if r.kind == Register { TallyRegister(clean, s, r, from, pid); }
    else { TallyChange(clean, s, from, pid, r.pid, r.handle, r.state, r.resource); }
  }

  lemma {:induction false} TallyPass1(clean: bool, cfg: Config, w: World, r: Request, c: Cursor, from: nat, pid: int)
    requires Tally(clean, c.s, from, pid) && pid != r.pid
    ensures Tally(clean, Pass1(cfg, w, r, c).s, from, pid)
    decreases |c.s.list| - c.i
  {
    hide Tally, Interrupt, Record, Effective;
    if c.i < |c.s.list| {
      var v := c.s.list[c.i];
      TallyInterrupt(clean, cfg, w, r, c.s, v, from, pid);
      TallyRecord(clean, r, c.s, from, pid);
      TallyRecord(clean, r, Interrupt(cfg, w, r, c.s, v), from, pid);
      assert Tally(clean, Step1(cfg, w, r, c).s, from, pid);
      Step1Advances(cfg, w, r, c);
      hide Step1;
      TallyPass1(clean, cfg, w, r, Step1(cfg, w, r, c), from, pid);
    }
  }

  lemma {:induction false} TallyPass2(clean: bool, cfg: Config, w: World, r: Request, s: State, i: nat, from: nat, pid: int)
    requires Tally(clean, s, from, pid)
    ensures Tally(clean, Pass2(cfg, w, r, s, i), from, pid)
    decreases |s.list| - i
  {
    hide Tally, Strike, ChangeState, Yields, Clash;
    if i < |s.list| {
      TallyStruck(clean, w, s, s.list[i], CmdStop, ResourceConflict, r.event, false, false, NoState, {}, from, pid);
      TallyChange(clean, s, from, pid, r.pid, r.handle, r.state, r.resource);
      var t := Step2(cfg, w, r, s, i);
      assert Tally(clean, t, from, pid);
      hide Step2;
      TallyPass2(clean, cfg, w, r, t, i + 1, from, pid);
    }
  }

  lemma TallyStart(s: State, pid: int)
    ensures Tally(HasCleanMonitor(s.list, pid), s, |s.log|, pid)
  {
  }

  // ------------------------------------------------- the requester's own process

  /** Nobody of process `pid` was called back since position `from` of the log. */
  ghost predicate Untouched(log: seq<Effect>, from: nat, pid: int) {
    from <= |log| && forall k :: from <= k < |log| ==> !(log[k].Callback? && log[k].pid == pid)
  }

  lemma {:induction false} UntouchedCounts(log: seq<Effect>, from: nat, pid: int)
    requires Untouched(log, from, pid)
    ensures MonitorCalls(log, from, pid) == 0 && !Disturbed(log, from, pid)
  {
    if from < |log| { UntouchedCounts(log[..|log| - 1], from, pid); }
  }

  lemma StrikeUntouched(w: World, s: State, v: Sound, command: Command, source: Source, cause: Event,
                        flagMonitor: bool, flag: bool, from: nat, pid: int)
    requires Untouched(s.log, from, pid) && v.pid != pid
    ensures Untouched(Strike(w, s, v, command, source, cause, flagMonitor, flag).0.log, from, pid)
  {
    hide SetResume, MarkDirty, MonitorOf;
  }

  lemma InterruptUntouched(cfg: Config, w: World, r: Request, s: State, v: Sound, from: nat)
    requires Untouched(s.log, from, r.pid)
    ensures Untouched(Interrupt(cfg, w, r, s, v).log, from, r.pid)
  {
    hide Strike, SourceOf, ChangeState, Effective, Clash, NeedsResume, IsFmRadio;
    var flag := NeedsResume(r.event);
    var command := if Clash(v.resource, r.resource) then CmdStop else CmdPause;
    if v.pid != r.pid {
      StrikeUntouched(w, s, v, CmdStop, SourceOf(v, r, false), r.event, flag, flag, from, r.pid);
      StrikeUntouched(w, s, v, command, SourceOf(v, r, true), r.event, flag, flag, from, r.pid);
      StrikeUntouched(w, s, v, CmdStop, ResourceConflict, r.event, flag, false, from, r.pid);
    }
  }

  lemma RecordUntouched(r: Request, s: State, from: nat)
    requires Untouched(s.log, from, r.pid)
    ensures Untouched(Record(r, s).log, from, r.pid)
  {
    hide ChangeState, MaskOf;
  }

  lemma {:induction false} Pass1Untouched(cfg: Config, w: World, r: Request, c: Cursor, from: nat)
    requires Untouched(c.s.log, from, r.pid)
    ensures Untouched(Pass1(cfg, w, r, c).s.log, from, r.pid)
    decreases |c.s.list| - c.i
  {
    hide Untouched, Interrupt, Record, Effective;
    if c.i < |c.s.list| {
      var v := c.s.list[c.i];
      InterruptUntouched(cfg, w, r, c.s, v, from);
      RecordUntouched(r, c.s, from);
      RecordUntouched(r, Interrupt(cfg, w, r, c.s, v), from);
      assert Untouched(Step1(cfg, w, r, c).s.log, from, r.pid);
      Step1Advances(cfg, w, r, c);
      hide Step1;
      Pass1Untouched(cfg, w, r, Step1(cfg, w, r, c), from);
    }
  }

  /** In the first pass the monitor of a process is called exactly once if the process
      has a clean monitor and the pass interrupts any of its sounds, however many, and
      otherwise not at all; the requester's own process is never interrupted. */
  lemma MonitorCalledOnce(cfg: Config, w: World, r: Request, s: State, pid: int)
    ensures var t := Pass1(cfg, w, r, Cursor(s, 0, false, None)).s;
            MonitorCalls(t.log, |s.log|, pid) ==
              if HasCleanMonitor(s.list, pid) && Disturbed(t.log, |s.log|, pid) then 1 else 0
    ensures !Disturbed(Pass1(cfg, w, r, Cursor(s, 0, false, None)).s.log, |s.log|, r.pid)
  {
    hide Pass1, HasCleanMonitor, Disturbed, MonitorCalls;
    var start := Cursor(s, 0, false, None);
    Pass1Untouched(cfg, w, r, start, |s.log|);
    UntouchedCounts(Pass1(cfg, w, r, start).s.log, |s.log|, r.pid);
    if pid != r.pid {
      TallyStart(s, pid);
      TallyPass1(HasCleanMonitor(s.list, pid), cfg, w, r, start, |s.log|, pid);
    }
  }

  /** The same holds of the pass over the paused sounds, for every process. */
  lemma MonitorCalledOnceForPaused(cfg: Config, w: World, r: Request, s: State, pid: int)
    ensures var t := Pass2(cfg, w, r, s, 0);
            MonitorCalls(t.log, |s.log|, pid) ==
              if HasCleanMonitor(s.list, pid) && Disturbed(t.log, |s.log|, pid) then 1 else 0
  {
    hide Pass2, HasCleanMonitor, Disturbed;
    TallyStart(s, pid);
    TallyPass2(HasCleanMonitor(s.list, pid), cfg, w, r, s, 0, |s.log|, pid);
  }
}
