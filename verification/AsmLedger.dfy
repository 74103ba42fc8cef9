/** The history of callbacks: a sound is resumed only after a call or an alarm
    interrupted it, and the end of the interruption resumes every flagged sound. */
module AsmLedger {
  import opened AsmTypes
  import opened AsmModel
  import opened AsmArbitration
  import opened AsmCache
  import opened AsmOutcome
  import opened AsmRuns

  // ------------------------------------------------------------ what is kept

  /** The same sounds with the same resume and dirty flags. */
  ghost predicate SameFlags(a: seq<Sound>, b: seq<Sound>) {
    |a| == |b| && forall k :: 0 <= k < |a| ==>
      SameIdentity(a[k], b[k]) && a[k].resume == b[k].resume && a[k].monitorDirty == b[k].monitorDirty
  }

  lemma ChangeStateFlags(s: State, pid: int, handle: int, status: Status, resource: Bits)
    ensures SameFlags(s.list, ChangeState(s, pid, handle, status, resource).list)
  {
    hide IndexOf, MonitorOf, HasActiveSound, MaskOf;
  }

  // ---------------------------------------------------------------- the ledger

  /** An interruption that is to be made good when its cause ends. */
  predicate Interrupts(x: Effect, pid: int, handle: int) {
    && x.Callback? && x.pid == pid && x.handle == handle
    && (x.command == CmdStop || x.command == CmdPause) && NeedsResume(x.cause)
  }

  predicate Resumes(x: Effect, pid: int, handle: int) {
    x.Callback? && x.pid == pid && x.handle == handle && x.command == CmdResume
  }

  /** The last word to that sound, since it was admitted or last resumed, is an interruption. */
  predicate Armed(log: seq<Effect>, pid: int, handle: int) {
    if log == [] then false
    else
      var x := log[|log| - 1];
      if Interrupts(x, pid, handle) then true
      else if Resumes(x, pid, handle) || x == Admitted(pid, handle) then false
      else Armed(log[..|log| - 1], pid, handle)
  }

  lemma ArmedAfter(log: seq<Effect>, x: Effect, pid: int, handle: int)
    ensures Armed(log + [x], pid, handle) ==
            (Interrupts(x, pid, handle)
             || (!Resumes(x, pid, handle) && x != Admitted(pid, handle) && Armed(log, pid, handle)))
  {
    assert (log + [x])[..|log|] == log;
  }

  /** Flagged sounds are armed, and every RESUME so far went to a sound that was. */
  ghost predicate Ledger(list: seq<Sound>, log: seq<Effect>) {
    && (forall k :: 0 <= k < |list| && list[k].resume ==> Armed(log, list[k].pid, list[k].handle))
    && (forall j :: 0 <= j < |log| && log[j].Callback? && log[j].command == CmdResume ==>
          Armed(log[..j], log[j].pid, log[j].handle))
  }

  lemma LedgerAfter(list: seq<Sound>, log: seq<Effect>, x: Effect)
    requires Ledger(list, log)
    requires x.Callback? && x.command == CmdResume ==> Armed(log, x.pid, x.handle)
    requires forall k :: 0 <= k < |list| && list[k].resume ==>
               !Resumes(x, list[k].pid, list[k].handle) && x != Admitted(list[k].pid, list[k].handle)
    ensures Ledger(list, log + [x])
  {
    hide Armed, Interrupts;
    forall k | 0 <= k < |list| && list[k].resume ensures Armed(log + [x], list[k].pid, list[k].handle) {
      ArmedAfter(log, x, list[k].pid, list[k].handle);
    }
    forall j | 0 <= j < |log + [x]| && (log + [x])[j].Callback? && (log + [x])[j].command == CmdResume
      ensures Armed((log + [x])[..j], (log + [x])[j].pid, (log + [x])[j].handle)
    {
      assert (log + [x])[..j] == log[..j];
      if j == |log| { assert log[..j] == log; }
    }
  }

  lemma LedgerRing(w: World, s: State, list: seq<Sound>, pid: int, handle: int, command: Command,
                   source: Source, role: Role, cause: Event)
    requires Ledger(list, s.log) && (command == CmdStop || command == CmdPause)
    ensures var t := Ring(w, s, pid, handle, command, source, role, cause);
            Ledger(list, t.log) && (NeedsResume(cause) ==> Armed(t.log, pid, handle))
  {
    hide NeedsResume, Armed, Ledger;
    var x := Callback(pid, handle, command, source, role, cause, ReplyTo(w, |s.log|, command));
    LedgerAfter(list, s.log, x);
    ArmedAfter(s.log, x, pid, handle);
  }

  lemma LedgerSame(a: seq<Sound>, b: seq<Sound>, log: seq<Effect>)
    requires Ledger(a, log) && SameFlags(a, b)
    ensures Ledger(b, log)
  {
    hide Armed;
  }

  lemma LedgerFlag(list: seq<Sound>, log: seq<Effect>, pid: int, handle: int)
    requires Ledger(list, log) && Armed(log, pid, handle)
    ensures Ledger(SetResume(list, pid, handle, true), log)
  {
    hide Armed;
  }

  lemma LedgerDirty(list: seq<Sound>, log: seq<Effect>, pid: int)
    requires Ledger(list, log)
    ensures Ledger(MarkDirty(list, pid), log)
  {
    hide Armed;
  }

  lemma LedgerStopMonitor(w: World, s: State, pid: int, source: Source, cause: Event, flag: bool)
    requires Ledger(s.list, s.log) && (flag ==> NeedsResume(cause))
    ensures var t := StopMonitor(w, s, pid, source, cause, flag); Ledger(t.list, t.log)
  {
    hide Ledger, NeedsResume, Armed, SetResume, MarkDirty;
    var m := MonitorOf(s.list, pid);
    if m < |s.list| && !s.list[m].monitorDirty {
      var handle := s.list[m].handle;
      LedgerRing(w, s, s.list, pid, handle, CmdStop, source, Watcher, cause);
      var s1 := Ring(w, s, pid, handle, CmdStop, source, Watcher, cause);
      LedgerDirty(s1.list, s1.log, pid);
      if flag { LedgerFlag(MarkDirty(s1.list, pid), s1.log, pid, handle); }
    }
  }

  lemma LedgerStrike(w: World, s: State, v: Sound, command: Command, source: Source, cause: Event,
                     flagMonitor: bool, flag: bool, status: Status, resource: Bits)
    requires Ledger(s.list, s.log) && (command == CmdStop || command == CmdPause)
    requires flagMonitor || flag ==> NeedsResume(cause)
    ensures var s1 := Strike(w, s, v, command, source, cause, flagMonitor, flag).0;
            var t := ChangeState(s1, v.pid, v.handle, status, resource);
            Ledger(t.list, t.log)
  {
    hide Ledger, NeedsResume, Armed, SetResume, ChangeState, StopMonitor;
    LedgerStopMonitor(w, s, v.pid, source, cause, flagMonitor);
    var s1 := StopMonitor(w, s, v.pid, source, cause, flagMonitor);
    LedgerRing(w, s1, s1.list, v.pid, v.handle, command, source, Worker, cause);
    var s2 := Ring(w, s1, v.pid, v.handle, command, source, Worker, cause);
    if flag { LedgerFlag(s2.list, s2.log, v.pid, v.handle); }
    var s3 := Strike(w, s, v, command, source, cause, flagMonitor, flag).0;
    ChangeStateFlags(s3, v.pid, v.handle, status, resource);
    LedgerSame(s3.list, ChangeState(s3, v.pid, v.handle, status, resource).list, s3.log);
  }

  lemma LedgerInterrupt(cfg: Config, w: World, r: Request, s: State, v: Sound)
    requires Ledger(s.list, s.log)
    ensures var t := Interrupt(cfg, w, r, s, v); Ledger(t.list, t.log)
  {
    hide Strike, SourceOf, ChangeState, Effective, Clash, NeedsResume, IsFmRadio, Ledger;
    var flag := NeedsResume(r.event);
    if v.pid != r.pid {
      match Effective(cfg, v.event, r.event) {
        case Stop1Play2 =>
          var (s1, reply) := Strike(w, s, v, CmdStop, SourceOf(v, r, false), r.event, flag, flag);
          var status := if reply == ResStop then Stopped else NoState;
          LedgerStrike(w, s, v, CmdStop, SourceOf(v, r, false), r.event, flag, flag, status, {});
          LedgerSession(ChangeState(s1, v.pid, v.handle, status, {}), FmRadio, false);
        case Pause1Play2 =>
          var command := if Clash(v.resource, r.resource) then CmdStop else CmdPause;
          var (s1, reply) := Strike(w, s, v, command, SourceOf(v, r, true), r.event, flag, flag);
          LedgerStrike(w, s, v, command, SourceOf(v, r, true), r.event, flag, flag,
            if reply == ResPause then Paused else if reply == ResIgnore then Ignored else NoState,
            if reply == ResNone || reply == ResStop then {} else v.resource);
        case Mix =>
          if Clash(v.resource, r.resource) {
            var (s1, reply) := Strike(w, s, v, CmdStop, ResourceConflict, r.event, flag, false);
            LedgerStrike(w, s, v, CmdStop, ResourceConflict, r.event, flag, false,
              if reply == ResIgnore then Ignored else NoState,
              if reply == ResNone || reply == ResStop then {} else v.resource);
          }
        case _ =>
      }
    }
  }

  lemma LedgerSession(s: State, session: Session, start: bool)
    requires Ledger(s.list, s.log)
    ensures Ledger(s.list, SetSession(s, session, start).log)
  {
    hide Ledger;
    LedgerAfter(s.list, s.log, SessionSet(session, start));
  }

  lemma LedgerRecord(r: Request, s: State)
    requires Ledger(s.list, s.log) && (r.kind == Register ==> !Taken(s.list, r.handle))
    ensures var t := Record(r, s); Ledger(t.list, t.log)
  {
    if r.kind == Register {
      LedgerAfter(s.list, s.log, Admitted(r.pid, r.handle));
      hide Armed, MaskOf;
      var t := Record(r, s);
      forall k | 0 <= k < |t.list| && t.list[k].resume ensures Armed(t.log, t.list[k].pid, t.list[k].handle) {
        assert t.list[k] == s.list[k - 1];
      }
    } else {
      hide Ledger, ChangeState;
      ChangeStateFlags(s, r.pid, r.handle, r.state, r.resource);
      LedgerSame(s.list, ChangeState(s, r.pid, r.handle, r.state, r.resource).list, s.log);
    }
  }

  lemma LedgerStep1(cfg: Config, w: World, r: Request, c: Cursor)
    requires Unique(c.s.list) && FreshHandle(r, c) && c.i < |c.s.list| && Ledger(c.s.list, c.s.log)
    ensures var d := Step1(cfg, w, r, c); Ledger(d.s.list, d.s.log)
  {
    hide Ledger, Interrupt, Record, Effective, Settled, IgnoredBy;
    var v := c.s.list[c.i];
    LedgerInterrupt(cfg, w, r, c.s, v);
    if v.pid == r.pid || Effective(cfg, v.event, r.event) != Play1Stop2 {
      InterruptOutcome(cfg, w, r, c.s, c.i);
    }
    hide Unique;
    if !c.updated {
      var t := Interrupt(cfg, w, r, c.s, v);
      if r.kind == Register ==> !Taken(t.list, r.handle) { LedgerRecord(r, t); }
      LedgerRecord(r, c.s);
    }
  }

  lemma {:induction false} LedgerPass1(cfg: Config, w: World, r: Request, c: Cursor)
    requires Unique(c.s.list) && FreshHandle(r, c) && c.i <= |c.s.list| && !Denied(c.answer)
    requires Ledger(c.s.list, c.s.log)
    ensures var x := Pass1(cfg, w, r, c); Ledger(x.s.list, x.s.log)
    decreases |c.s.list| - c.i
  {
    hide Step1, Ledger, Unique, FreshHandle, Denies;
    if c.i < |c.s.list| {
      var d := Step1(cfg, w, r, c);
      LedgerStep1(cfg, w, r, c);
      Step1Moves(cfg, w, r, c);
      MovedUnique(cfg, r, c, d);
      Step1Advances(cfg, w, r, c);
      Step1Denial(cfg, w, r, c);
      if !Denied(d.answer) {
        LedgerPass1(cfg, w, r, d);
      }
    }
  }

  lemma {:induction false} LedgerPass2(cfg: Config, w: World, r: Request, s: State, i: nat)
    requires Ledger(s.list, s.log)
    ensures var t := Pass2(cfg, w, r, s, i); Ledger(t.list, t.log)
    decreases |s.list| - i
  {
    hide Ledger, Strike, ChangeState, Yields, Clash;
    if i < |s.list| {
      LedgerStrike(w, s, s.list[i], CmdStop, ResourceConflict, r.event, false, false, NoState, {});
      ChangeStateFlags(s, r.pid, r.handle, r.state, r.resource);
      LedgerSame(s.list, ChangeState(s, r.pid, r.handle, r.state, r.resource).list, s.log);
      var t := Step2(cfg, w, r, s, i);
      assert Ledger(t.list, t.log);
      hide Step2;
      LedgerPass2(cfg, w, r, t, i + 1);
    }
  }

  lemma LedgerClean(list: seq<Sound>, log: seq<Effect>)
    requires Ledger(list, log)
    ensures Ledger(CleanMonitors(list), log)
  {
    hide Armed;
  }

  lemma LedgerTwoPasses(cfg: Config, w: World, r: Request, s: State)
    requires Ready(r, s) && Ledger(s.list, s.log)
    ensures var t := TwoPasses(cfg, w, r, s).0; Ledger(t.list, t.log)
  {
    hide Ledger, Pass1, Pass2;
    LedgerPass1(cfg, w, r, Start(s));
    var x := Pass1(cfg, w, r, Start(s));
    LedgerClean(x.s.list, x.s.log);
    LedgerPass2(cfg, w, r, FirstPass(cfg, w, r, s).0, 0);
  }

  lemma LedgerCompare(cfg: Config, w: World, r: Request, s: State)
    requires Ready(r, s) && Ledger(s.list, s.log)
    ensures var t := Compare(cfg, w, r, s).0; Ledger(t.list, t.log)
  {
    hide Ledger, Compare, Record;
    CompareIsTwoPasses(cfg, w, r, s);
    LedgerTwoPasses(cfg, w, r, s);
    if s.playing == {} {
      var s2 := TwoPasses(cfg, w, r, s).0;
      if r.kind == Register { NotTakenAfter(cfg, w, r, s); }
      LedgerRecord(r, s2);
    }
  }

  lemma NotTakenAfter(cfg: Config, w: World, r: Request, s: State)
    requires Ready(r, s) && s.playing == {} && r.kind == Register
    ensures !Taken(TwoPasses(cfg, w, r, s).0.list, r.handle)
  {
    hide Pass2, Cached;
    Pass2Outcome(cfg, w, r, s, 0);
    var t := TwoPasses(cfg, w, r, s).0;
    forall j | 0 <= j < |t.list| ensures t.list[j].handle == s.list[j].handle { }
  }

  lemma LedgerSub(a: seq<Sound>, b: seq<Sound>, log: seq<Effect>)
    requires Ledger(a, log) && forall x :: x in b ==> x in a
    ensures Ledger(b, log)
  {
    hide Armed;
    forall k | 0 <= k < |b| && b[k].resume ensures Armed(log, b[k].pid, b[k].handle) {
      assert b[k] in a;
    }
  }

  lemma LedgerResumeOne(w: World, s: State, i: nat, source: Source, cause: Event)
    requires Unique(s.list) && Ledger(s.list, s.log) && i < |s.list| && s.list[i].resume
    ensures var v := s.list[i];
            var t := Ring(w, s, v.pid, v.handle, CmdResume, source, Worker, cause);
            Ledger(s.list[i := v.(resume := false)], t.log)
  {
    hide Armed;
    var v := s.list[i];
    var list := s.list[i := v.(resume := false)];
    LedgerAfter(list, s.log, Callback(v.pid, v.handle, CmdResume, source, Worker, cause, ReplyTo(w, |s.log|, CmdResume)));
  }

  lemma {:induction false} LedgerResumeAll(w: World, s: State, i: nat, source: Source, cause: Event)
    requires Unique(s.list) && Ledger(s.list, s.log)
    ensures var t := ResumeAll(w, s, i, source, cause); Ledger(t.list, t.log)
    decreases |s.list| - i
  {
    if i < |s.list| {
      if s.list[i].resume {
        LedgerResumeOne(w, s, i, source, cause);
        hide Ledger;
        var v := s.list[i];
        var s1 := Ring(w, s, v.pid, v.handle, CmdResume, source, Worker, cause);
        LedgerResumeAll(w, s1.(list := s1.list[i := v.(resume := false)]), i + 1, source, cause);
      } else {
        LedgerResumeAll(w, s, i + 1, source, cause);
      }
    }
  }

  lemma LedgerRemoved(s: State, handle: int)
    requires Ledger(s.list, s.log)
    ensures var t := Unregister(s, handle); Ledger(t.list, t.log)
  {
    LedgerSub(s.list, Unregister(s, handle).list, s.log);
    hide Ledger, MaskOf;
  }

  lemma LedgerUnregister(cfg: Config, w: World, s: State, handle: int, event: Event)
    requires Inv(cfg, s) && Ledger(s.list, s.log)
    ensures var t := OnUnregister(w, s, handle, event); Ledger(t.list, t.log)
  {
    UnregisterInv(cfg, s, handle);
    var s1 := Unregister(s, handle);
    LedgerRemoved(s, handle);
    hide Unregister, Ledger, ResumeAll, Unique, Cached, InRange;
    var session := if event == VideoCall then Voip else if event == Alarm then Notification else VoiceCall;
    LedgerSession(s1, session, false);
    LedgerResumeAll(w, SetSession(s1, session, false), 0, if event == Alarm then AlarmEnd else CallEnd, event);
  }

  lemma LedgerRegister(cfg: Config, w: World, s: State, m: Message)
    requires Inv(cfg, s) && Ledger(s.list, s.log) && m.MsgRegister?
    ensures var t := Process(cfg, w, s, m).0; Ledger(t.list, t.log)
  {
    DeadProcessInv(cfg, w, s);
    var s1 := CheckDeadProcess(s, w);
    LedgerPurge(s, w);
    hide CheckDeadProcess, Compare, Cached, LeastFree, SetSession, InRange, Ledger;
    var handle := LeastFree(s1.list, 0, cfg.maxHandles);
    LeastFreeMeaning(s1.list, 0, cfg.maxHandles);
    if handle != -1 {
      var r := Request(Register, m.pid, handle, m.event, m.state, m.resource);
      LedgerCompare(cfg, w, r, s1);
      var t := Compare(cfg, w, r, s1).0;
      LedgerSession(t, VoiceCall, true);
      LedgerSession(t, Voip, true);
    }
  }

  lemma LedgerSetState(cfg: Config, w: World, s: State, r: Request)
    requires Inv(cfg, s) && Ledger(s.list, s.log) && r.kind == SetState
    ensures var t := OnSetState(cfg, w, s, r).0; Ledger(t.list, t.log)
  {
    DeadProcessInv(cfg, w, s);
    LedgerPurge(s, w);
    hide CheckDeadProcess, Ledger, Inv, OnPlay;
    var s1 := CheckDeadProcess(s, w);
    LedgerChange(s1, r);
    LedgerPlay(cfg, w, s1, r);
  }

  lemma LedgerPurge(s: State, w: World)
    requires Ledger(s.list, s.log)
    ensures var t := CheckDeadProcess(s, w); Ledger(t.list, t.log)
  {
    hide Ledger, Survivors, PidExists, MaskOf;
    SurvivorsMembers(s.list, w);
    LedgerSub(s.list, CheckDeadProcess(s, w).list, s.log);
  }

  lemma LedgerChange(s: State, r: Request)
    requires Ledger(s.list, s.log)
    ensures var t := ChangeState(s, r.pid, r.handle, r.state, r.resource);
            var u := OnOther(s, r);
            Ledger(t.list, t.log) && Ledger(u.list, u.log)
  {
    hide Ledger, ChangeState;
    var t := ChangeState(s, r.pid, r.handle, r.state, r.resource);
    ChangeStateFlags(s, r.pid, r.handle, r.state, r.resource);
    LedgerSame(s.list, t.list, s.log);
    LedgerSession(t, FmRadio, false);
  }

  lemma LedgerPlay(cfg: Config, w: World, s: State, r: Request)
    requires Inv(cfg, s) && Ledger(s.list, s.log) && r.kind == SetState
    ensures var t := OnPlay(cfg, w, s, r).0; Ledger(t.list, t.log)
  {
    hide Ledger, Compare, Unique, Cached, InRange, ChangeState;
    if IsPlayingNow(s.list, r.pid, r.handle) {
      LedgerChange(s, r);
    } else {
      LedgerCompare(cfg, w, r, s);
      var u := Compare(cfg, w, r, s).0;
      LedgerSession(u, Notification, true);
      LedgerSession(u, FmRadio, true);
    }
    hide IsPlayingNow;
  }

  lemma LedgerProcess(cfg: Config, w: World, s: State, m: Message)
    requires Inv(cfg, s) && Ledger(s.list, s.log)
    ensures var t := Process(cfg, w, s, m).0; Ledger(t.list, t.log)
  {
    hide OnSetState, OnUnregister, Cached, Ledger, OnRegister, Unique;
    match m {
      case MsgRegister(_, _, _, _) => LedgerRegister(cfg, w, s, m);
      case MsgUnregister(handle, event) => LedgerUnregister(cfg, w, s, handle, event);
      case MsgSetState(pid, handle, event, status, resource) =>
        LedgerSetState(cfg, w, s, Request(SetState, pid, handle, event, status, resource));
      case MsgGetMyState(_) => LedgerPurge(s, w);
      case MsgEmergentExit(pid) =>
        WithoutPidMembers(s.list, pid);
        LedgerSub(s.list, EmergentExit(s, pid).list, s.log);
      case _ =>
    }
  }

  lemma {:induction false} LedgerRun(cfg: Config, run: seq<(Message, World)>)
    ensures Ledger(Run(cfg, run).list, Run(cfg, run).log)
  {
    hide Process, Armed, Inv;
    if run != [] {
      var k := |run| - 1;
      RunInv(cfg, run[..k]);
      LedgerRun(cfg, run[..k]);
      hide Ledger;
      LedgerProcess(cfg, run[k].1, Run(cfg, run[..k]), run[k].0);
    }
  }

  lemma {:induction false} ArmedWitness(log: seq<Effect>, pid: int, handle: int)
    requires Armed(log, pid, handle)
    ensures exists k :: 0 <= k < |log| && Interrupts(log[k], pid, handle)
              && forall i :: k < i < |log| ==> !Resumes(log[i], pid, handle) && log[i] != Admitted(pid, handle)
  {
    var n := |log| - 1;
    if Interrupts(log[n], pid, handle) {
    } else {
      ArmedWitness(log[..n], pid, handle);
      var k :| 0 <= k < n && Interrupts(log[..n][k], pid, handle)
        && forall i :: k < i < n ==> !Resumes(log[..n][i], pid, handle) && log[..n][i] != Admitted(pid, handle);
      assert Interrupts(log[k], pid, handle);
      forall i | k < i < |log| ensures !Resumes(log[i], pid, handle) && log[i] != Admitted(pid, handle) {
        if i < n { assert log[i] == log[..n][i]; }
      }
    }
  }

  /** On every run, each RESUME makes good one interruption: before it, a STOP or a
      PAUSE went to the same sound on behalf of a call or an alarm, and since then the
      sound was neither resumed nor admitted anew. So two RESUMEs to a sound always
      have an interruption between them. */
  lemma ResumeMakesGood(cfg: Config, run: seq<(Message, World)>, j: nat)
    requires j < |Run(cfg, run).log| && Run(cfg, run).log[j].Callback? && Run(cfg, run).log[j].command == CmdResume
    ensures var log := Run(cfg, run).log;
            exists k :: 0 <= k < j && Interrupts(log[k], log[j].pid, log[j].handle)
              && forall i :: k < i < j ==> !Resumes(log[i], log[j].pid, log[j].handle)
                                           && log[i] != Admitted(log[j].pid, log[j].handle)
  {
    LedgerRun(cfg, run);
    hide Run, Armed, Interrupts;
    var log := Run(cfg, run).log;
    ArmedWitness(log[..j], log[j].pid, log[j].handle);
    var k :| 0 <= k < j && Interrupts(log[..j][k], log[j].pid, log[j].handle)
      && forall i :: k < i < j ==>
           !Resumes(log[..j][i], log[j].pid, log[j].handle) && log[..j][i] != Admitted(log[j].pid, log[j].handle);
    assert Interrupts(log[k], log[j].pid, log[j].handle);
    forall i | k < i < j
      ensures !Resumes(log[i], log[j].pid, log[j].handle) && log[i] != Admitted(log[j].pid, log[j].handle)
    {
      assert log[i] == log[..j][i];
    }
  }

  /** The RESUMEs that a sweep owes to the flagged sounds, in list order. */
  function Owed(list: seq<Sound>): seq<Sound> {
    if list == [] then []
    else (if list[0].resume then [list[0]] else []) + Owed(list[1..])
  }

  /** When a call, a video call, a rich call or an alarm unregisters, every flagged
      sound that is left gets one RESUME, in list order, and no flag remains. */
  lemma EndOfInterruption(w: World, s: State, handle: int, event: Event)
    requires NeedsResume(event)
    ensures var s1 := Unregister(s, handle);
            var t := OnUnregister(w, s, handle, event);
            var owed := Owed(s1.list);
            && SameSounds(s1.list, t.list)
            && (forall k :: 0 <= k < |t.list| ==> !t.list[k].resume)
            && |t.log| == |s.log| + 1 + |owed| && s.log <= t.log && t.log[|s.log|].SessionSet?
            && forall k :: 0 <= k < |owed| ==> Resumes(t.log[|s.log| + 1 + k], owed[k].pid, owed[k].handle)
  {
    hide Unregister, ResumeAll, Owed;
    var s1 := Unregister(s, handle);
    var session := if event == VideoCall then Voip else if event == Alarm then Notification else VoiceCall;
    var source := if event == Alarm then AlarmEnd else CallEnd;
    var s2 := SetSession(s1, session, false);
    ResumeAllKeeps(w, s2, 0, source, event);
    ResumeAllOwed(w, s2, 0, source, event);
    assert s2.list[0..] == s2.list;
    var t := OnUnregister(w, s, handle, event);
    assert t == ResumeAll(w, s2, 0, source, event);
    UnregisterLog(s, handle);
    assert s.log == s1.log && s2.log == s.log + [SessionSet(session, false)];
    assert t.log[|s.log|] == s2.log[|s.log|];
  }

  lemma UnregisterLog(s: State, handle: int)
    ensures Unregister(s, handle).log == s.log
  {
    hide MaskOf;
  }

  lemma FirstThenRest(log: seq<Effect>, x: Effect, more: seq<Effect>, v: Sound, rest: seq<Sound>)
    requires log + [x] <= more && |more| == |log| + 1 + |rest| && Resumes(x, v.pid, v.handle)
    requires forall k :: 0 <= k < |rest| ==> Resumes(more[|log| + 1 + k], rest[k].pid, rest[k].handle)
    ensures var owed := [v] + rest;
            && log <= more && |more| == |log| + |owed|
            && forall k :: 0 <= k < |owed| ==> Resumes(more[|log| + k], owed[k].pid, owed[k].handle)
  {
    hide Resumes;
    var owed := [v] + rest;
    assert more[|log|] == (log + [x])[|log|];
    forall k | 0 <= k < |owed| ensures Resumes(more[|log| + k], owed[k].pid, owed[k].handle) {
      if k > 0 { assert owed[k] == rest[k - 1] && Resumes(more[|log| + 1 + (k - 1)], rest[k - 1].pid, rest[k - 1].handle); }
    }
  }

  lemma {:induction false} ResumeAllOwed(w: World, s: State, i: nat, source: Source, cause: Event)
    requires i <= |s.list|
    ensures var t := ResumeAll(w, s, i, source, cause);
            var owed := Owed(s.list[i..]);
            && s.log <= t.log && |t.log| == |s.log| + |owed|
            && forall k :: 0 <= k < |owed| ==> Resumes(t.log[|s.log| + k], owed[k].pid, owed[k].handle)
    decreases |s.list| - i
  {
    if i < |s.list| {
      assert s.list[i..][1..] == s.list[i + 1..];
      if s.list[i].resume {
        var v := s.list[i];
        var s1 := Ring(w, s, v.pid, v.handle, CmdResume, source, Worker, cause);
        var s2 := s1.(list := s1.list[i := v.(resume := false)]);
        assert s2.list[i + 1..] == s.list[i + 1..];
        ResumeAllOwed(w, s2, i + 1, source, cause);
        var rest := Owed(s.list[i + 1..]);
        assert Owed(s.list[i..]) == [v] + rest;
        var t := ResumeAll(w, s2, i + 1, source, cause);
        assert s1.log == s.log + [s1.log[|s.log|]] && Resumes(s1.log[|s.log|], v.pid, v.handle);
        hide Owed, ResumeAll, Resumes;
        FirstThenRest(s.log, s1.log[|s.log|], t.log, v, rest);
      } else {
        ResumeAllOwed(w, s, i + 1, source, cause);
      }
    }
  }
}
