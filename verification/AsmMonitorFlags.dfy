/** Whether a monitor is told can be seen before the request is handled: from the sounds of
    its process that the first pass meets. */
module AsmMonitorFlags {
  import opened AsmTypes
  import opened AsmModel
  import opened AsmArbitration
  import opened AsmOutcome
  import opened AsmCache
  import opened AsmMonitors
  import opened AsmReach
  import opened AsmResume

  /** A callback to the sound itself. */
  lemma StrikeDisturbs(w: World, s: State, v: Sound, command: Command, source: Source, cause: Event,
                       flagMonitor: bool, flag: bool, from: nat, pid: int)
    requires from <= |s.log|
    ensures var t := Strike(w, s, v, command, source, cause, flagMonitor, flag).0;
            s.log <= t.log && (Disturbed(t.log, from, pid) <==> Disturbed(s.log, from, pid) || v.pid == pid)
  {
    hide SetResume, MarkDirty, Disturbed, MonitorCalls, MonitorOf;
    var s1 := StopMonitor(w, s, v.pid, source, cause, flagMonitor);
    if s1.log != s.log {
      assert s1.log == s.log + [s1.log[|s.log|]];
      After(s.log, s1.log[|s.log|], from, pid);
    }
    After(s1.log, Callback(v.pid, v.handle, command, source, Worker, cause, ReplyTo(w, |s1.log|, command)), from, pid);
  }

  lemma SessionDisturbs(s: State, session: Session, start: bool, from: nat, pid: int)
    requires from <= |s.log|
    ensures Disturbed(SetSession(s, session, start).log, from, pid) <==> Disturbed(s.log, from, pid)
  {
    After(s.log, SessionSet(session, start), from, pid);
    hide Disturbed, MonitorCalls;
  }

  lemma VictimDisturbs(cfg: Config, w: World, r: Request, s: State, v: Sound, from: nat, pid: int)
    requires from <= |s.log| && Struck(cfg, r, v)
    ensures var t := Interrupt(cfg, w, r, s, v);
            s.log <= t.log && (Disturbed(t.log, from, pid) <==> Disturbed(s.log, from, pid) || v.pid == pid)
  {
    hide Strike, SourceOf, ChangeState, Effective, Clash, NeedsResume, IsFmRadio, Disturbed, SetSession;
    var flag := NeedsResume(r.event);
    var command := if Clash(v.resource, r.resource) then CmdStop else CmdPause;
    StrikeDisturbs(w, s, v, CmdStop, SourceOf(v, r, false), r.event, flag, flag, from, pid);
    StrikeDisturbs(w, s, v, command, SourceOf(v, r, true), r.event, flag, flag, from, pid);
    StrikeDisturbs(w, s, v, CmdStop, ResourceConflict, r.event, flag, false, from, pid);
    var (s1, reply) := Strike(w, s, v, CmdStop, SourceOf(v, r, false), r.event, flag, flag);
    var s2 := ChangeState(s1, v.pid, v.handle, if reply == ResStop then Stopped else NoState, {});
    SessionDisturbs(s2, FmRadio, false, from, pid);
    SessionGrows(s2, FmRadio, false);
  }

  lemma SessionGrows(s: State, session: Session, start: bool)
    ensures s.log <= SetSession(s, session, start).log
  {
  }

  lemma InterruptDisturbs(cfg: Config, w: World, r: Request, s: State, v: Sound, from: nat, pid: int)
    requires from <= |s.log| && v.state == Playing && r.state == Playing
    ensures var t := Interrupt(cfg, w, r, s, v);
            && s.log <= t.log
            && (Disturbed(t.log, from, pid) <==> Disturbed(s.log, from, pid) || (Struck(cfg, r, v) && v.pid == pid))
  {
    hide Interrupt, Struck, Disturbed;
    if Struck(cfg, r, v) { VictimDisturbs(cfg, w, r, s, v, from, pid); } else { SparedNothing(cfg, w, r, s, v); }
  }

  lemma RecordDisturbs(r: Request, s: State, from: nat, pid: int)
    requires from <= |s.log|
    ensures var t := Record(r, s);
            s.log <= t.log && (Disturbed(t.log, from, pid) <==> Disturbed(s.log, from, pid))
  {
    hide ChangeState, Disturbed, MonitorCalls, MaskOf, NewSound;
    After(s.log, Admitted(r.pid, r.handle), from, pid);
  }

  lemma AdmitDisturbs(r: Request, c: Cursor, s: State, command: Command, from: nat, pid: int)
    requires from <= |s.log| && |s.list| == |c.s.list|
    ensures var t := Admit(r, c.(s := s), command).s;
            s.log <= t.log && (Disturbed(t.log, from, pid) <==> Disturbed(s.log, from, pid))
  {
    RecordDisturbs(r, s, from, pid);
    hide Record, Disturbed;
  }

  lemma Step1Disturbs(cfg: Config, w: World, r: Request, c: Cursor, from: nat, pid: int)
    requires from <= |c.s.log| && c.i < |c.s.list|
    ensures var d := Step1(cfg, w, r, c);
            var v := c.s.list[c.i];
            && c.s.log <= d.s.log
            && (Disturbed(d.s.log, from, pid) <==> Disturbed(c.s.log, from, pid) || (Struck(cfg, r, v) && v.pid == pid))
  {
    hide Interrupt, Admit, Step1, Struck, Disturbed;
    var v := c.s.list[c.i];
    Step1Parts(cfg, w, r, c);
    AdmitDisturbs(r, c, c.s, CmdNone, from, pid);
    if v.state == Playing && r.state == Playing {
      var t := Interrupt(cfg, w, r, c.s, v);
      InterruptDisturbs(cfg, w, r, c.s, v, from, pid);
      AdmitDisturbs(r, c, t, CmdPlay, from, pid);
    }
  }

  /** The pass disturbs exactly the processes that hear of it. */
  lemma {:induction false} Pass1Disturbs(cfg: Config, w: World, r: Request, c: Cursor, from: nat, pid: int)
    requires Unique(c.s.list) && FreshHandle(r, c) && c.i <= |c.s.list| && !Denied(c.answer) && from <= |c.s.log|
    ensures Disturbed(Pass1(cfg, w, r, c).s.log, from, pid) <==>
              Disturbed(c.s.log, from, pid) || Hears(cfg, r, c.s.list, c.i, pid)
    decreases |c.s.list| - c.i
  {
    hide Step1, Denies, Unique, FreshHandle, Moved, SameBehind, Struck, Hears, Disturbed;
    if c.i < |c.s.list| {
      var d := Step1(cfg, w, r, c);
      Step1Moves(cfg, w, r, c);
      MovedUnique(cfg, r, c, d);
      MovedBasics(cfg, r, c, d);
      Step1Disturbs(cfg, w, r, c, from, pid);
      Step1Advances(cfg, w, r, c);
      Step1Denial(cfg, w, r, c);
      HearsNext(cfg, r, c.s.list, c.i, pid);
      if Denied(d.answer) {
        DeniedStep(cfg, w, r, c);
      } else {
        StepLeavesRest(cfg, w, r, c);
        HearsBehind(cfg, r, c.s.list, c.i + 1, d.s.list, Shift(r, c, d), pid);
        Pass1Disturbs(cfg, w, r, d, from, pid);
      }
    } else {
      NothingHeard(cfg, r, c.s.list, c.i, pid);
    }
  }

  lemma NothingHeard(cfg: Config, r: Request, list: seq<Sound>, i: nat, pid: int)
    requires i >= |list|
    ensures !Hears(cfg, r, list, i, pid)
  {
    hide Struck;
  }

  /** In the first pass the monitor of a process is called exactly once if it has not been
      told yet and the pass meets a sound of its process that the policy interrupts; and
      otherwise not at all. */
  lemma MonitorCalledExactly(cfg: Config, w: World, r: Request, s: State, pid: int)
    requires Ready(r, s)
    ensures MonitorCalls(Pass1(cfg, w, r, Start(s)).s.log, |s.log|, pid) ==
              if HasCleanMonitor(s.list, pid) && Hears(cfg, r, s.list, 0, pid) then 1 else 0
  {
    hide Pass1, HasCleanMonitor, Disturbed, MonitorCalls, Hears;
    MonitorCalledOnce(cfg, w, r, s, pid);
    Pass1Disturbs(cfg, w, r, Start(s), |s.log|, pid);
    QuietStart(s, pid);
  }

  lemma QuietStart(s: State, pid: int)
    ensures !Disturbed(s.log, |s.log|, pid)
  {
  }

  /** When the first pass of a call or an alarm interrupts any sound of another process
      whose monitor is clean, it leaves that monitor flagged; whatever the policies. */
  lemma InterruptedMonitorIsFlagged(cfg: Config, w: World, r: Request, s: State, pid: int)
    requires Ready(r, s) && NeedsResume(r.event) && pid != r.pid && HasCleanMonitor(s.list, pid)
    requires Disturbed(FirstPass(cfg, w, r, s).0.log, |s.log|, pid)
    ensures var t := FirstPass(cfg, w, r, s).0.list;
            MonitorOf(t, pid) < |t| && t[MonitorOf(t, pid)].resume
  {
    hide Pass1, Disturbed, MonitorOf, CleanMonitors, NeedsResume, Hears, Struck, Resumable, Cached;
    QuietStart(s, pid);
    Pass1Disturbs(cfg, w, r, Start(s), |s.log|, pid);
    var m := MonitorOf(s.list, pid);
    FirstPassFlags(cfg, w, r, s, m);
    assert Rings(s.list, pid, m);
    FirstPassMoves(cfg, w, r, s);
    var t := FirstPass(cfg, w, r, s).0.list;
    MonitorMoves(r, s.list, t, |t| - |s.list|, pid);
  }

  lemma FirstPassMoves(cfg: Config, w: World, r: Request, s: State)
    requires Ready(r, s)
    ensures var t := FirstPass(cfg, w, r, s).0.list; |s.list| <= |t| && Moves(r, s.list, t, |t| - |s.list|)
  {
    hide Pass1, Moved, Moves, Cached, Unique;
    if s.playing == {} {
      MovesNowhere(r, s.list);
    } else {
      Pass1Moves(cfg, w, r, Start(s));
      var x := Pass1(cfg, w, r, Start(s));
      MovedBasics(cfg, r, Start(s), x);
      MovedMoves(cfg, r, Start(s), x);
      CleanMoves(r, s.list, x.s.list, Shift(r, Start(s), x));
    }
  }

  lemma MovesNowhere(r: Request, list: seq<Sound>)
    ensures Moves(r, list, list, 0)
  {
  }

  lemma CleanMoves(r: Request, a: seq<Sound>, b: seq<Sound>, k: nat)
    requires Moves(r, a, b, k)
    ensures Moves(r, a, CleanMonitors(b), k)
  {
    forall j | 0 <= j < |a| ensures SameIdentity(a[j], CleanMonitors(b)[j + k]) {
      assert SameIdentity(a[j], b[j + k]);
    }
  }

  // ----------------------------------------------- what a request leaves behind

  /** The second pass stops a paused sound of the process. */
  ghost predicate EvictsIn(cfg: Config, r: Request, list: seq<Sound>, i: nat, pid: int) {
    exists j :: i <= j < |list| && Evicted(cfg, r, list[j]) && list[j].pid == pid
  }

  lemma EvictsNext(cfg: Config, r: Request, a: seq<Sound>, i: nat, b: seq<Sound>, pid: int)
    requires i < |a| == |b| && forall j :: i < j < |a| ==> SameSound(a[j], b[j])
    ensures EvictsIn(cfg, r, a, i, pid) <==>
              (Evicted(cfg, r, a[i]) && a[i].pid == pid) || EvictsIn(cfg, r, b, i + 1, pid)
  {
    forall j | i < j < |a| ensures Evicted(cfg, r, a[j]) <==> Evicted(cfg, r, b[j]) {
      EvictedSame(cfg, r, a[j], b[j]);
    }
    assert forall j :: i < j < |a| ==> SameSound(a[j], b[j]) && (Evicted(cfg, r, a[j]) <==> Evicted(cfg, r, b[j]));
    hide Evicted;
  }

  lemma Step2Disturbs(cfg: Config, w: World, r: Request, s: State, i: nat, from: nat, pid: int)
    requires from <= |s.log| && i < |s.list|
    ensures var t := Step2(cfg, w, r, s, i);
            && s.log <= t.log
            && (Disturbed(t.log, from, pid) <==>
                  Disturbed(s.log, from, pid) || (Evicted(cfg, r, s.list[i]) && s.list[i].pid == pid))
  {
    hide Strike, ChangeState, Yields, Clash, Disturbed;
    StrikeDisturbs(w, s, s.list[i], CmdStop, ResourceConflict, r.event, false, false, from, pid);
  }

  lemma {:induction false} Pass2Disturbs(cfg: Config, w: World, r: Request, s: State, i: nat, from: nat, pid: int)
    requires Unique(s.list) && from <= |s.log|
    ensures Disturbed(Pass2(cfg, w, r, s, i).log, from, pid) <==>
              Disturbed(s.log, from, pid) || EvictsIn(cfg, r, s.list, i, pid)
    decreases |s.list| - i
  {
    hide Step2, Unique, Evicted, EvictsIn, Disturbed, Fate2;
    if i < |s.list| {
      var t := Step2(cfg, w, r, s, i);
      Step2Outcome(cfg, w, r, s, i);
      OnlyAtUnique(s, t, i);
      Step2Disturbs(cfg, w, r, s, i, from, pid);
      EvictsNext(cfg, r, s.list, i, t.list, pid);
      Pass2Disturbs(cfg, w, r, t, i + 1, from, pid);
    } else {
      NobodyEvicted(cfg, r, s.list, i, pid);
    }
  }

  lemma NobodyEvicted(cfg: Config, r: Request, list: seq<Sound>, i: nat, pid: int)
    requires i >= |list|
    ensures !EvictsIn(cfg, r, list, i, pid)
  {
    hide Evicted;
  }

  lemma SecondPassMonitors(cfg: Config, w: World, r: Request, s: State, pid: int)
    requires Unique(s.list)
    ensures HasCleanMonitor(Pass2(cfg, w, r, s, 0).list, pid) <==>
              HasCleanMonitor(s.list, pid) && !EvictsIn(cfg, r, s.list, 0, pid)
  {
    TallyStart(s, pid);
    TallyPass2(HasCleanMonitor(s.list, pid), cfg, w, r, s, 0, |s.log|, pid);
    Pass2Disturbs(cfg, w, r, s, 0, |s.log|, pid);
    QuietStart(s, pid);
    hide HasCleanMonitor, Pass2, EvictsIn, Disturbed, MonitorCalls;
  }

  lemma RecordMonitors(r: Request, s: State, pid: int)
    requires pid != r.pid
    ensures HasCleanMonitor(Record(r, s).list, pid) <==> HasCleanMonitor(s.list, pid)
  {
    TallyStart(s, pid);
    TallyRecord(HasCleanMonitor(s.list, pid), r, s, |s.log|, pid);
    RecordDisturbs(r, s, |s.log|, pid);
    QuietStart(s, pid);
    hide HasCleanMonitor, Record, Disturbed, MonitorCalls;
  }

  /** The first pass leaves every monitor clean, if somebody plays. */
  lemma FirstPassMonitors(cfg: Config, w: World, r: Request, s: State, pid: int)
    requires Ready(r, s) && pid != r.pid
    ensures HasCleanMonitor(FirstPass(cfg, w, r, s).0.list, pid) <==>
              if s.playing == {} then HasCleanMonitor(s.list, pid) else MonitorOf(s.list, pid) < |s.list|
  {
    FirstPassMoves(cfg, w, r, s);
    var t := FirstPass(cfg, w, r, s).0.list;
    MonitorMoves(r, s.list, t, |t| - |s.list|, pid);
    hide Pass1, MonitorOf, Moves, Ready;
  }

  lemma TwoPassesMonitors(cfg: Config, w: World, r: Request, s: State, pid: int)
    requires Ready(r, s) && pid != r.pid
    ensures var (t, answer) := TwoPasses(cfg, w, r, s);
            var s1 := FirstPass(cfg, w, r, s).0;
            HasCleanMonitor(t.list, pid) <==>
              HasCleanMonitor(s1.list, pid) && !(Admits(s, answer) && EvictsIn(cfg, r, s1.list, 0, pid))
  {
    var s1 := FirstPass(cfg, w, r, s).0;
    FirstPassUnique(cfg, w, r, s);
    FirstPassCached(cfg, w, r, s);
    SecondPassMonitors(cfg, w, r, s1, pid);
    hide FirstPass, Pass2, HasCleanMonitor, Ready;
    if EvictsIn(cfg, r, s1.list, 0, pid) { EvictsSomebody(cfg, r, s1, pid); }
    hide EvictsIn;
  }

  lemma EvictsSomebody(cfg: Config, r: Request, s: State, pid: int)
    requires Cached(s) && EvictsIn(cfg, r, s.list, 0, pid)
    ensures s.paused != {} && r.resource != {}
  {
    hide Yields, MaskOf;
    MaskMeaning(s.list, Paused);
    var j :| 0 <= j < |s.list| && Evicted(cfg, r, s.list[j]) && s.list[j].pid == pid;
    assert s.list[j].event in MaskOf(s.list, Paused);
  }

  /** After a request, the monitor of another process can be told again if and only if it
      was clean before or somebody played, and the pass over paused entries, if it ran,
      stopped none of its process: that pass leaves the monitors it tells dirty, and they
      stay so, deaf, until a request meets somebody playing. */
  lemma MonitorCleanExactly(cfg: Config, w: World, r: Request, s: State, pid: int)
    requires Ready(r, s) && pid != r.pid
    ensures var (t, answer) := Compare(cfg, w, r, s);
            HasCleanMonitor(t.list, pid) <==>
              && (if s.playing == {} then HasCleanMonitor(s.list, pid) else MonitorOf(s.list, pid) < |s.list|)
              && !(Admits(s, answer) && EvictsIn(cfg, r, FirstPass(cfg, w, r, s).0.list, 0, pid))
  {
    CompareIsTwoPasses(cfg, w, r, s);
    FirstPassMonitors(cfg, w, r, s, pid);
    TwoPassesMonitors(cfg, w, r, s, pid);
    hide Compare, TwoPasses, FirstPass, HasCleanMonitor, EvictsIn, Ready, Record;
    RecordMonitors(r, TwoPasses(cfg, w, r, s).0, pid);
  }
}
