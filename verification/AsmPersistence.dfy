/** Interruptions over whole runs: which messages flag a sound, that the flag stays until a
    call or an alarm ends, and that it then brings exactly one RESUME. */
module AsmPersistence {
  import opened AsmTypes
  import opened AsmModel
  import opened AsmArbitration
  import opened AsmCache
  import opened AsmOutcome
  import opened AsmRuns
  import opened AsmLedger
  import opened AsmReach
  import opened AsmResume

  predicate IsResume(x: Effect) {
    x.Callback? && x.command == CmdResume
  }

  /** `b` goes on from `a` without a RESUME. */
  ghost predicate Grows(a: seq<Effect>, b: seq<Effect>) {
    a <= b && forall k :: |a| <= k < |b| ==> !IsResume(b[k])
  }

  /** An entry with this process and handle was admitted since position `from` of the log. */
  ghost predicate NewSince(log: seq<Effect>, from: nat, pid: int, handle: int) {
    exists k :: from <= k < |log| && log[k] == Admitted(pid, handle)
  }

  /** `f` goes back to an entry of `list`, and is flagged if that was. */
  ghost predicate Descends(list: seq<Sound>, f: Sound) {
    exists e :: e in list && SameIdentity(e, f) && (e.resume ==> f.resume)
  }

  /** From `s` to `t` nothing was resumed, and every entry is new or has kept its flag. */
  ghost predicate Carried(s: State, t: State) {
    && Grows(s.log, t.log)
    && forall f :: f in t.list ==> NewSince(t.log, |s.log|, f.pid, f.handle) || Descends(s.list, f)
  }

  lemma NewSinceExtends(a: seq<Effect>, b: seq<Effect>, from: nat, pid: int, handle: int)
    requires a <= b
    ensures NewSince(a, from, pid, handle) ==> NewSince(b, from, pid, handle)
  {
    if NewSince(a, from, pid, handle) {
      var k :| from <= k < |a| && a[k] == Admitted(pid, handle);
      assert b[k] == Admitted(pid, handle);
    }
  }

  lemma CarriedChain(s: State, t: State, u: State)
    requires Carried(s, t) && Carried(t, u)
    ensures Carried(s, u)
  {
    forall f | f in u.list && !NewSince(u.log, |s.log|, f.pid, f.handle) ensures Descends(s.list, f) {
      assert !NewSince(u.log, |t.log|, f.pid, f.handle);
      NewSinceExtends(t.log, u.log, |s.log|, f.pid, f.handle);
      var g :| g in t.list && SameIdentity(g, f) && (g.resume ==> f.resume);
    }
  }

  /** The same entries, and no flag lost. */
  ghost predicate Keeps(a: seq<Sound>, b: seq<Sound>) {
    |a| == |b| && forall k :: 0 <= k < |a| ==> SameIdentity(a[k], b[k]) && (a[k].resume ==> b[k].resume)
  }

  lemma CarriedKept(s: State, t: State)
    requires Keeps(s.list, t.list) && Grows(s.log, t.log)
    ensures Carried(s, t)
  {
    hide Grows, NewSince;
    forall k | 0 <= k < |t.list| ensures Descends(s.list, t.list[k]) {
      assert s.list[k] in s.list && SameIdentity(s.list[k], t.list[k]);
    }
  }

  lemma CarriedSub(s: State, t: State)
    requires s.log == t.log && forall f :: f in t.list ==> f in s.list
    ensures Carried(s, t)
  {
    forall f | f in t.list ensures Descends(s.list, f) {
      assert SameIdentity(f, f);
    }
  }

  // ------------------------------------------------------------ the operations

  lemma StopMonitorKeepsFlags(w: World, s: State, pid: int, source: Source, cause: Event, flag: bool)
    ensures var t := StopMonitor(w, s, pid, source, cause, flag);
            Keeps(s.list, t.list) && Grows(s.log, t.log)
  {
    var t := StopMonitor(w, s, pid, source, cause, flag);
    forall k | 0 <= k < |s.list| ensures SameSound(s.list[k], t.list[k]) { }
    hide IndexOf, MonitorOf;
  }

  lemma SetResumeKeeps(list: seq<Sound>, pid: int, handle: int)
    ensures Keeps(list, SetResume(list, pid, handle, true))
  {
    hide IndexOf;
  }

  lemma KeepsChain(a: seq<Sound>, b: seq<Sound>, c: seq<Sound>)
    requires Keeps(a, b) && Keeps(b, c)
    ensures Keeps(a, c)
  {
  }

  lemma StrikeKeeps(w: World, s: State, v: Sound, command: Command, source: Source, cause: Event,
                    flagMonitor: bool, flag: bool)
    requires command != CmdResume
    ensures var t := Strike(w, s, v, command, source, cause, flagMonitor, flag).0;
            Keeps(s.list, t.list) && Grows(s.log, t.log)
  {
    hide StopMonitor, SetResume, Keeps;
    StopMonitorKeepsFlags(w, s, v.pid, source, cause, flagMonitor);
    var s1 := StopMonitor(w, s, v.pid, source, cause, flagMonitor);
    if flag {
      SetResumeKeeps(s1.list, v.pid, v.handle);
      KeepsChain(s.list, s1.list, SetResume(s1.list, v.pid, v.handle, true));
    }
  }

  lemma ChangeCarries(s: State, pid: int, handle: int, status: Status, resource: Bits)
    ensures Carried(s, ChangeState(s, pid, handle, status, resource))
  {
    hide ChangeState, Carried;
    ChangeStateFlags(s, pid, handle, status, resource);
    CarriedKept(s, ChangeState(s, pid, handle, status, resource));
  }

  lemma StruckCarries(w: World, s: State, v: Sound, command: Command, source: Source, cause: Event,
                      flagMonitor: bool, flag: bool, status: Status, resource: Bits)
    requires command != CmdResume
    ensures var t := Strike(w, s, v, command, source, cause, flagMonitor, flag).0;
            Carried(s, ChangeState(t, v.pid, v.handle, status, resource))
  {
    hide Strike, ChangeState, Keeps, Grows, Carried;
    var t := Strike(w, s, v, command, source, cause, flagMonitor, flag).0;
    StrikeKeeps(w, s, v, command, source, cause, flagMonitor, flag);
    CarriedKept(s, t);
    ChangeCarries(t, v.pid, v.handle, status, resource);
    CarriedChain(s, t, ChangeState(t, v.pid, v.handle, status, resource));
  }

  lemma SameCarries(s: State)
    ensures Carried(s, s)
  {
    CarriedSub(s, s);
  }

  lemma SessionCarries(s: State, session: Session, start: bool)
    ensures Carried(s, SetSession(s, session, start))
  {
    CarriedKept(s, SetSession(s, session, start));
  }

  lemma StopVictimCarries(w: World, r: Request, s: State, v: Sound)
    ensures Carried(s, StopVictim(w, r, s, v))
  {
    hide Strike, SourceOf, ChangeState, NeedsResume, IsFmRadio, Carried, SetSession;
    var flag := NeedsResume(r.event);
    var (s1, reply) := Strike(w, s, v, CmdStop, SourceOf(v, r, false), r.event, flag, flag);
    var status := if reply == ResStop then Stopped else NoState;
    StruckCarries(w, s, v, CmdStop, SourceOf(v, r, false), r.event, flag, flag, status, {});
    var s2 := ChangeState(s1, v.pid, v.handle, status, {});
    SessionCarries(s2, FmRadio, false);
    CarriedChain(s, s2, SetSession(s2, FmRadio, false));
  }

  lemma InterruptCarries(cfg: Config, w: World, r: Request, s: State, v: Sound)
    ensures Carried(s, Interrupt(cfg, w, r, s, v))
  {
    hide Strike, SourceOf, ChangeState, Effective, Clash, NeedsResume, Carried, StopVictim;
    SameCarries(s);
    StopVictimCarries(w, r, s, v);
    var flag := NeedsResume(r.event);
    var command := if Clash(v.resource, r.resource) then CmdStop else CmdPause;
    var paused := Strike(w, s, v, command, SourceOf(v, r, true), r.event, flag, flag).1;
    StruckCarries(w, s, v, command, SourceOf(v, r, true), r.event, flag, flag,
      if paused == ResPause then Paused else if paused == ResIgnore then Ignored else NoState,
      if paused == ResNone || paused == ResStop then {} else v.resource);
    var mixed := Strike(w, s, v, CmdStop, ResourceConflict, r.event, flag, false).1;
    StruckCarries(w, s, v, CmdStop, ResourceConflict, r.event, flag, false,
      if mixed == ResIgnore then Ignored else NoState,
      if mixed == ResNone || mixed == ResStop then {} else v.resource);
  }

  lemma RecordCarries(r: Request, s: State)
    ensures Carried(s, Record(r, s))
  {
    if r.kind == SetState {
      ChangeCarries(s, r.pid, r.handle, r.state, r.resource);
      hide Carried, ChangeState;
    } else {
      var t := RegisterSound(s, r);
      hide MaskOf, NewSound;
      assert t.log[|s.log|] == Admitted(r.pid, r.handle);
      forall f | f in t.list && !NewSince(t.log, |s.log|, f.pid, f.handle) ensures Descends(s.list, f) {
        assert NewSince(t.log, |s.log|, r.pid, r.handle);
        assert f in s.list && SameIdentity(f, f);
      }
    }
  }

  lemma Step1Carries(cfg: Config, w: World, r: Request, c: Cursor)
    requires c.i < |c.s.list|
    ensures Carried(c.s, Step1(cfg, w, r, c).s)
  {
    hide Interrupt, Record, Effective, Carried;
    var v := c.s.list[c.i];
    var t := Interrupt(cfg, w, r, c.s, v);
    SameCarries(c.s);
    RecordCarries(r, c.s);
    InterruptCarries(cfg, w, r, c.s, v);
    RecordCarries(r, t);
    CarriedChain(c.s, t, Record(r, t));
  }

  lemma {:induction false} Pass1Carries(cfg: Config, w: World, r: Request, c: Cursor)
    ensures Carried(c.s, Pass1(cfg, w, r, c).s)
    decreases |c.s.list| - c.i
  {
    hide Step1, Carried;
    if c.i < |c.s.list| {
      Step1Advances(cfg, w, r, c);
      var d := Step1(cfg, w, r, c);
      Step1Carries(cfg, w, r, c);
      Pass1Carries(cfg, w, r, d);
      CarriedChain(c.s, d.s, Pass1(cfg, w, r, d).s);
    } else {
      SameCarries(c.s);
    }
  }

  lemma Step2Carries(cfg: Config, w: World, r: Request, s: State, i: nat)
    requires i < |s.list|
    ensures Carried(s, Step2(cfg, w, r, s, i))
  {
    hide Strike, ChangeState, Yields, Clash, Carried;
    SameCarries(s);
    StruckCarries(w, s, s.list[i], CmdStop, ResourceConflict, r.event, false, false, NoState, {});
    ChangeCarries(s, r.pid, r.handle, r.state, r.resource);
  }

  lemma {:induction false} Pass2Carries(cfg: Config, w: World, r: Request, s: State, i: nat)
    ensures Carried(s, Pass2(cfg, w, r, s, i))
    decreases |s.list| - i
  {
    hide Step2, Carried;
    if i < |s.list| {
      var t := Step2(cfg, w, r, s, i);
      Step2Carries(cfg, w, r, s, i);
      Pass2Carries(cfg, w, r, t, i + 1);
      CarriedChain(s, t, Pass2(cfg, w, r, t, i + 1));
    } else {
      SameCarries(s);
    }
  }

  lemma CleanCarries(s: State)
    ensures Carried(s, s.(list := CleanMonitors(s.list)))
  {
    CarriedKept(s, s.(list := CleanMonitors(s.list)));
  }

  lemma FirstPassCarries(cfg: Config, w: World, r: Request, s: State)
    ensures Carried(s, FirstPass(cfg, w, r, s).0)
  {
    hide Pass1, Carried;
    SameCarries(s);
    Pass1Carries(cfg, w, r, Start(s));
    var x := Pass1(cfg, w, r, Start(s)).s;
    CleanCarries(x);
    CarriedChain(s, x, x.(list := CleanMonitors(x.list)));
  }

  /** Arbitration loses no flag, whether it denies the request or not. */
  lemma CompareCarries(cfg: Config, w: World, r: Request, s: State)
    ensures Carried(s, Compare(cfg, w, r, s).0)
  {
    hide FirstPass, Pass2, Record, Carried;
    var s1 := FirstPass(cfg, w, r, s).0;
    FirstPassCarries(cfg, w, r, s);
    Pass2Carries(cfg, w, r, s1, 0);
    CarriedChain(s, s1, Pass2(cfg, w, r, s1, 0));
    var s2 := TwoPasses(cfg, w, r, s).0;
    assert Carried(s, s2);
    CompareIsTwoPasses(cfg, w, r, s);
    RecordCarries(r, s2);
    CarriedChain(s, s2, Record(r, s2));
  }

  lemma PurgeCarries(s: State, w: World)
    ensures Carried(s, CheckDeadProcess(s, w))
  {
    hide Carried, PidExists;
    SurvivorsMembers(s.list, w);
    CarriedSub(s, CheckDeadProcess(s, w));
  }

  lemma ExitCarries(s: State, pid: int)
    ensures Carried(s, EmergentExit(s, pid))
  {
    hide Carried;
    WithoutPidMembers(s.list, pid);
    CarriedSub(s, EmergentExit(s, pid));
  }

  lemma UnregisterCarries(s: State, handle: int)
    ensures Carried(s, Unregister(s, handle))
  {
    hide Carried, MaskOf;
    CarriedSub(s, Unregister(s, handle));
  }

  lemma RegisterCarries(cfg: Config, w: World, s: State, m: Message)
    requires m.MsgRegister?
    ensures Carried(s, Process(cfg, w, s, m).0)
  {
    hide Carried, Compare, CheckDeadProcess, SetSession, LeastFree;
    var s1 := CheckDeadProcess(s, w);
    PurgeCarries(s, w);
    var r := Request(Register, m.pid, LeastFree(s1.list, 0, cfg.maxHandles), m.event, m.state, m.resource);
    var t := Compare(cfg, w, r, s1).0;
    CompareCarries(cfg, w, r, s1);
    CarriedChain(s, s1, t);
    SessionCarries(t, VoiceCall, true);
    SessionCarries(t, Voip, true);
    CarriedChain(s, t, SetSession(t, VoiceCall, true));
    CarriedChain(s, t, SetSession(t, Voip, true));
  }

  lemma StateCarries(cfg: Config, w: World, s: State, r: Request)
    ensures Carried(s, OnSetState(cfg, w, s, r).0)
  {
    hide Carried, Compare, CheckDeadProcess, SetSession, ChangeState, IsPlayingNow;
    var s1 := CheckDeadProcess(s, w);
    PurgeCarries(s, w);
    var c := ChangeState(s1, r.pid, r.handle, r.state, r.resource);
    ChangeCarries(s1, r.pid, r.handle, r.state, r.resource);
    CarriedChain(s, s1, c);
    SessionCarries(c, FmRadio, false);
    CarriedChain(s, c, SetSession(c, FmRadio, false));
    var t := Compare(cfg, w, r, s1).0;
    CompareCarries(cfg, w, r, s1);
    CarriedChain(s, s1, t);
    SessionCarries(t, Notification, true);
    CarriedChain(s, t, SetSession(t, Notification, true));
    SessionCarries(t, FmRadio, true);
    CarriedChain(s, t, SetSession(t, FmRadio, true));
  }

  /** The message that ends an interruption. */
  predicate Ends(m: Message) {
    m.MsgUnregister? && NeedsResume(m.event)
  }

  /** Every message but the end of a call or an alarm resumes nobody and loses no flag. */
  lemma ProcessCarries(cfg: Config, w: World, s: State, m: Message)
    requires !Ends(m)
    ensures Carried(s, Process(cfg, w, s, m).0)
  {
    hide Carried, OnRegister, OnSetState, Unregister, EmergentExit, CheckDeadProcess;
    match m {
      case MsgRegister(_, _, _, _) => RegisterCarries(cfg, w, s, m);
      case MsgUnregister(handle, _) => UnregisterCarries(s, handle);
      case MsgSetState(pid, handle, event, status, resource) =>
        StateCarries(cfg, w, s, Request(SetState, pid, handle, event, status, resource));
      case MsgGetMyState(_) => PurgeCarries(s, w);
      case MsgEmergentExit(pid) => ExitCarries(s, pid);
      case _ => SameCarries(s);
    }
  }

  // ------------------------------------------------------------------ over runs

  lemma RunNext(cfg: Config, run: seq<(Message, World)>, k: nat)
    requires k < |run|
    ensures Run(cfg, run[..k + 1]) == Process(cfg, run[k].1, Run(cfg, run[..k]), run[k].0).0
  {
    hide Process;
    assert run[..k + 1][..k] == run[..k];
  }

  ghost predicate NoEnd(run: seq<(Message, World)>, i: nat, j: nat) {
    i <= j <= |run| && forall k :: i <= k < j ==> !Ends(run[k].0)
  }

  lemma {:induction false} RunCarries(cfg: Config, run: seq<(Message, World)>, i: nat, j: nat)
    requires NoEnd(run, i, j)
    ensures Carried(Run(cfg, run[..i]), Run(cfg, run[..j]))
    decreases j
  {
    hide Run, Process, Carried, Ends;
    if i == j {
      SameCarries(Run(cfg, run[..i]));
    } else {
      RunCarries(cfg, run, i, j - 1);
      RunNext(cfg, run, j - 1);
      ProcessCarries(cfg, run[j - 1].1, Run(cfg, run[..j - 1]), run[j - 1].0);
      CarriedChain(Run(cfg, run[..i]), Run(cfg, run[..j - 1]), Run(cfg, run[..j]));
    }
  }

  // ------------------------------------------------------- which messages flag

  /** The request that a message makes after the purge. */
  function RequestOf(cfg: Config, w: World, s: State, m: Message): Request
    requires m.MsgRegister? || m.MsgSetState?
  {
    match m
    case MsgRegister(pid, event, status, resource) =>
      Request(Register, pid, LeastFree(Survivors(s.list, w), 0, cfg.maxHandles), event, status, resource)
    case MsgSetState(pid, handle, event, status, resource) => Request(SetState, pid, handle, event, status, resource)
  }

  /** The message leads to arbitration: a registration that gets a handle, or a sound that
      asks to play and does not play yet. */
  predicate Arbitrated(cfg: Config, w: World, s: State, m: Message) {
    match m
    case MsgRegister(_, _, _, _) => LeastFree(Survivors(s.list, w), 0, cfg.maxHandles) != -1
    case MsgSetState(pid, handle, _, status, _) => status == Playing && !IsPlayingNow(Survivors(s.list, w), pid, handle)
    case _ => false
  }

  /** The message flags the entry with this process and handle. */
  ghost predicate FlagsEntry(cfg: Config, w: World, s: State, m: Message, pid: int, handle: int) {
    && Arbitrated(cfg, w, s, m)
    && var list := Survivors(s.list, w);
       exists j: nat :: j < |list| && list[j].pid == pid && list[j].handle == handle
                        && Flags(cfg, RequestOf(cfg, w, s, m), list, 0, j)
  }

  lemma ArbitratedMessage(cfg: Config, w: World, s: State, m: Message)
    requires Arbitrated(cfg, w, s, m)
    ensures Process(cfg, w, s, m).0.list == Compare(cfg, w, RequestOf(cfg, w, s, m), CheckDeadProcess(s, w)).0.list
    ensures Compare(cfg, w, RequestOf(cfg, w, s, m), CheckDeadProcess(s, w)).0.log <= Process(cfg, w, s, m).0.log
  {
    hide Compare, Survivors, LeastFree, MaskOf, ChangeState, IsPlayingNow;
  }

  lemma ArbitratedIsReady(cfg: Config, w: World, s: State, m: Message)
    requires Inv(cfg, s) && Arbitrated(cfg, w, s, m)
    ensures var s1, r := CheckDeadProcess(s, w), RequestOf(cfg, w, s, m);
            && s1.list == Survivors(s.list, w) && s1.log == s.log && Ready(r, s1) && Unique(s1.list)
            && (r.kind == Register ==> !Taken(s1.list, r.handle))
  {
    DeadProcessInv(cfg, w, s);
    var s1, r := CheckDeadProcess(s, w), RequestOf(cfg, w, s, m);
    LeastFreeMeaning(s1.list, 0, cfg.maxHandles);
    hide Survivors, LeastFree, MaskOf, IsPlayingNow, Taken;
    if r.kind == Register { FreshIsReady(cfg, r, s1); }
  }

  /** The entry goes back to one before the request, at most one place further on. */
  lemma WhereFrom(cfg: Config, w: World, r: Request, s: State, f: Sound) returns (j: nat)
    requires Ready(r, s) && (r.kind == Register ==> !Taken(s.list, r.handle))
    requires f in Compare(cfg, w, r, s).0.list && !NewSince(Compare(cfg, w, r, s).0.log, |s.log|, f.pid, f.handle)
    ensures var t := Compare(cfg, w, r, s).0;
            var k := |t.list| - |s.list|;
            0 <= k && j < |s.list| && SameIdentity(s.list[j], f) && f == t.list[j + k]
  {
    hide Compare, Ready, NewSince, Recorded, Taken, Carried, Descends, Admits;
    var recorded := RecordedBy(cfg, w, r, s);
    var t := Compare(cfg, w, r, s).0;
    CompareCarries(cfg, w, r, s);
    OldDescends(s, t, f);
    j := PlaceOf(r, recorded, s.list, t.list, f);
  }

  lemma OldDescends(s: State, t: State, f: Sound)
    requires Carried(s, t) && f in t.list && !NewSince(t.log, |s.log|, f.pid, f.handle)
    ensures Descends(s.list, f)
  {
  }

  lemma PlaceOf(r: Request, recorded: bool, s: seq<Sound>, t: seq<Sound>, f: Sound) returns (j: nat)
    requires Recorded(r, recorded, s, t) && f in t && Descends(s, f) && (r.kind == Register ==> !Taken(s, r.handle))
    ensures |s| <= |t| && j < |s| && SameIdentity(s[j], f) && f == t[j + |t| - |s|]
  {
    hide Recorded, Taken, Descends;
    AtMostOneMore(r, recorded, s, t);
    var i :| 0 <= i < |t| && t[i] == f;
    if |t| > |s| { NewIsNotOld(r, recorded, s, t); }
    j := i - (|t| - |s|);
    SameAt(r, recorded, s, t, j);
  }

  lemma NewIsNotOld(r: Request, recorded: bool, s: seq<Sound>, t: seq<Sound>)
    requires Recorded(r, recorded, s, t) && |t| > |s| && (r.kind == Register ==> !Taken(s, r.handle))
    ensures !Descends(s, t[0])
  {
    forall e | e in s ensures e.handle != t[0].handle {
      var j :| 0 <= j < |s| && s[j] == e;
    }
  }

  lemma SameAt(r: Request, recorded: bool, s: seq<Sound>, t: seq<Sound>, j: nat)
    requires Recorded(r, recorded, s, t) && j < |s|
    ensures SameIdentity(s[j], t[j + |t| - |s|])
  {
    assert SameIdentity(s[j], t[j + (|t| - |s|)]);
  }

  /** Entries of `b` go back to entries of `a` with the same flag. */
  ghost predicate Inherits(a: seq<Sound>, b: seq<Sound>) {
    forall f :: f in b ==> exists e :: e in a && SameIdentity(e, f) && e.resume == f.resume
  }

  lemma InheritsSub(a: seq<Sound>, b: seq<Sound>)
    requires forall f :: f in b ==> f in a
    ensures Inherits(a, b)
  {
    forall f | f in b ensures exists e :: e in a && SameIdentity(e, f) && e.resume == f.resume {
      assert f in a && SameIdentity(f, f);
    }
  }

  lemma InheritsFlags(a: seq<Sound>, b: seq<Sound>, c: seq<Sound>)
    requires Inherits(a, b) && SameFlags(b, c)
    ensures Inherits(a, c)
  {
    forall k | 0 <= k < |c| ensures exists e :: e in a && SameIdentity(e, c[k]) && e.resume == c[k].resume {
      assert b[k] in b;
      var e :| e in a && SameIdentity(e, b[k]) && e.resume == b[k].resume;
      assert SameIdentity(e, c[k]);
    }
  }

  lemma PurgeInherits(s: State, w: World)
    ensures Inherits(s.list, CheckDeadProcess(s, w).list)
  {
    SurvivorsMembers(s.list, w);
    InheritsSub(s.list, CheckDeadProcess(s, w).list);
    hide Survivors, PidExists, Inherits, MaskOf;
  }

  /** Without arbitration, and short of the end of an interruption, no flag changes. */
  lemma QuietMessage(cfg: Config, w: World, s: State, m: Message)
    requires !Arbitrated(cfg, w, s, m) && !Ends(m)
    ensures Inherits(s.list, Process(cfg, w, s, m).0.list)
  {
    hide Inherits, Survivors, LeastFree, ChangeState, Unregister, EmergentExit, IsPlayingNow, Compare, MaskOf;
    PurgeInherits(s, w);
    InheritsSub(s.list, s.list);
    match m {
      case MsgSetState(pid, handle, event, status, resource) =>
        var s1 := CheckDeadProcess(s, w);
        ChangeStateFlags(s1, pid, handle, status, resource);
        InheritsFlags(s.list, s1.list, ChangeState(s1, pid, handle, status, resource).list);
      case MsgUnregister(handle, _) =>
        UnregisterSub(s, handle);
        InheritsSub(s.list, Unregister(s, handle).list);
      case MsgEmergentExit(pid) =>
        WithoutPidMembers(s.list, pid);
        ExitSub(s, pid);
        InheritsSub(s.list, EmergentExit(s, pid).list);
      case _ =>
    }
  }

  lemma ExitSub(s: State, pid: int)
    requires forall x :: x in WithoutPid(s.list, pid) <==> x in s.list && x.pid != pid
    ensures forall f :: f in EmergentExit(s, pid).list ==> f in s.list
  {
    hide WithoutPid, MaskOf;
  }

  lemma SameEntry(list: seq<Sound>, e: Sound, f: Sound)
    requires Unique(list) && e in list && f in list && e.handle == f.handle
    ensures e == f
  {
  }

  lemma InheritedFlag(a: seq<Sound>, b: seq<Sound>, e: Sound, f: Sound)
    requires Unique(a) && Inherits(a, b) && e in a && f in b && e.handle == f.handle
    ensures e.resume == f.resume
  {
    var g :| g in a && SameIdentity(g, f) && g.resume == f.resume;
    SameEntry(a, e, g);
  }

  /** One message: an entry that was not admitted by it is flagged afterwards if and only if
      it was before, or the message flags it. */
  lemma MessageFlags(cfg: Config, w: World, s: State, m: Message, e: Sound, f: Sound)
    requires Inv(cfg, s) && !Ends(m)
    requires e in s.list && f in Process(cfg, w, s, m).0.list && f.pid == e.pid && f.handle == e.handle
    requires !NewSince(Process(cfg, w, s, m).0.log, |s.log|, e.pid, e.handle)
    ensures f.resume <==> e.resume || FlagsEntry(cfg, w, s, m, e.pid, e.handle)
  {
    hide Process, NewSince, Ends, Inherits, Flags, RequestOf, Compare, Survivors, Taken, Cached, InRange,
      LeastFree, IsPlayingNow;
    if Arbitrated(cfg, w, s, m) {
      var s1, r := CheckDeadProcess(s, w), RequestOf(cfg, w, s, m);
      ArbitratedMessage(cfg, w, s, m);
      ArbitratedIsReady(cfg, w, s, m);
      NewSinceExtends(Compare(cfg, w, r, s1).0.log, Process(cfg, w, s, m).0.log, |s.log|, e.pid, e.handle);
      hide Ready;
      var j := WhereFrom(cfg, w, r, s1, f);
      FlaggedExactly(cfg, w, r, s1, j);
      SurvivorsMembers(s.list, w);
      SameEntry(s.list, e, s1.list[j]);
      OnlyOne(cfg, r, s1.list, j);
    } else {
      QuietMessage(cfg, w, s, m);
      InheritedFlag(s.list, Process(cfg, w, s, m).0.list, e, f);
    }
  }

  lemma OnlyOne(cfg: Config, r: Request, list: seq<Sound>, j: nat)
    requires Unique(list) && j < |list|
    ensures Flags(cfg, r, list, 0, j) <==>
              exists l: nat :: l < |list| && list[l].pid == list[j].pid && list[l].handle == list[j].handle
                               && Flags(cfg, r, list, 0, l)
  {
    hide Flags;
    if Flags(cfg, r, list, 0, j) { assert list[j].pid == list[j].pid; }
  }

  /** The k-th message of a run flags the entry. */
  ghost predicate FlagsAt(cfg: Config, run: seq<(Message, World)>, k: nat, pid: int, handle: int)
    requires k < |run|
  {
    FlagsEntry(cfg, run[k].1, Run(cfg, run[..k]), run[k].0, pid, handle)
  }

  lemma DescendsFrom(s: State, t: State, f: Sound) returns (g: Sound)
    requires Carried(s, t) && f in t.list && !NewSince(t.log, |s.log|, f.pid, f.handle)
    ensures g in s.list && SameIdentity(g, f)
  {
    g :| g in s.list && SameIdentity(g, f) && (g.resume ==> f.resume);
  }

  lemma NotNewLater(log: seq<Effect>, from: nat, later: nat, pid: int, handle: int)
    requires from <= later && !NewSince(log, from, pid, handle)
    ensures !NewSince(log, later, pid, handle)
  {
  }

  /** The last message of a run, seen from an entry that it leaves. */
  lemma LastMessage(cfg: Config, run: seq<(Message, World)>, i: nat, k: nat, f: Sound) returns (g: Sound)
    requires i <= k < |run| && NoEnd(run, i, k + 1) && f in Run(cfg, run[..k + 1]).list
    requires !NewSince(Run(cfg, run[..k + 1]).log, |Run(cfg, run[..i]).log|, f.pid, f.handle)
    ensures g in Run(cfg, run[..k]).list && g.pid == f.pid && g.handle == f.handle
    ensures !NewSince(Run(cfg, run[..k]).log, |Run(cfg, run[..i]).log|, f.pid, f.handle)
    ensures f.resume <==> g.resume || FlagsAt(cfg, run, k, f.pid, f.handle)
  {
    var s, u, t := Run(cfg, run[..i]), Run(cfg, run[..k]), Run(cfg, run[..k + 1]);
    RunCarries(cfg, run, i, k);
    RunNext(cfg, run, k);
    RunInv(cfg, run[..k]);
    hide Run, Process, NewSince, Ends, Inv, Carried, FlagsEntry;
    ProcessCarries(cfg, run[k].1, u, run[k].0);
    LogsGrow(s, u);
    LogsGrow(u, t);
    NotNewLater(t.log, |s.log|, |u.log|, f.pid, f.handle);
    NewSinceExtends(u.log, t.log, |s.log|, f.pid, f.handle);
    g := DescendsFrom(u, t, f);
    MessageFlags(cfg, run[k].1, u, run[k].0, g, f);
  }

  /** On every run, an entry that is still listed and was not admitted anew is flagged if and
      only if it was before or some message in between flagged it, as long as no call or
      alarm has ended. */
  lemma {:induction false} FlaggedOnRun(cfg: Config, run: seq<(Message, World)>, i: nat, j: nat, e: Sound, f: Sound)
    requires NoEnd(run, i, j)
    requires e in Run(cfg, run[..i]).list && f in Run(cfg, run[..j]).list && f.pid == e.pid && f.handle == e.handle
    requires !NewSince(Run(cfg, run[..j]).log, |Run(cfg, run[..i]).log|, e.pid, e.handle)
    ensures f.resume <==> e.resume || exists k :: i <= k < j && FlagsAt(cfg, run, k, e.pid, e.handle)
    decreases j
  {
    hide Run, NewSince, Ends, FlagsAt;
    if i == j {
      RunInv(cfg, run[..i]);
      UniqueInv(cfg, Run(cfg, run[..i]));
      SameEntry(Run(cfg, run[..i]).list, e, f);
    } else {
      var g := LastMessage(cfg, run, i, j - 1, f);
      FlaggedOnRun(cfg, run, i, j - 1, e, g);
    }
  }

  lemma UniqueInv(cfg: Config, s: State)
    requires Inv(cfg, s)
    ensures Unique(s.list)
  {
  }

  lemma LogsGrow(s: State, t: State)
    requires Carried(s, t)
    ensures s.log <= t.log
  {
  }

  // ------------------------------------------------------------------ the count

  /** How many RESUMEs an entry got since position `from` of the log. */
  function ResumeCount(log: seq<Effect>, from: nat, pid: int, handle: int): nat {
    if |log| <= from then 0
    else
      ResumeCount(log[..|log| - 1], from, pid, handle) + if Resumes(log[|log| - 1], pid, handle) then 1 else 0
  }

  lemma ResumeCountNext(log: seq<Effect>, x: Effect, from: nat, pid: int, handle: int)
    requires from <= |log|
    ensures ResumeCount(log + [x], from, pid, handle) ==
              ResumeCount(log, from, pid, handle) + if Resumes(x, pid, handle) then 1 else 0
  {
    assert (log + [x])[..|log|] == log;
  }

  lemma {:induction false} GrownCount(a: seq<Effect>, b: seq<Effect>, pid: int, handle: int)
    requires Grows(a, b)
    ensures ResumeCount(b, |a|, pid, handle) == 0
  {
    if |a| < |b| { GrownCount(a, b[..|b| - 1], pid, handle); }
  }

  /** An entry with this process and handle is flagged, from position `i` on. */
  ghost predicate FlaggedFrom(list: seq<Sound>, i: nat, pid: int, handle: int) {
    exists k :: i <= k < |list| && list[k].resume && list[k].pid == pid && list[k].handle == handle
  }

  lemma FlaggedNext(list: seq<Sound>, i: nat, pid: int, handle: int)
    requires Unique(list) && i < |list|
    ensures var here := list[i].resume && list[i].pid == pid && list[i].handle == handle;
            && (FlaggedFrom(list, i, pid, handle) <==> here || FlaggedFrom(list, i + 1, pid, handle))
            && !(here && FlaggedFrom(list, i + 1, pid, handle))
  {
  }

  lemma FlaggedSame(a: seq<Sound>, b: seq<Sound>, i: nat, pid: int, handle: int)
    requires |a| == |b| && forall k :: i <= k < |a| ==> a[k] == b[k]
    ensures FlaggedFrom(a, i, pid, handle) <==> FlaggedFrom(b, i, pid, handle)
  {
  }

  /** The sweep sends one RESUME to each flagged entry and none to any other. */
  lemma {:induction false} SweepCounts(w: World, s: State, i: nat, source: Source, cause: Event,
                                       from: nat, pid: int, handle: int)
    requires Unique(s.list) && i <= |s.list| && from <= |s.log|
    ensures var t := ResumeAll(w, s, i, source, cause);
            ResumeCount(t.log, from, pid, handle) ==
              ResumeCount(s.log, from, pid, handle) + if FlaggedFrom(s.list, i, pid, handle) then 1 else 0
    decreases |s.list| - i
  {
    hide FlaggedFrom, ResumeCount;
    if i < |s.list| {
      FlaggedNext(s.list, i, pid, handle);
      if s.list[i].resume {
        var v := s.list[i];
        var s1 := Ring(w, s, v.pid, v.handle, CmdResume, source, Worker, cause);
        var s2 := s1.(list := s1.list[i := v.(resume := false)]);
        ResumeCountNext(s.log, s1.log[|s.log|], from, pid, handle);
        FlaggedSame(s.list, s2.list, i + 1, pid, handle);
        SweepCounts(w, s2, i + 1, source, cause, from, pid, handle);
      } else {
        SweepCounts(w, s, i + 1, source, cause, from, pid, handle);
      }
    } else {
      NoneFlagged(s.list, i, pid, handle);
    }
  }

  lemma NoneFlagged(list: seq<Sound>, i: nat, pid: int, handle: int)
    requires i >= |list|
    ensures !FlaggedFrom(list, i, pid, handle)
  {
  }

  ghost predicate Listed(list: seq<Sound>, pid: int, handle: int) {
    exists f :: f in list && f.pid == pid && f.handle == handle
  }

  /** The end of an interruption, seen from one entry. */
  lemma EndCounts(cfg: Config, w: World, s: State, m: Message, from: nat, pid: int, handle: int)
    requires Inv(cfg, s) && Ends(m) && from <= |s.log|
    ensures var t := Process(cfg, w, s, m).0;
            var left := Unregister(s, m.handle).list;
            && s.log <= t.log && SameSounds(left, t.list) && Unique(left)
            && ResumeCount(t.log, from, pid, handle) ==
                 ResumeCount(s.log, from, pid, handle) + if FlaggedFrom(left, 0, pid, handle) then 1 else 0
  {
    EndOfInterruption(w, s, m.handle, m.event);
    UnregisterInv(cfg, s, m.handle);
    UnregisterLog(s, m.handle);
    hide Unregister, ResumeAll, FlaggedFrom, ResumeCount, Cached, Owed, Unique;
    var s1 := Unregister(s, m.handle);
    var session := if m.event == VideoCall then Voip else if m.event == Alarm then Notification else VoiceCall;
    var s2 := SetSession(s1, session, false);
    ResumeCountNext(s.log, SessionSet(session, false), from, pid, handle);
    SweepCounts(w, s2, 0, if m.event == Alarm then AlarmEnd else CallEnd, m.event, from, pid, handle);
  }

  lemma UnregisterSub(s: State, handle: int)
    ensures forall f :: f in Unregister(s, handle).list ==> f in s.list
  {
    hide MaskOf;
  }

  lemma WasListed(a: seq<Sound>, b: seq<Sound>, pid: int, handle: int) returns (f: Sound)
    requires SameSounds(a, b) && Listed(b, pid, handle)
    ensures f in a && f.pid == pid && f.handle == handle
  {
    var k :| 0 <= k < |b| && b[k].pid == pid && b[k].handle == handle;
    assert SameSound(a[k], b[k]);
    f := a[k];
  }

  lemma IsFlagged(list: seq<Sound>, f: Sound)
    requires Unique(list) && f in list
    ensures FlaggedFrom(list, 0, f.pid, f.handle) <==> f.resume
  {
    var k :| 0 <= k < |list| && list[k] == f;
  }

  /** On every run, an entry that is listed when the first call or alarm ends, and was not
      admitted anew, has by then got exactly one RESUME if it was flagged or some message
      flagged it, and none if not. */
  lemma ResumedExactly(cfg: Config, run: seq<(Message, World)>, i: nat, e: Sound)
    requires i < |run| && NoEnd(run, i, |run| - 1) && Ends(run[|run| - 1].0)
    requires e in Run(cfg, run[..i]).list && Listed(Run(cfg, run).list, e.pid, e.handle)
    requires !NewSince(Run(cfg, run).log, |Run(cfg, run[..i]).log|, e.pid, e.handle)
    ensures ResumeCount(Run(cfg, run).log, |Run(cfg, run[..i]).log|, e.pid, e.handle) ==
              if e.resume || exists k :: i <= k < |run| - 1 && FlagsAt(cfg, run, k, e.pid, e.handle) then 1 else 0
  {
    hide Run, Process, Inv, NoEnd, Unregister, FlagsAt;
    var n := |run| - 1;
    RunNext(cfg, run, n);
    assert run[..n + 1] == run;
    RunCarries(cfg, run, i, n);
    RunInv(cfg, run[..n]);
    var s, u, m := Run(cfg, run[..i]), Run(cfg, run[..n]), run[n].0;
    hide Ends;
    GrownCount(s.log, u.log, e.pid, e.handle);
    EndCounts(cfg, run[n].1, u, m, |s.log|, e.pid, e.handle);
    hide ResumeCount, FlaggedFrom, NewSince, Carried, Unique, Listed, SameSounds;
    NewSinceExtends(u.log, Run(cfg, run).log, |s.log|, e.pid, e.handle);
    FlaggedInTheEnd(cfg, run, i, e, Unregister(u, m.handle).list, Run(cfg, run).list);
  }

  lemma FlaggedInTheEnd(cfg: Config, run: seq<(Message, World)>, i: nat, e: Sound, left: seq<Sound>, list: seq<Sound>)
    requires i < |run| && NoEnd(run, i, |run| - 1) && Ends(run[|run| - 1].0) && e in Run(cfg, run[..i]).list
    requires left == Unregister(Run(cfg, run[..|run| - 1]), run[|run| - 1].0.handle).list && Unique(left)
    requires SameSounds(left, list) && Listed(list, e.pid, e.handle)
    requires !NewSince(Run(cfg, run[..|run| - 1]).log, |Run(cfg, run[..i]).log|, e.pid, e.handle)
    ensures FlaggedFrom(left, 0, e.pid, e.handle) <==>
              e.resume || exists k :: i <= k < |run| - 1 && FlagsAt(cfg, run, k, e.pid, e.handle)
  {
    hide Run, NewSince, FlagsAt, FlaggedFrom, Unique, SameSounds, Listed, NoEnd, Unregister;
    var f := WasListed(left, list, e.pid, e.handle);
    UnregisterSub(Run(cfg, run[..|run| - 1]), run[|run| - 1].0.handle);
    FlaggedOnRun(cfg, run, i, |run| - 1, e, f);
    IsFlagged(left, f);
  }
}
