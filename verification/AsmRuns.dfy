/** What every run of messages keeps: distinct handles in range and exact masks; how
    handles are allocated and how entries are removed. */
module AsmRuns {
  import opened AsmTypes
  import opened AsmModel
  import opened AsmArbitration
  import opened AsmCache
  import opened AsmOutcome
  import opened Counting

  ghost predicate InRange(list: seq<Sound>, max: nat) {
    forall k :: 0 <= k < |list| ==> 0 <= list[k].handle < max
  }

  ghost predicate Inv(cfg: Config, s: State) {
    Unique(s.list) && InRange(s.list, cfg.maxHandles) && Cached(s)
  }

  // ----------------------------------------------------------------- removals

  /** The purge keeps exactly the sounds of existing processes, in their order. */
  lemma {:induction false} SurvivorsExact(list: seq<Sound>, w: World)
    ensures forall x :: x in Survivors(list, w) <==> x in list && PidExists(w, x.pid)
    ensures forall a, b :: Survivors(a + b, w) == Survivors(a, w) + Survivors(b, w)
  {
    forall a: seq<Sound>, b: seq<Sound> ensures Survivors(a + b, w) == Survivors(a, w) + Survivors(b, w) {
      SurvivorsAppend(a, b, w);
    }
    SurvivorsMembers(list, w);
  }

  lemma {:induction false} SurvivorsMembers(list: seq<Sound>, w: World)
    ensures forall x :: x in Survivors(list, w) <==> x in list && PidExists(w, x.pid)
  {
    if list != [] {
      SurvivorsMembers(list[1..], w);
      assert list == [list[0]] + list[1..];
    }
  }

  lemma {:induction false} SurvivorsAppend(a: seq<Sound>, b: seq<Sound>, w: World)
    ensures Survivors(a + b, w) == Survivors(a, w) + Survivors(b, w)
  {
    hide PidExists;
    if a == [] {
      assert a + b == b;
    } else {
      SurvivorsAppend(a[1..], b, w);
      assert (a + b)[1..] == a[1..] + b;
    }
  }

  lemma {:induction false} SurvivorsUnique(list: seq<Sound>, w: World, max: nat)
    requires Unique(list) && InRange(list, max)
    ensures Unique(Survivors(list, w)) && InRange(Survivors(list, w), max)
  {
    if list != [] {
      SurvivorsUnique(list[1..], w, max);
      SurvivorsMembers(list[1..], w);
    }
  }

  lemma {:induction false} WithoutPidMembers(list: seq<Sound>, pid: int)
    ensures forall x :: x in WithoutPid(list, pid) <==> x in list && x.pid != pid
  {
    if list != [] {
      WithoutPidMembers(list[1..], pid);
      assert list == [list[0]] + list[1..];
    }
  }

  lemma {:induction false} WithoutPidAppend(a: seq<Sound>, b: seq<Sound>, pid: int)
    ensures WithoutPid(a + b, pid) == WithoutPid(a, pid) + WithoutPid(b, pid)
  {
    hide WithoutPid;
    if a == [] {
      NobodyWithout(pid);
      assert a + b == b && [] + WithoutPid(b, pid) == WithoutPid(b, pid);
    } else {
      WithoutPidAppend(a[1..], b, pid);
      WithoutPidFront(a[0], a[1..], pid);
      WithoutPidFront(a[0], a[1..] + b, pid);
      assert a == [a[0]] + a[1..] && a + b == [a[0]] + (a[1..] + b);
    }
  }

  lemma NobodyWithout(pid: int)
    ensures WithoutPid([], pid) == []
  {
  }

  lemma WithoutPidFront(e: Sound, rest: seq<Sound>, pid: int)
    ensures WithoutPid([e] + rest, pid) == (if e.pid != pid then [e] else []) + WithoutPid(rest, pid)
  {
    assert ([e] + rest)[1..] == rest;
  }

  /** An exit removes exactly the sounds of that process; the others keep their order. */
  lemma WithoutPidExact(list: seq<Sound>, pid: int)
    ensures forall x :: x in WithoutPid(list, pid) <==> x in list && x.pid != pid
    ensures forall a, b :: WithoutPid(a + b, pid) == WithoutPid(a, pid) + WithoutPid(b, pid)
  {
    forall a: seq<Sound>, b: seq<Sound> ensures WithoutPid(a + b, pid) == WithoutPid(a, pid) + WithoutPid(b, pid) {
      WithoutPidAppend(a, b, pid);
    }
    WithoutPidMembers(list, pid);
  }

  lemma {:induction false} WithoutPidUnique(list: seq<Sound>, pid: int, max: nat)
    requires Unique(list) && InRange(list, max)
    ensures Unique(WithoutPid(list, pid)) && InRange(WithoutPid(list, pid), max)
  {
    if list != [] {
      WithoutPidUnique(list[1..], pid, max);
      WithoutPidMembers(list[1..], pid);
    }
  }

  // ------------------------------------------------------------------ handles

  predicate Taken(list: seq<Sound>, handle: int) {
    exists k :: 0 <= k < |list| && list[k].handle == handle
  }

  /** The search returns the least handle that is not taken, or nothing. */
  lemma {:induction false} LeastFreeMeaning(list: seq<Sound>, h: nat, max: nat)
    ensures var f := LeastFree(list, h, max);
            if f == -1 then forall g :: h <= g < max ==> Taken(list, g)
            else h <= f < max && !Taken(list, f) && forall g :: h <= g < f ==> Taken(list, g)
    decreases max - h
  {
    if h < max {
      var k := HandleIndex(list, h);
      if k < |list| {
        assert list[k].handle == h;
        LeastFreeMeaning(list, h + 1, max);
      }
    }
  }

  function Handles(list: seq<Sound>): set<int> {
    set k | 0 <= k < |list| :: list[k].handle
  }

  lemma {:induction false} HandlesCount(list: seq<Sound>)
    requires Unique(list)
    ensures |Handles(list)| == |list|
  {
    if list != [] {
      var n := |list| - 1;
      HandlesCount(list[..n]);
      assert Handles(list) == Handles(list[..n]) + {list[n].handle};
    }
  }

  /** A registration is refused for lack of a handle exactly when the maximum number
      of sounds is listed (a pigeonhole argument on distinct handles). */
  lemma FullExactly(list: seq<Sound>, max: nat)
    requires Unique(list) && InRange(list, max)
    ensures |list| <= max
    ensures LeastFree(list, 0, max) == -1 <==> |list| == max
  {
    HandlesCount(list);
    assert Handles(list) <= Range(max);
    SubsetSize(Handles(list), Range(max));
    LeastFreeMeaning(list, 0, max);
    var f := LeastFree(list, 0, max);
    if |list| == max {
      SubsetCount(Handles(list), Range(max));
      assert f in Range(max) ==> Taken(list, f);
    } else if f == -1 {
      forall h | h in Range(max) ensures h in Handles(list) { assert Taken(list, h); }
      SubsetSize(Range(max), Handles(list));
    }
  }

  // --------------------------------------------------------------- invariants

  lemma RefreshInv(cfg: Config, s: State)
    requires Unique(s.list) && InRange(s.list, cfg.maxHandles)
    ensures Inv(cfg, Refresh(s))
  {
  }

  lemma SessionInv(cfg: Config, s: State, session: Session, start: bool)
    requires Inv(cfg, s)
    ensures Inv(cfg, SetSession(s, session, start))
  {
  }

  lemma DeadProcessInv(cfg: Config, w: World, s: State)
    requires Inv(cfg, s)
    ensures Inv(cfg, CheckDeadProcess(s, w))
  {
    SurvivorsUnique(s.list, w, cfg.maxHandles);
  }

  lemma ChangeStateInv(cfg: Config, s: State, pid: int, handle: int, status: Status, resource: Bits)
    requires Inv(cfg, s)
    ensures Inv(cfg, ChangeState(s, pid, handle, status, resource))
  {
    ChangeStateCached(s, pid, handle, status, resource);
    ChangeStateHandles(s, pid, handle, status, resource);
    hide ChangeState, Cached;
  }

  lemma ChangeStateHandles(s: State, pid: int, handle: int, status: Status, resource: Bits)
    ensures var t := ChangeState(s, pid, handle, status, resource);
            |t.list| == |s.list| && forall j :: 0 <= j < |s.list| ==> s.list[j].handle == t.list[j].handle
  {
    var t := ChangeState(s, pid, handle, status, resource);
    var k := IndexOf(s.list, pid, handle);
    hide ChangeState, IndexOf;
    if status != Ignored {
      forall j | 0 <= j < |s.list| ensures s.list[j].handle == t.list[j].handle {
        assert SameSound(if j == k then s.list[j].(state := status, resource := resource) else s.list[j], t.list[j]);
      }
    }
  }

  lemma RecordedInv(r: Request, recorded: bool, s: seq<Sound>, t: seq<Sound>, max: nat)
    requires Recorded(r, recorded, s, t) && Unique(s) && InRange(s, max)
    requires r.kind == Register ==> 0 <= r.handle < max && !Taken(s, r.handle)
    ensures Unique(t) && InRange(t, max)
  {
    var k := |t| - |s|;
    forall i | 0 <= i < |t| ensures t[i].handle == if i < k then r.handle else s[i - k].handle {
      if i >= k { assert SameIdentity(s[i - k], t[i - k + k]); }
    }
  }

  lemma CompareInv(cfg: Config, w: World, r: Request, s: State)
    requires Inv(cfg, s) && Ready(r, s)
    requires r.kind == Register ==> 0 <= r.handle < cfg.maxHandles
    ensures Inv(cfg, Compare(cfg, w, r, s).0)
  {
    CompareCached(cfg, w, r, s);
    hide Compare, Cached, Recorded, Unique, InRange;
    var recorded := RecordedBy(cfg, w, r, s);
    var t := Compare(cfg, w, r, s).0;
    RecordedInv(r, recorded, s.list, t.list, cfg.maxHandles);
  }

  lemma {:induction false} ResumeAllKeeps(w: World, s: State, i: nat, source: Source, cause: Event)
    ensures var t := ResumeAll(w, s, i, source, cause);
            && SameSounds(s.list, t.list) && s.playing == t.playing && s.paused == t.paused
            && (forall j :: i <= j < |t.list| ==> !t.list[j].resume)
            && (forall j :: 0 <= j < i && j < |t.list| ==> s.list[j] == t.list[j])
    decreases |s.list| - i
  {
    if i < |s.list| {
      if s.list[i].resume {
        var v := s.list[i];
        var s1 := Ring(w, s, v.pid, v.handle, CmdResume, source, Worker, cause);
        ResumeAllKeeps(w, s1.(list := s1.list[i := v.(resume := false)]), i + 1, source, cause);
      } else {
        ResumeAllKeeps(w, s, i + 1, source, cause);
      }
    }
  }

  lemma ResumeAllInv(cfg: Config, w: World, s: State, source: Source, cause: Event)
    requires Inv(cfg, s)
    ensures Inv(cfg, ResumeAll(w, s, 0, source, cause))
  {
    hide Cached, ResumeAll;
    ResumeAllKeeps(w, s, 0, source, cause);
    var t := ResumeAll(w, s, 0, source, cause);
    CachedSame(s, t);
    assert forall j :: 0 <= j < |s.list| ==> SameSound(s.list[j], t.list[j]);
  }

  lemma RemoveInv(list: seq<Sound>, k: nat, max: nat)
    requires Unique(list) && InRange(list, max) && k < |list|
    ensures Unique(list[..k] + list[k + 1..]) && InRange(list[..k] + list[k + 1..], max)
  {
    var t := list[..k] + list[k + 1..];
    forall i | 0 <= i < |t| ensures t[i] == list[if i < k then i else i + 1] { }
  }

  lemma UnregisterInv(cfg: Config, s: State, handle: int)
    requires Inv(cfg, s)
    ensures Inv(cfg, Unregister(s, handle))
  {
    var k := HandleIndex(s.list, handle);
    hide MaskOf, Unique, InRange;
    if k < |s.list| { RemoveInv(s.list, k, cfg.maxHandles); }
  }

  lemma RegisterInv(cfg: Config, w: World, s: State, m: Message)
    requires Inv(cfg, s) && m.MsgRegister?
    ensures Inv(cfg, Process(cfg, w, s, m).0)
  {
    DeadProcessInv(cfg, w, s);
    var s1 := CheckDeadProcess(s, w);
    hide CheckDeadProcess, Compare, Cached, LeastFree, SetSession, InRange;
    var handle := LeastFree(s1.list, 0, cfg.maxHandles);
    LeastFreeMeaning(s1.list, 0, cfg.maxHandles);
    if handle != -1 {
      var r := Request(Register, m.pid, handle, m.event, m.state, m.resource);
      CompareInv(cfg, w, r, s1);
      hide Inv;
      SessionInv(cfg, Compare(cfg, w, r, s1).0, VoiceCall, true);
      SessionInv(cfg, Compare(cfg, w, r, s1).0, Voip, true);
    }
  }

  lemma PlayInv(cfg: Config, w: World, s: State, r: Request)
    requires Inv(cfg, s) && r.kind == SetState
    ensures Inv(cfg, OnPlay(cfg, w, s, r).0)
  {
    ChangeStateInv(cfg, s, r.pid, r.handle, r.state, r.resource);
    if !IsPlayingNow(s.list, r.pid, r.handle) {
      CompareInv(cfg, w, r, s);
      hide Compare, Inv, SetSession, ChangeState;
      var t := Compare(cfg, w, r, s).0;
      SessionInv(cfg, t, Notification, true);
      SessionInv(cfg, t, FmRadio, true);
    }
  }

  lemma SetStateInv(cfg: Config, w: World, s: State, r: Request)
    requires Inv(cfg, s) && r.kind == SetState
    ensures Inv(cfg, OnSetState(cfg, w, s, r).0)
  {
    DeadProcessInv(cfg, w, s);
    hide CheckDeadProcess, Inv, SetSession, ChangeState, OnPlay;
    var s1 := CheckDeadProcess(s, w);
    PlayInv(cfg, w, s1, r);
    ChangeStateInv(cfg, s1, r.pid, r.handle, r.state, r.resource);
    SessionInv(cfg, ChangeState(s1, r.pid, r.handle, r.state, r.resource), FmRadio, false);
  }

  lemma EndedInv(cfg: Config, w: World, s: State, ended: Session, source: Source, cause: Event)
    requires Inv(cfg, s)
    ensures Inv(cfg, ResumeAll(w, SetSession(s, ended, false), 0, source, cause))
  {
    SessionInv(cfg, s, ended, false);
    ResumeAllInv(cfg, w, SetSession(s, ended, false), source, cause);
  }

  lemma OnUnregisterInv(cfg: Config, w: World, s: State, handle: int, event: Event)
    requires Inv(cfg, s)
    ensures Inv(cfg, OnUnregister(w, s, handle, event))
  {
    UnregisterInv(cfg, s, handle);
    hide Unregister, Inv, ResumeAll, SetSession;
    var s1 := Unregister(s, handle);
    match event {
      case Call => EndedInv(cfg, w, s1, VoiceCall, CallEnd, event);
      case RichCall => EndedInv(cfg, w, s1, VoiceCall, CallEnd, event);
      case VideoCall => EndedInv(cfg, w, s1, Voip, CallEnd, event);
      case Alarm => EndedInv(cfg, w, s1, Notification, AlarmEnd, event);
      case _ =>
    }
  }

  /** One message, whatever it is and however clients reply, keeps the invariant. */
  lemma ProcessInv(cfg: Config, w: World, s: State, m: Message)
    requires Inv(cfg, s)
    ensures Inv(cfg, Process(cfg, w, s, m).0)
  {
    hide OnRegister, OnSetState, OnUnregister, Cached;
    match m {
      case MsgRegister(_, _, _, _) => RegisterInv(cfg, w, s, m);
      case MsgUnregister(handle, event) => OnUnregisterInv(cfg, w, s, handle, event);
      case MsgSetState(pid, handle, event, status, resource) =>
        SetStateInv(cfg, w, s, Request(SetState, pid, handle, event, status, resource));
      case MsgGetMyState(_) => DeadProcessInv(cfg, w, s);
      case MsgEmergentExit(pid) =>
        WithoutPidUnique(s.list, pid, cfg.maxHandles);
        RefreshInv(cfg, s.(list := WithoutPid(s.list, pid)));
      case _ =>
    }
  }

  /** In every reachable state handles are distinct and in range, and both masks are
      the OR of the event bits of the playing and of the paused sounds. */
  lemma {:induction false} RunInv(cfg: Config, run: seq<(Message, World)>)
    ensures Inv(cfg, Run(cfg, run))
  {
    hide Process, Inv;
    if run == [] {
      InitialInv(cfg);
    } else {
      var k := |run| - 1;
      RunInv(cfg, run[..k]);
      ProcessInv(cfg, run[k].1, Run(cfg, run[..k]), run[k].0);
    }
  }

  lemma InitialInv(cfg: Config)
    ensures Inv(cfg, Initial)
  {
  }

  // --------------------------------------------------------------- allocation

  predicate AnswersTo(r: Request, answer: Option<Decision>) {
    answer.Some? ==> answer.value.allocHandle == r.handle && answer.value.state == r.state
  }

  lemma {:induction false} Pass1AnswersTo(cfg: Config, w: World, r: Request, c: Cursor)
    requires AnswersTo(r, c.answer)
    ensures AnswersTo(r, Pass1(cfg, w, r, c).answer)
    decreases |c.s.list| - c.i
  {
    hide Interrupt, Record, Effective;
    if c.i < |c.s.list| {
      Step1Advances(cfg, w, r, c);
      Pass1AnswersTo(cfg, w, r, Step1(cfg, w, r, c));
    }
  }

  lemma CompareAnswersTo(cfg: Config, w: World, r: Request, s: State)
    ensures AnswersTo(r, Compare(cfg, w, r, s).1)
  {
    hide Pass1, Pass2, Record;
    Pass1AnswersTo(cfg, w, r, Start(s));
  }

  /** On every run, a registration is refused exactly when as many live processes'
      sounds are listed as there are handles; otherwise it is decided, and told the
      least handle that none of them holds. */
  lemma RegisterAllocates(cfg: Config, run: seq<(Message, World)>, w: World, m: Message)
    requires m.MsgRegister?
    ensures var listed := Survivors(Run(cfg, run).list, w);
            var answer := Process(cfg, w, Run(cfg, run), m).1;
            && |listed| <= cfg.maxHandles
            && (answer == NoHandle <==> |listed| == cfg.maxHandles)
            && (answer != NoHandle ==>
                  && answer.Decided? && answer.decision.Some?
                  && var h := answer.decision.value.allocHandle;
                     && 0 <= h < cfg.maxHandles && !Taken(listed, h)
                     && forall g :: 0 <= g < h ==> Taken(listed, g))
  {
    var s := Run(cfg, run);
    RunInv(cfg, run);
    DeadProcessInv(cfg, w, s);
    var s1 := CheckDeadProcess(s, w);
    FullExactly(s1.list, cfg.maxHandles);
    LeastFreeMeaning(s1.list, 0, cfg.maxHandles);
    var handle := LeastFree(s1.list, 0, cfg.maxHandles);
    var r := Request(Register, m.pid, handle, m.event, m.state, m.resource);
    if handle != -1 { FreshIsReady(cfg, r, s1); AlwaysAnswers(cfg, w, r, s1); }
    CompareAnswersTo(cfg, w, r, s1);
    hide Run, Survivors, LeastFree, Compare, SetSession, Taken, MaskOf, Inv, Ready;
  }

  lemma FreshIsReady(cfg: Config, r: Request, s: State)
    requires Inv(cfg, s) && r.kind == Register && !Taken(s.list, r.handle)
    ensures Ready(r, s)
  {
    hide MaskOf;
  }

  /** On every run, a request to play gets an answer that the server filled in. */
  lemma EveryPlayIsAnswered(cfg: Config, run: seq<(Message, World)>, w: World, m: Message)
    requires m.MsgSetState? && m.state == Playing
    ensures var answer := Process(cfg, w, Run(cfg, run), m).1;
            answer.Acknowledged? || (answer.Decided? && answer.decision.Some?)
  {
    var s := Run(cfg, run);
    RunInv(cfg, run);
    DeadProcessInv(cfg, w, s);
    var s1 := CheckDeadProcess(s, w);
    var r := Request(SetState, m.pid, m.handle, m.event, m.state, m.resource);
    if !IsPlayingNow(s1.list, r.pid, r.handle) { AlwaysAnswers(cfg, w, r, s1); }
    hide Run, Survivors, Compare, StartSession, MaskOf, IsPlayingNow, ChangeState;
  }

  /** On every run, and after the purge that precedes it, a request that reaches the
      arbitration meets what the outcome theorems ask for. */
  lemma ReadyOnEveryRun(cfg: Config, run: seq<(Message, World)>, w: World, r: Request)
    ensures var s := CheckDeadProcess(Run(cfg, run), w);
            && (r.kind == Register && !Taken(s.list, r.handle) ==> Ready(r, s))
            && (r.kind == SetState && !IsPlayingNow(s.list, r.pid, r.handle) ==> Ready(r, s))
  {
    RunInv(cfg, run);
    DeadProcessInv(cfg, w, Run(cfg, run));
    var s := CheckDeadProcess(Run(cfg, run), w);
    if r.kind == Register && !Taken(s.list, r.handle) { FreshIsReady(cfg, r, s); }
    hide Run, Survivors, MaskOf, CheckDeadProcess, IsPlayingNow;
  }
}
