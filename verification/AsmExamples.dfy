/** Runs of the shipped server that do not end as one might expect. */
module AsmExamples {
  import opened AsmTypes
  import opened AsmModel
  import opened AsmArbitration
  import opened AsmCache
  import opened AsmOutcome
  import opened AsmRuns
  import opened AsmReach
  import opened AsmResume
  import opened AsmPersistence
  import opened AsmMatrix
  import opened AsmAdmission

  /** The first registration at a server that has just started. */
  lemma FirstRegistered(cfg: Config, w: World, m: Message)
    requires m.MsgRegister? && cfg.maxHandles > 0
    ensures Run(cfg, [(m, w)]).list == [Sound(m.pid, 0, m.event, m.state, false, m.resource, false, false)]
  {
    assert [(m, w)][..0] == [];
    assert Run(cfg, [(m, w)]) == Process(cfg, w, Initial, m).0;
    assert CheckDeadProcess(Initial, w) == Initial;
    hide Run, MaskOf, CheckDeadProcess, SetSession;
    assert LeastFree([], 0, cfg.maxHandles) == 0;
  }

  lemma RunTwo(cfg: Config, a: (Message, World), b: (Message, World))
    ensures Run(cfg, [a, b]) == Process(cfg, b.1, Run(cfg, [a]), b.0).0
  {
    hide Process;
    assert [a, b][..1] == [a];
  }

  /** Where all processes live, the purge changes nothing. */
  lemma {:induction false} AllSurvive(list: seq<Sound>, w: World)
    requires forall k :: 0 <= k < |list| ==> PidExists(w, list[k].pid)
    ensures Survivors(list, w) == list
  {
    hide PidExists;
    if list != [] { AllSurvive(list[1..], w); }
  }

  /** The request that a registration makes once it has a handle. */
  lemma RegisterIsCompare(cfg: Config, w: World, s: State, m: Message, h: nat)
    requires m.MsgRegister? && h < cfg.maxHandles
    requires forall g :: 0 <= g <= h ==> (Taken(Survivors(s.list, w), g) <==> g < h)
    ensures var r := Request(Register, m.pid, h, m.event, m.state, m.resource);
            var (t, answer) := Compare(cfg, w, r, CheckDeadProcess(s, w));
            && Process(cfg, w, s, m).0.list == t.list && t.log <= Process(cfg, w, s, m).0.log
            && Process(cfg, w, s, m).1 == Decided(answer)
  {
    LeastFreeMeaning(Survivors(s.list, w), 0, cfg.maxHandles);
    hide Compare, MaskOf, LeastFree, Survivors, Taken;
    assert !Taken(Survivors(s.list, w), h);
    assert LeastFree(Survivors(s.list, w), 0, cfg.maxHandles) == h;
  }

  /** A sound that the policy mixes with the only one playing is told to play. */
  lemma MixedWithOne(cfg: Config, w: World, r: Request, s: State)
    requires |s.list| == 1 && s.list[0].state == Playing && s.playing != {}
    requires r.kind == SetState && r.state == Playing && !IsOwn(s.list[0], r)
    requires Effective(cfg, s.list[0].event, r.event) == Mix
    ensures Compare(cfg, w, r, s).1 == Some(Decision(r.handle, r.handle, CmdPlay, r.state))
  {
    hide Interrupt, Record, Pass2;
    var d := Step1(cfg, w, r, Start(s));
    Step1Advances(cfg, w, r, Start(s));
    assert Pass1(cfg, w, r, Start(s)) == Pass1(cfg, w, r, d) == d;
    hide Pass1;
  }

  /** The entries of the shipped matrix that the examples use. */
  lemma ExamplePolicies()
    ensures MatrixPolicy(ShareMmplayer, ShareMmplayer) == Mix
    ensures MatrixPolicy(ShareMmplayer, Call) == Mix
    ensures MatrixPolicy(RichCall, ShareMmcamcorder) == Mix
    ensures MatrixPolicy(ShareMmcamcorder, ExclusiveMmplayer) == Stop1Play2
    ensures MatrixPolicy(RichCall, ExclusiveMmplayer) == Play1Stop2
  {
  }

  /** A run of the shipped server after which a process without an entry is told to play,
      and still has none. */
  lemma ToldToPlayYetUnlisted(w: World, max: nat)
    requires max > 0 && w.alive(2)
    ensures var cfg := Shipped(max, false);
            var s := Run(cfg, [(MsgRegister(2, ShareMmplayer, Playing, {}), w)]);
            var (t, answer) := Process(cfg, w, s, MsgSetState(9, 5, ShareMmplayer, Playing, {}));
            answer == Decided(Some(Decision(5, 5, CmdPlay, Playing))) && forall e :: e in t.list ==> e.pid != 9
  {
    hide MatrixPolicy, Run, Compare, Survivors, Recorded, Ready, MaskOf;
    ExamplePolicies();
    var cfg := Shipped(max, false);
    var run := [(MsgRegister(2, ShareMmplayer, Playing, {}), w)];
    var s := Run(cfg, run);
    FirstRegistered(cfg, w, run[0].0);
    AllSurvive(s.list, w);
    var s1 := CheckDeadProcess(s, w);
    var r := Request(SetState, 9, 5, ShareMmplayer, Playing, {});
    ReadyOnEveryRun(cfg, run, w, r);
    BusyWithOne(r, s1);
    MixedWithOne(cfg, w, r, s1);
    var recorded := RecordedBy(cfg, w, r, s1);
    var t := Compare(cfg, w, r, s1).0;
    NobodyNew(r, recorded, s1.list, t.list);
  }

  lemma BusyWithOne(r: Request, s: State)
    requires Ready(r, s) && |s.list| == 1 && s.list[0].state == Playing
    ensures s.playing != {}
  {
    MaskMeaning(s.list, Playing);
    assert s.list[0].event in MaskOf(s.list, Playing);
  }

  lemma NobodyNew(r: Request, recorded: bool, s: seq<Sound>, t: seq<Sound>)
    requires Recorded(r, recorded, s, t) && r.kind == SetState && forall e :: e in s ==> e.pid != r.pid
    ensures forall e :: e in t ==> e.pid != r.pid
  {
    forall j | 0 <= j < |t| ensures t[j].pid != r.pid {
      assert SameIdentity(s[j], t[j + 0]);
      assert s[j] in s;
    }
  }

  /** After a rich call and a camcorder that may sound along with it. */
  lemma CallAndCamcorder(w: World, max: nat)
    requires max >= 3 && w.alive(3)
    ensures var list := Run(Shipped(max, false), [(MsgRegister(3, RichCall, Playing, {}), w),
                                                  (MsgRegister(2, ShareMmcamcorder, Playing, {}), w)]).list;
            && |list| == 2
            && SameSound(list[0], Sound(2, 1, ShareMmcamcorder, Playing, false, {}, false, false))
            && SameSound(list[1], Sound(3, 0, RichCall, Playing, false, {}, false, false))
  {
    hide MatrixPolicy, Run, Compare, Survivors, Process, Ready, Taken, CheckDeadProcess;
    ExamplePolicies();
    var cfg := Shipped(max, false);
    var first := (MsgRegister(3, RichCall, Playing, {}), w);
    var m := MsgRegister(2, ShareMmcamcorder, Playing, {});
    var s := Run(cfg, [first]);
    FirstRegistered(cfg, w, first.0);
    AllSurvive(s.list, w);
    RunTwo(cfg, first, (m, w));
    var call := s.list[0];
    OneTaken(s.list);
    RegisterIsCompare(cfg, w, s, m, 1);
    var r := Request(Register, 2, 1, ShareMmcamcorder, Playing, {});
    Purged(s, w);
    ReadyOnEveryRun(cfg, [first], w, r);
    MixesBehind(cfg, w, r, CheckDeadProcess(s, w), call);
  }

  lemma OneTaken(list: seq<Sound>)
    requires |list| == 1 && list[0].handle == 0
    ensures forall g :: Taken(list, g) <==> g == 0
  {
  }

  lemma Purged(s: State, w: World)
    ensures CheckDeadProcess(s, w).list == Survivors(s.list, w) && CheckDeadProcess(s, w).log == s.log
  {
    hide Survivors, MaskOf;
  }

  /** A newcomer that mixes with the only sound is put in front of it. */
  lemma MixesBehind(cfg: Config, w: World, r: Request, s: State, e: Sound)
    requires Ready(r, s) && s.list == [e] && e.state == Playing && e.pid != r.pid
    requires r.kind == Register && r.state == Playing
    requires Effective(cfg, e.event, r.event) == Mix && !Clash(e.resource, r.resource)
    ensures var t := Compare(cfg, w, r, s).0;
            |t.list| == 2 && SameSound(t.list[0], NewSound(r)) && SameSound(t.list[1], e)
  {
    hide Compare, Clash, Recorded, Effective, Ready;
    BusyWithOne(r, s);
    assert Welcomes(cfg, r, s.list[0]);
    assert WelcomedFirst(cfg, r, s.list, 0);
    ListedExactly(cfg, w, r, s);
    var recorded := RecordedBy(cfg, w, r, s);
    MixedIsNotDenied(cfg, w, r, s, e);
    ArbitrationOutcome(cfg, w, r, s, 0);
    var t := Compare(cfg, w, r, s).0;
    NewInFront(r, recorded, s.list, t.list);
  }

  lemma NewInFront(r: Request, recorded: bool, s: seq<Sound>, t: seq<Sound>)
    requires Recorded(r, recorded, s, t) && |t| == |s| + 1
    ensures SameSound(t[0], NewSound(r))
  {
  }

  lemma MixedIsNotDenied(cfg: Config, w: World, r: Request, s: State, e: Sound)
    requires Ready(r, s) && s.list == [e] && r.state == Playing && Effective(cfg, e.event, r.event) == Mix
    ensures !Denied(Compare(cfg, w, r, s).1)
  {
    hide Compare, Ready;
    DenialIsOrderIndependent(cfg, w, r, s);
  }

  /** A run of the shipped server after which a registration is answered STOP and yet
      listed as playing: the camcorder in front yields to it before the call behind
      denies it. */
  lemma DeniedYetListed(w: World, max: nat)
    requires max >= 3 && w.alive(2) && w.alive(3)
    ensures var cfg := Shipped(max, false);
            var s := Run(cfg, [(MsgRegister(3, RichCall, Playing, {}), w),
                               (MsgRegister(2, ShareMmcamcorder, Playing, {}), w)]);
            var (t, answer) := Process(cfg, w, s, MsgRegister(4, ExclusiveMmplayer, Playing, {}));
            && answer.Decided? && Denied(answer.decision) && |t.list| == 3
            && SameSound(t.list[0], Sound(4, 2, ExclusiveMmplayer, Playing, false, {}, false, false))
  {
    hide MatrixPolicy, Run, Compare, Survivors, Process, Ready, Taken, CheckDeadProcess;
    ExamplePolicies();
    var cfg := Shipped(max, false);
    var run := [(MsgRegister(3, RichCall, Playing, {}), w), (MsgRegister(2, ShareMmcamcorder, Playing, {}), w)];
    var s := Run(cfg, run);
    CallAndCamcorder(w, max);
    AllSurvive(s.list, w);
    var m := MsgRegister(4, ExclusiveMmplayer, Playing, {});
    var r := Request(Register, 4, 2, ExclusiveMmplayer, Playing, {});
    TwoTaken(s.list);
    RegisterIsCompare(cfg, w, s, m, 2);
    Purged(s, w);
    ReadyOnEveryRun(cfg, run, w, r);
    YieldsThenDenies(cfg, w, r, CheckDeadProcess(s, w));
  }

  lemma TwoTaken(list: seq<Sound>)
    requires |list| == 2 && list[0].handle == 1 && list[1].handle == 0
    ensures forall g :: Taken(list, g) <==> g == 0 || g == 1
  {
  }

  /** The first of two sounds admits the newcomer, the second denies it. */
  lemma YieldsThenDenies(cfg: Config, w: World, r: Request, s: State)
    requires Ready(r, s) && |s.list| == 2 && r.kind == Register && r.state == Playing && !cfg.gcf
    requires forall k :: 0 <= k < 2 ==> s.list[k].state == Playing && s.list[k].pid != r.pid
    requires cfg.policy(s.list[0].event, r.event) == Stop1Play2 && cfg.policy(s.list[1].event, r.event) == Play1Stop2
    ensures var (t, answer) := Compare(cfg, w, r, s);
            Denied(answer) && |t.list| == 3 && SameSound(t.list[0], NewSound(r))
  {
    hide Compare, Ready, Recorded;
    assert Welcomes(cfg, r, s.list[0]);
    assert WelcomedFirst(cfg, r, s.list, 0);
    ListedExactly(cfg, w, r, s);
    var recorded := RecordedBy(cfg, w, r, s);
    assert s.list[1] in s.list;
    DenialIsOrderIndependent(cfg, w, r, s);
    var t := Compare(cfg, w, r, s).0;
    NewInFront(r, recorded, s.list, t.list);
  }

  // -------------------------------------------------- stopped and not resumed

  /** A sound of no monitor that mixes with the newcomer is not flagged by it. */
  lemma MixIsNotFlagged(cfg: Config, r: Request, e: Sound)
    requires Effective(cfg, e.event, r.event) == Mix && e.event != Monitor
    ensures !Flags(cfg, r, [e], 0, 0)
  {
    hide Reached, Hears, NeedsResume;
    assert MonitorOf([e], e.pid) == 1;
  }

  /** A call wants a resource of the only sound, which may mix with it. */
  lemma MixedForCall(cfg: Config, w: World, r: Request, s: State, e: Sound) returns (f: Sound)
    requires Ready(r, s) && s.list == [e] && e.state == Playing && e.pid != r.pid && !e.resume && e.event != Monitor
    requires r.state == Playing && Effective(cfg, e.event, r.event) == Mix && Clash(e.resource, r.resource)
    ensures var (t, answer) := Compare(cfg, w, r, s);
            && !Denied(answer) && f in t.list && f.pid == e.pid && f.handle == e.handle && !f.resume
            && (f.state == Playing ==> IgnoredBy(t.log, |s.log|, e))
  {
    hide Compare, Ready, Effective, Clash, Flags, IgnoredBy;
    MixedIsNotDenied(cfg, w, r, s, e);
    ArbitrationOutcome(cfg, w, r, s, 0);
    FlaggedExactly(cfg, w, r, s, 0);
    MixIsNotFlagged(cfg, r, e);
    f := Compare(cfg, w, r, s).0.list[|Compare(cfg, w, r, s).0.list| - 1];
  }

  lemma NotFlaggedAlone(list: seq<Sound>, left: seq<Sound>, f: Sound)
    requires Unique(list) && f in list && !f.resume && forall x :: x in left ==> x in list
    ensures !FlaggedFrom(left, 0, f.pid, f.handle)
  {
    forall k | 0 <= k < |left| && left[k].handle == f.handle ensures !left[k].resume {
      assert left[k] in left;
      SameEntry(list, left[k], f);
    }
  }

  /** The end of a call after which no entry like `f` is to be resumed. */
  lemma NoResumeAtEnd(cfg: Config, run: seq<(Message, World)>, end: (Message, World), f: Sound)
    requires NoEnd(run, 0, |run|) && Ends(end.0) && f in Run(cfg, run).list && !f.resume
    ensures ResumeCount(Run(cfg, run + [end]).log, 0, f.pid, f.handle) == 0
  {
    RunCarries(cfg, run, 0, |run|);
    RunInv(cfg, run);
    assert run[..0] == [] && run[..|run|] == run && (run + [end])[..|run|] == run;
    var u := Run(cfg, run);
    assert Run(cfg, run[..0]).log == [];
    assert Run(cfg, run + [end]) == Process(cfg, end.1, u, end.0).0;
    GrownCount([], u.log, f.pid, f.handle);
    EndCounts(cfg, end.1, u, end.0, 0, f.pid, f.handle);
    UnregisterSub(u, end.0.handle);
    NotFlaggedAlone(u.list, Unregister(u, end.0.handle).list, f);
  }

  /** A run of the shipped server in which a call stops a player and the end of the call does
      not resume it: the two may mix, and the call wants a resource of the player. */
  lemma StoppedForCallNotResumed(w: World, max: nat) returns (f: Sound)
    requires max >= 2 && w.alive(2)
    ensures var cfg := Shipped(max, false);
            var player := [(MsgRegister(2, ShareMmplayer, Playing, {0}), w)];
            var call := (MsgRegister(3, Call, Playing, {0}), w);
            var (t, answer) := Process(cfg, w, Run(cfg, player), call.0);
            && answer.Decided? && !Denied(answer.decision)
            && f in t.list && f.pid == 2 && f.handle == 0
            && (f.state != Playing || IgnoredBy(t.log, |Run(cfg, player).log|, f))
            && ResumeCount(Run(cfg, player + [call] + [(MsgUnregister(1, Call), w)]).log, 0, 2, 0) == 0
  {
    hide MatrixPolicy, Run, Compare, Survivors, Process, Ready, Taken, CheckDeadProcess, IgnoredBy, ResumeCount;
    ExamplePolicies();
    var cfg := Shipped(max, false);
    var player := (MsgRegister(2, ShareMmplayer, Playing, {0}), w);
    var call := (MsgRegister(3, Call, Playing, {0}), w);
    var s := Run(cfg, [player]);
    FirstRegistered(cfg, w, player.0);
    AllSurvive(s.list, w);
    OneTaken(s.list);
    RegisterIsCompare(cfg, w, s, call.0, 1);
    Purged(s, w);
    var r := Request(Register, 3, 1, Call, Playing, {0});
    ReadyOnEveryRun(cfg, [player], w, r);
    assert 0 in s.list[0].resource && 0 in r.resource;
    f := MixedForCall(cfg, w, r, CheckDeadProcess(s, w), s.list[0]);
    IgnoredStill(Compare(cfg, w, r, CheckDeadProcess(s, w)).0.log, Process(cfg, w, s, call.0).0.log, |s.log|, s.list[0], f);
    RunTwo(cfg, player, call);
    assert [player] + [call] == [player, call];
    NoResumeAtEnd(cfg, [player, call], (MsgUnregister(1, Call), w), f);
  }

  lemma IgnoredStill(log: seq<Effect>, more: seq<Effect>, from: nat, e: Sound, f: Sound)
    requires log <= more && e.pid == f.pid && e.handle == f.handle
    ensures IgnoredBy(log, from, e) ==> IgnoredBy(more, from, f)
  {
  }
}
