/** What every message is answered, told from the list before it. */
module AsmAnswers {
  import opened AsmTypes
  import opened AsmModel
  import opened AsmArbitration
  import opened AsmCache
  import opened AsmOutcome
  import opened AsmReach
  import opened AsmAdmission
  import opened AsmRuns
  import opened AsmPersistence

  /** The last playing sound that is not the requester's own, from position `i` on. */
  ghost predicate LastMet(r: Request, list: seq<Sound>, i: nat, j: nat) {
    i <= j < |list| && Meets(r, list[j]) && forall l :: j < l < |list| ==> !Meets(r, list[l])
  }

  ghost predicate NobodyMet(r: Request, list: seq<Sound>, i: nat) {
    forall l :: i <= l < |list| ==> !Meets(r, list[l])
  }

  /** The answer that meeting `e` leads to, if it does not deny. */
  function AnswerAt(cfg: Config, r: Request, e: Sound): Decision {
    Decision(r.handle, r.handle, if r.state == Playing && Welcomes(cfg, r, e) then CmdPlay else CmdNone, r.state)
  }

  // ---------------------------------------------------------------- one step

  lemma Step1Answer(cfg: Config, w: World, r: Request, c: Cursor)
    requires c.i < |c.s.list|
    ensures var v := c.s.list[c.i];
            var d := Step1(cfg, w, r, c);
            d.answer == if Denies(cfg, r, v) && !IsOwn(v, r) then Some(Decision(r.handle, r.handle, CmdStop, r.state))
                        else if Meets(r, v) then Some(AnswerAt(cfg, r, v)) else c.answer
  {
    hide Interrupt, Record, Effective;
  }

  lemma MeetsSame(r: Request, e: Sound, f: Sound)
    requires SameIdentity(e, f) && (!IsOwn(e, r) ==> SameSound(e, f))
    ensures Meets(r, e) <==> Meets(r, f)
  {
  }

  /** From position `i` of `a` on, the same sounds are met in `b`, moved by `k`. */
  ghost predicate SameMeetings(cfg: Config, r: Request, a: seq<Sound>, i: nat, b: seq<Sound>, k: nat) {
    |b| == |a| + k && forall j :: i <= j < |a| ==>
      (Meets(r, a[j]) <==> Meets(r, b[j + k])) && (Meets(r, a[j]) ==> AnswerAt(cfg, r, a[j]) == AnswerAt(cfg, r, b[j + k]))
  }

  lemma StepMeetings(cfg: Config, w: World, r: Request, c: Cursor)
    requires Unique(c.s.list) && FreshHandle(r, c) && c.i < |c.s.list| && !Denied(c.answer)
    requires !Denied(Step1(cfg, w, r, c).answer)
    ensures var d := Step1(cfg, w, r, c);
            d.i == c.i + 1 + Shift(r, c, d) && SameMeetings(cfg, r, c.s.list, c.i + 1, d.s.list, Shift(r, c, d))
  {
    hide Settled, NewSound, Step1, Unique, FreshHandle, OwnOutcome, Meets, Welcomes;
    Step1Moves(cfg, w, r, c);
    StepWidth(cfg, w, r, c);
    var d := Step1(cfg, w, r, c);
    var k := Shift(r, c, d);
    forall j | c.i + 1 <= j < |c.s.list|
      ensures Meets(r, c.s.list[j]) <==> Meets(r, d.s.list[j + k])
      ensures Meets(r, c.s.list[j]) ==> AnswerAt(cfg, r, c.s.list[j]) == AnswerAt(cfg, r, d.s.list[j + k])
    {
      assert Fate(cfg, r, c, d, j, c.s.list[j], d.s.list[j + k]);
      MeetsSame(r, c.s.list[j], d.s.list[j + k]);
      WelcomeSame(cfg, r, c.s.list[j], d.s.list[j + k]);
    }
  }

  /** The answer `x` is the one of the last sound met from position `i` on, or the old one. */
  ghost predicate LastDecides(cfg: Config, r: Request, list: seq<Sound>, i: nat, before: Option<Decision>,
                              x: Option<Decision>) {
    && (NobodyMet(r, list, i) ==> x == before)
    && forall j: nat :: LastMet(r, list, i, j) ==> j < |list| && x == Some(AnswerAt(cfg, r, list[j]))
  }

  lemma LastDecidesNext(cfg: Config, r: Request, a: seq<Sound>, i: nat, before: Option<Decision>,
                        b: seq<Sound>, k: nat, between: Option<Decision>, x: Option<Decision>)
    requires i < |a| && SameMeetings(cfg, r, a, i + 1, b, k) && LastDecides(cfg, r, b, i + 1 + k, between, x)
    requires between == if Meets(r, a[i]) then Some(AnswerAt(cfg, r, a[i])) else before
    ensures LastDecides(cfg, r, a, i, before, x)
  {
    hide Meets, AnswerAt;
    if NobodyMet(r, a, i + 1) {
      forall l | i + 1 + k <= l < |b| ensures !Meets(r, b[l]) { assert !Meets(r, a[l - k]); }
    }
    forall j: nat | LastMet(r, a, i, j) ensures j < |a| && x == Some(AnswerAt(cfg, r, a[j])) {
      if j == i {
        assert NobodyMet(r, a, i + 1);
      } else {
        forall l | j + k < l < |b| ensures !Meets(r, b[l]) { assert !Meets(r, a[l - k]); }
        assert LastMet(r, b, i + 1 + k, j + k);
      }
    }
  }

  lemma DenierIsNotOwn(cfg: Config, r: Request, e: Sound)
    ensures Denies(cfg, r, e) ==> !IsOwn(e, r)
  {
    hide Effective;
  }

  lemma Pass1Denier(cfg: Config, w: World, r: Request, c: Cursor)
    requires c.i < |c.s.list| && !Denied(c.answer) && Denied(Step1(cfg, w, r, c).answer)
    ensures Pass1(cfg, w, r, c).answer == Some(Decision(r.handle, r.handle, CmdStop, r.state))
  {
    DeniedStep(cfg, w, r, c);
    Step1Answer(cfg, w, r, c);
    Step1Denial(cfg, w, r, c);
    DenierIsNotOwn(cfg, r, c.s.list[c.i]);
    hide Step1, Denies;
  }

  /** What the first pass answers: STOP if it meets a sound that denies, and otherwise what
      the last sound met gives. */
  lemma {:induction false} Pass1AnswersExactly(cfg: Config, w: World, r: Request, c: Cursor)
    requires Unique(c.s.list) && FreshHandle(r, c) && c.i <= |c.s.list| && !Denied(c.answer)
    ensures var x := Pass1(cfg, w, r, c).answer;
            if Denied(x) then x == Some(Decision(r.handle, r.handle, CmdStop, r.state))
            else LastDecides(cfg, r, c.s.list, c.i, c.answer, x)
    decreases |c.s.list| - c.i
  {
    hide Step1, Unique, FreshHandle, Denies, LastDecides, SameMeetings, Moved, Meets, AnswerAt;
    if c.i < |c.s.list| {
      var d := Step1(cfg, w, r, c);
      Step1Moves(cfg, w, r, c);
      MovedUnique(cfg, r, c, d);
      MovedBasics(cfg, r, c, d);
      Step1Advances(cfg, w, r, c);
      Step1Denial(cfg, w, r, c);
      if Denied(d.answer) {
        Pass1Denier(cfg, w, r, c);
      } else {
        Step1Answer(cfg, w, r, c);
        DenierIsNotOwn(cfg, r, c.s.list[c.i]);
        StepMeetings(cfg, w, r, c);
        Pass1AnswersExactly(cfg, w, r, d);
        if !Denied(Pass1(cfg, w, r, d).answer) {
          LastDecidesNext(cfg, r, c.s.list, c.i, c.answer, d.s.list, Shift(r, c, d), d.answer, Pass1(cfg, w, r, d).answer);
        }
      }
    } else {
      NobodyLeft(cfg, r, c.s.list, c.i, c.answer);
    }
  }

  lemma NobodyLeft(cfg: Config, r: Request, list: seq<Sound>, i: nat, x: Option<Decision>)
    requires i >= |list|
    ensures LastDecides(cfg, r, list, i, x, x)
  {
  }

  // --------------------------------------------------------- the whole request

  ghost predicate SomebodyDenies(cfg: Config, r: Request, list: seq<Sound>) {
    exists j :: 0 <= j < |list| && Denies(cfg, r, list[j])
  }

  /** The answer to a request, told from the list: when nobody plays, NONE and no handle to
      call; STOP when a playing sound denies it, wherever that stands; and otherwise what
      the last playing sound that is not its own gives: PLAY if the policy arbitrates
      between the two, NONE if it has nothing to say, or if the request is not to play. */
  ghost predicate Answered(cfg: Config, r: Request, list: seq<Sound>, d: Decision) {
    if NobodyPlaying(list) then d == Decision(r.handle, -1, CmdNone, r.state)
    else if SomebodyDenies(cfg, r, list) then d == Decision(r.handle, r.handle, CmdStop, r.state)
    else exists j: nat :: LastMet(r, list, 0, j) && j < |list| && d == AnswerAt(cfg, r, list[j])
  }

  ghost predicate NobodyPlaying(list: seq<Sound>) {
    forall k :: 0 <= k < |list| ==> list[k].state != Playing
  }

  lemma {:induction false} LastExists(r: Request, list: seq<Sound>, i: nat) returns (j: nat)
    requires exists l :: i <= l < |list| && Meets(r, list[l])
    ensures LastMet(r, list, i, j)
    decreases |list| - i
  {
    hide Meets;
    if exists l :: i + 1 <= l < |list| && Meets(r, list[l]) {
      j := LastExists(r, list, i + 1);
    } else {
      j := i;
    }
  }

  lemma FreeMeansSilence(s: State)
    requires Cached(s)
    ensures s.playing == {} <==> NobodyPlaying(s.list)
  {
    if s.playing == {} {
      NobodyPlays(s);
    } else {
      MaskMeaning(s.list, Playing);
      var e :| e in s.playing;
    }
  }

  lemma BusyAnswer(cfg: Config, w: World, r: Request, s: State)
    requires Ready(r, s) && s.playing != {}
    ensures var x := Compare(cfg, w, r, s).1;
            if SomebodyDenies(cfg, r, s.list) then x == Some(Decision(r.handle, r.handle, CmdStop, r.state))
            else exists j: nat :: LastMet(r, s.list, 0, j) && j < |s.list| && x == Some(AnswerAt(cfg, r, s.list[j]))
  {
    Pass1AnswersExactly(cfg, w, r, Start(s));
    Pass1Answer(cfg, w, r, Start(s));
    BusyMeansConflict(r, s);
    hide Pass1, Pass2, Record, Meets, Denies, LastMet, AnswerAt, Cached, Unique;
    if !SomebodyDenies(cfg, r, s.list) {
      var j := LastExists(r, s.list, 0);
      assert LastMet(r, s.list, 0, j);
    }
  }

  /** The arbiter's answer is the one that the list calls for. */
  lemma AnswerExactly(cfg: Config, w: World, r: Request, s: State)
    requires Ready(r, s)
    ensures var x := Compare(cfg, w, r, s).1; x.Some? && Answered(cfg, r, s.list, x.value)
  {
    FreeMeansSilence(s);
    if s.playing == {} {
      hide Pass1, Pass2, Record, NobodyPlaying;
    } else {
      BusyAnswer(cfg, w, r, s);
      hide Compare, NobodyPlaying, SomebodyDenies, LastMet, AnswerAt;
    }
  }

  // ------------------------------------------------------------------ over runs

  /** An answer by the state of the list after the purge. */
  ghost predicate Replied(cfg: Config, w: World, s: State, m: Message, answer: Answer) {
    var list := Survivors(s.list, w);
    match m
    case MsgRegister(_, _, _, _) =>
      if |list| == cfg.maxHandles then answer == NoHandle
      else answer.Decided? && answer.decision.Some? && Answered(cfg, RequestOf(cfg, w, s, m), list, answer.decision.value)
    case MsgSetState(pid, handle, _, status, _) =>
      if status != Playing then answer == Silent
      else if IsPlayingNow(list, pid, handle) then answer == Acknowledged(handle, Playing)
      else answer.Decided? && answer.decision.Some? && Answered(cfg, RequestOf(cfg, w, s, m), list, answer.decision.value)
    case MsgGetState(handle) =>
      && answer.StateIs?
      && (Taken(s.list, handle) ==> exists e :: e in s.list && e.handle == handle && answer.state == e.state)
      && (!Taken(s.list, handle) ==> answer.state == NoState)
    case MsgGetMyState(pid) => answer.StateIs? && Prominent(list, pid, answer.state)
    case _ => answer == Silent
  }

  /** The entry at `k` is the last of the process in the highest rank there is. */
  ghost predicate Leads(list: seq<Sound>, pid: int, k: nat) {
    && k < |list| && list[k].pid == pid
    && (forall l :: 0 <= l < |list| && list[l].pid == pid ==> Rank(list[l].state) <= Rank(list[k].state))
    && (forall l :: k < l < |list| && list[l].pid == pid ==> Rank(list[l].state) < Rank(list[k].state))
  }

  /** The most prominent state of a process; none without an entry. */
  ghost predicate Prominent(list: seq<Sound>, pid: int, status: Status) {
    if forall k :: 0 <= k < |list| ==> list[k].pid != pid then status == NoState
    else exists k: nat :: Leads(list, pid, k) && list[k].state == status
  }

  /** Playing ranks above paused, by whomever; that above waiting and stopped; and that
      above everything else. */
  lemma RankOrder(a: Status, b: Status)
    ensures Rank(a) > Rank(b) <==>
              || (a == Playing && b != Playing)
              || ((a == Paused || a == PausedByApp) && b != Playing && b != Paused && b != PausedByApp)
              || ((a == Waiting || a == Stopped) && (b == NoState || b == AlterPlaying || b == Ignored))
  {
  }

  lemma {:induction false} StatusLeads(list: seq<Sound>, pid: int, best: Status) returns (k: nat)
    ensures var status := ProcessStatus(list, pid, best);
            || (k == |list| && status == best
                && forall l :: 0 <= l < |list| && list[l].pid == pid ==> Rank(list[l].state) < Rank(best))
            || (Leads(list, pid, k) && list[k].state == status && Rank(status) >= Rank(best))
  {
    hide Rank;
    if list == [] {
      k := 0;
    } else {
      var taken := list[0].pid == pid && Rank(list[0].state) >= Rank(best);
      var rest := list[1..];
      assert forall l :: 1 <= l < |list| ==> list[l] == rest[l - 1];
      var n := StatusLeads(rest, pid, if taken then list[0].state else best);
      k := if taken && n == |rest| then 0 else n + 1;
    }
  }

  lemma StatusIsProminent(list: seq<Sound>, pid: int)
    ensures Prominent(list, pid, ProcessStatus(list, pid, NoState))
  {
    var k := StatusLeads(list, pid, NoState);
    hide ProcessStatus;
  }

  lemma SilentMessage(cfg: Config, w: World, s: State, m: Message)
    requires m.MsgUnregister? || m.MsgEmergentExit? || m.MsgDump?
    ensures Process(cfg, w, s, m).1 == Silent
  {
    hide OnUnregister, EmergentExit;
  }

  lemma RegisterReplied(cfg: Config, run: seq<(Message, World)>, w: World, m: Message)
    requires m.MsgRegister?
    ensures var s := Run(cfg, run); Replied(cfg, w, s, m, Process(cfg, w, s, m).1)
  {
    var s := Run(cfg, run);
    RegisterAllocates(cfg, run, w, m);
    RunInv(cfg, run);
    hide Run, Survivors, LeastFree, Compare, MaskOf, Answered, SetSession, Inv, Taken;
    if Process(cfg, w, s, m).1 != NoHandle {
      ArbitratedIsReady(cfg, w, s, m);
      AnswerExactly(cfg, w, RequestOf(cfg, w, s, m), CheckDeadProcess(s, w));
    }
  }

  lemma PlayReplied(cfg: Config, run: seq<(Message, World)>, w: World, m: Message)
    requires m.MsgSetState?
    ensures var s := Run(cfg, run); Replied(cfg, w, s, m, Process(cfg, w, s, m).1)
  {
    var s := Run(cfg, run);
    RunInv(cfg, run);
    hide Run, Survivors, Compare, MaskOf, Answered, IsPlayingNow, Inv, ChangeState, Taken, StartSession;
    if Arbitrated(cfg, w, s, m) {
      ArbitratedIsReady(cfg, w, s, m);
      AnswerExactly(cfg, w, RequestOf(cfg, w, s, m), CheckDeadProcess(s, w));
    }
  }

  lemma StateReplied(cfg: Config, w: World, s: State, m: Message)
    requires m.MsgGetState? || m.MsgGetMyState?
    ensures Replied(cfg, w, s, m, Process(cfg, w, s, m).1)
  {
    match m {
      case MsgGetState(handle) =>
        var k := HandleIndex(s.list, handle);
        hide HandleIndex, Survivors;
        if k < |s.list| { assert s.list[k] in s.list; }
      case MsgGetMyState(pid) =>
        StatusIsProminent(Survivors(s.list, w), pid);
        hide Survivors, ProcessStatus, Prominent, MaskOf;
    }
  }

  /** On every run, every message is answered as the list calls for. */
  lemma EveryAnswer(cfg: Config, run: seq<(Message, World)>, w: World, m: Message)
    ensures var s := Run(cfg, run); Replied(cfg, w, s, m, Process(cfg, w, s, m).1)
  {
    match m {
      case MsgRegister(_, _, _, _) => RegisterReplied(cfg, run, w, m);
      case MsgSetState(_, _, _, _, _) => PlayReplied(cfg, run, w, m);
      case MsgGetState(_) => StateReplied(cfg, w, Run(cfg, run), m);
      case MsgGetMyState(_) => StateReplied(cfg, w, Run(cfg, run), m);
      case _ => SilentMessage(cfg, w, Run(cfg, run), m);
    }
    hide Run, Process, Answered, Prominent, Survivors, Taken;
  }
}
