/** Which sounds a request leaves flagged for resuming: exactly those that the policy has
    stop or pause for a call or an alarm before it is denied, and the monitors of the
    processes it interrupts. */
module AsmResume {
  import opened AsmTypes
  import opened AsmModel
  import opened AsmArbitration
  import opened AsmCache
  import opened AsmOutcome
  import opened AsmLedger
  import opened AsmReach

  /** The policies under which the interrupted sound itself, not only its monitor, is
      resumed: not when it may mix and is stopped for a resource. */
  predicate Resumable(cfg: Config, v: Sound, r: Request) {
    && NeedsResume(r.event) && v.pid != r.pid
    && (Effective(cfg, v.event, r.event) == Stop1Play2 || Effective(cfg, v.event, r.event) == Pause1Play2)
  }

  /** The sound at `j` is the monitor that is told when a sound of `pid` is interrupted. */
  predicate Rings(list: seq<Sound>, pid: int, j: nat) {
    j < |list| && j == MonitorOf(list, pid) && !list[j].monitorDirty
  }

  // ------------------------------------------------------------- interruptions

  lemma StopMonitorExactly(w: World, s: State, pid: int, source: Source, cause: Event, flag: bool, j: nat)
    requires Unique(s.list) && j < |s.list|
    ensures var t := StopMonitor(w, s, pid, source, cause, flag).list;
            && |t| == |s.list|
            && (t[j].resume <==> s.list[j].resume || (flag && Rings(s.list, pid, j)))
            && (t[j].monitorDirty <==> s.list[j].monitorDirty || Rings(s.list, pid, j))
  {
    var m := MonitorOf(s.list, pid);
    if m < |s.list| && !s.list[m].monitorDirty {
      var dirty := MarkDirty(s.list, pid);
      assert dirty == s.list[m := s.list[m].(monitorDirty := true)];
      UniqueSame(s.list, dirty);
      IndexOfUnique(dirty, m);
      hide MonitorOf, Unique, IndexOf, MarkDirty;
    } else {
      hide MonitorOf, Unique;
    }
  }

  lemma UniqueSame(a: seq<Sound>, b: seq<Sound>)
    requires Unique(a) && SameSounds(a, b)
    ensures Unique(b)
  {
    forall k | 0 <= k < |a| ensures a[k].handle == b[k].handle { assert SameSound(a[k], b[k]); }
  }

  lemma StrikeExactly(w: World, s: State, i: nat, command: Command, source: Source, cause: Event,
                      flagMonitor: bool, flag: bool, j: nat)
    requires Unique(s.list) && i < |s.list| && j < |s.list|
    ensures var t := Strike(w, s, s.list[i], command, source, cause, flagMonitor, flag).0.list;
            && |t| == |s.list|
            && (t[j].resume <==> || s.list[j].resume || (flag && j == i)
                                 || (flagMonitor && Rings(s.list, s.list[i].pid, j)))
            && (t[j].monitorDirty <==> s.list[j].monitorDirty || Rings(s.list, s.list[i].pid, j))
  {
    var v := s.list[i];
    StopMonitorExactly(w, s, v.pid, source, cause, flagMonitor, j);
    var s1 := StopMonitor(w, s, v.pid, source, cause, flagMonitor);
    assert SameSound(s.list[i], s1.list[i]);
    UniqueSame(s.list, s1.list);
    hide StopMonitor, Unique, Rings;
    IndexOfUnique(s1.list, i);
  }

  /** What one interruption does to the flags of the sound at `j`. */
  ghost predicate Marked(cfg: Config, r: Request, list: seq<Sound>, v: Sound, hit: bool, j: nat, e: Sound, f: Sound)
    requires j < |list|
  {
    && (f.resume <==> || e.resume || (hit && Resumable(cfg, v, r))
                      || (NeedsResume(r.event) && Struck(cfg, r, v) && Rings(list, v.pid, j)))
    && (f.monitorDirty <==> e.monitorDirty || (Struck(cfg, r, v) && Rings(list, v.pid, j)))
  }

  lemma StruckExactly(w: World, s: State, i: nat, command: Command, source: Source, cause: Event,
                      flagMonitor: bool, flag: bool, status: Status, resource: Bits, j: nat)
    requires Unique(s.list) && i < |s.list| && j < |s.list|
    ensures var v := s.list[i];
            var t := ChangeState(Strike(w, s, v, command, source, cause, flagMonitor, flag).0,
                                 v.pid, v.handle, status, resource).list;
            && |t| == |s.list|
            && (t[j].resume <==> s.list[j].resume || (flag && j == i) || (flagMonitor && Rings(s.list, v.pid, j)))
            && (t[j].monitorDirty <==> s.list[j].monitorDirty || Rings(s.list, v.pid, j))
  {
    hide Strike, ChangeState, Unique, Rings;
    var v := s.list[i];
    StrikeExactly(w, s, i, command, source, cause, flagMonitor, flag, j);
    ChangeStateFlags(Strike(w, s, v, command, source, cause, flagMonitor, flag).0, v.pid, v.handle, status, resource);
  }

  lemma MarkedBy(cfg: Config, r: Request, list: seq<Sound>, v: Sound, hit: bool, flag: bool, j: nat, e: Sound, f: Sound)
    requires j < |list| && Struck(cfg, r, v) && (flag <==> hit && Resumable(cfg, v, r))
    requires f.resume <==> e.resume || flag || (NeedsResume(r.event) && Rings(list, v.pid, j))
    requires f.monitorDirty <==> e.monitorDirty || Rings(list, v.pid, j)
    ensures Marked(cfg, r, list, v, hit, j, e, f)
  {
    hide Struck, Resumable, NeedsResume, Rings;
  }

  lemma StopExactly(cfg: Config, w: World, r: Request, s: State, i: nat, j: nat)
    requires Unique(s.list) && i < |s.list| && j < |s.list| && Struck(cfg, r, s.list[i])
    requires Effective(cfg, s.list[i].event, r.event) == Stop1Play2
    ensures var t := StopVictim(w, r, s, s.list[i]).list;
            |t| == |s.list| && Marked(cfg, r, s.list, s.list[i], j == i, j, s.list[j], t[j])
  {
    hide Strike, SourceOf, ChangeState, Effective, Clash, NeedsResume, IsFmRadio, Unique, Rings, Marked;
    var v := s.list[i];
    var flag := NeedsResume(r.event);
    var reply := Strike(w, s, v, CmdStop, SourceOf(v, r, false), r.event, flag, flag).1;
    StruckExactly(w, s, i, CmdStop, SourceOf(v, r, false), r.event, flag, flag,
      if reply == ResStop then Stopped else NoState, {}, j);
    MarkedBy(cfg, r, s.list, v, j == i, flag && j == i, j, s.list[j], StopVictim(w, r, s, v).list[j]);
  }

  lemma PauseExactly(cfg: Config, w: World, r: Request, s: State, i: nat, j: nat)
    requires Unique(s.list) && i < |s.list| && j < |s.list| && Struck(cfg, r, s.list[i])
    requires Effective(cfg, s.list[i].event, r.event) == Pause1Play2
    ensures var t := PauseVictim(w, r, s, s.list[i]).list;
            |t| == |s.list| && Marked(cfg, r, s.list, s.list[i], j == i, j, s.list[j], t[j])
  {
    hide Strike, SourceOf, ChangeState, Effective, Clash, NeedsResume, Unique, Rings, Marked;
    var v := s.list[i];
    var flag := NeedsResume(r.event);
    var command := if Clash(v.resource, r.resource) then CmdStop else CmdPause;
    var reply := Strike(w, s, v, command, SourceOf(v, r, true), r.event, flag, flag).1;
    StruckExactly(w, s, i, command, SourceOf(v, r, true), r.event, flag, flag,
      if reply == ResPause then Paused else if reply == ResIgnore then Ignored else NoState,
      if reply == ResNone || reply == ResStop then {} else v.resource, j);
    MarkedBy(cfg, r, s.list, v, j == i, flag && j == i, j, s.list[j], PauseVictim(w, r, s, v).list[j]);
  }

  lemma MixExactly(cfg: Config, w: World, r: Request, s: State, i: nat, j: nat)
    requires Unique(s.list) && i < |s.list| && j < |s.list| && Struck(cfg, r, s.list[i])
    requires Effective(cfg, s.list[i].event, r.event) == Mix
    ensures var t := MixVictim(w, r, s, s.list[i]).list;
            |t| == |s.list| && Marked(cfg, r, s.list, s.list[i], j == i, j, s.list[j], t[j])
  {
    hide Strike, ChangeState, Effective, Clash, NeedsResume, Unique, Rings, Marked;
    var v := s.list[i];
    var flag := NeedsResume(r.event);
    var reply := Strike(w, s, v, CmdStop, ResourceConflict, r.event, flag, false).1;
    StruckExactly(w, s, i, CmdStop, ResourceConflict, r.event, flag, false,
      if reply == ResIgnore then Ignored else NoState,
      if reply == ResNone || reply == ResStop then {} else v.resource, j);
    MarkedBy(cfg, r, s.list, v, j == i, false, j, s.list[j], MixVictim(w, r, s, v).list[j]);
  }

  lemma SparedNothing(cfg: Config, w: World, r: Request, s: State, v: Sound)
    requires !Struck(cfg, r, v) && v.state == Playing && r.state == Playing
    ensures Interrupt(cfg, w, r, s, v) == s
  {
    hide StopVictim, PauseVictim, Strike, Clash, Effective;
  }

  lemma InterruptExactly(cfg: Config, w: World, r: Request, s: State, i: nat, j: nat)
    requires Unique(s.list) && i < |s.list| && j < |s.list| && s.list[i].state == Playing && r.state == Playing
    ensures var v := s.list[i];
            var t := Interrupt(cfg, w, r, s, v).list;
            |t| == |s.list| && Marked(cfg, r, s.list, v, j == i && Struck(cfg, r, v), j, s.list[j], t[j])
  {
    var v := s.list[i];
    if Struck(cfg, r, v) {
      hide StopVictim, PauseVictim, MixVictim, Effective, Clash, Unique, Marked;
      match Effective(cfg, v.event, r.event) {
        case Stop1Play2 => StopExactly(cfg, w, r, s, i, j);
        case Pause1Play2 => PauseExactly(cfg, w, r, s, i, j);
        case Mix => MixExactly(cfg, w, r, s, i, j);
        case _ =>
      }
    } else {
      SparedNothing(cfg, w, r, s, v);
      hide Interrupt, Struck, Resumable, Rings, Unique;
    }
  }

  // -------------------------------------------------------------- the first pass

  /** Recording the requester touches no flag. */
  lemma RecordFlags(r: Request, s: State, j: nat)
    requires j < |s.list|
    ensures var t := Record(r, s).list;
            var k := if r.kind == Register then 1 else 0;
            && |t| == |s.list| + k
            && t[j + k].resume == s.list[j].resume && t[j + k].monitorDirty == s.list[j].monitorDirty
  {
    if r.kind == SetState {
      ChangeStateFlags(s, r.pid, r.handle, r.state, r.resource);
      hide ChangeState;
    } else {
      assert Record(r, s).list == [NewSound(r)] + s.list;
      hide Record, NewSound;
    }
  }

  lemma AdmitFlagsSame(r: Request, c: Cursor, s: State, command: Command, j: nat)
    requires |s.list| == |c.s.list| && j < |s.list|
    ensures var d := Admit(r, c.(s := s), command);
            var k := Shift(r, c, d);
            && |d.s.list| == |s.list| + k
            && d.s.list[j + k].resume == s.list[j].resume && d.s.list[j + k].monitorDirty == s.list[j].monitorDirty
  {
    RecordFlags(r, s, j);
    hide Record;
  }

  lemma MarkedOn(cfg: Config, r: Request, list: seq<Sound>, v: Sound, hit: bool, j: nat, e: Sound, f: Sound, g: Sound)
    requires j < |list| && Marked(cfg, r, list, v, hit, j, e, f)
    requires f.resume == g.resume && f.monitorDirty == g.monitorDirty
    ensures Marked(cfg, r, list, v, hit, j, e, g)
  {
    hide Struck, Resumable, Rings, NeedsResume;
  }

  lemma Unmarked(cfg: Config, r: Request, list: seq<Sound>, v: Sound, j: nat, e: Sound)
    requires j < |list| && !Struck(cfg, r, v)
    ensures Marked(cfg, r, list, v, false, j, e, e)
  {
    hide Struck, Resumable, Rings, NeedsResume;
  }

  /** What a step does before it admits the requester, if it does. */
  lemma Step1Parts(cfg: Config, w: World, r: Request, c: Cursor)
    requires c.i < |c.s.list|
    ensures var v := c.s.list[c.i];
            var d := Step1(cfg, w, r, c);
            || (v.state == Playing && r.state == Playing && d == Admit(r, c.(s := Interrupt(cfg, w, r, c.s, v)), CmdPlay))
            || (!Struck(cfg, r, v) && (d == Admit(r, c, CmdNone) || (d.s == c.s && d.updated == c.updated)))
  {
    hide Interrupt, Admit, Effective, Clash;
  }

  lemma Step1Exactly(cfg: Config, w: World, r: Request, c: Cursor, j: nat)
    requires Unique(c.s.list) && c.i < |c.s.list| && j < |c.s.list|
    ensures var d := Step1(cfg, w, r, c);
            var k := Shift(r, c, d);
            var v := c.s.list[c.i];
            && |d.s.list| == |c.s.list| + k
            && Marked(cfg, r, c.s.list, v, j == c.i && Struck(cfg, r, v), j, c.s.list[j], d.s.list[j + k])
  {
    hide Interrupt, Admit, Step1, Marked, Struck, Unique;
    var v := c.s.list[c.i];
    var d := Step1(cfg, w, r, c);
    Step1Parts(cfg, w, r, c);
    if v.state == Playing && r.state == Playing && d == Admit(r, c.(s := Interrupt(cfg, w, r, c.s, v)), CmdPlay) {
      var t := Interrupt(cfg, w, r, c.s, v);
      InterruptExactly(cfg, w, r, c.s, c.i, j);
      AdmitFlagsSame(r, c, t, CmdPlay, j);
      MarkedOn(cfg, r, c.s.list, v, j == c.i && Struck(cfg, r, v), j, c.s.list[j], t.list[j],
        d.s.list[j + Shift(r, c, d)]);
    } else {
      Unmarked(cfg, r, c.s.list, v, j, c.s.list[j]);
      AdmitFlagsSame(r, c, c.s, CmdNone, j);
      MarkedOn(cfg, r, c.s.list, v, false, j, c.s.list[j], c.s.list[j], d.s.list[j + Shift(r, c, d)]);
    }
  }

  /** A pass from position `i` on flags the sound at `j`: because it stops or pauses it, or
      because it is the monitor of a process that is interrupted. */
  ghost predicate Flags(cfg: Config, r: Request, list: seq<Sound>, i: nat, j: nat) {
    && j < |list|
    && (|| (Reached(cfg, r, list, i, j) && Struck(cfg, r, list[j]) && Resumable(cfg, list[j], r))
        || (NeedsResume(r.event) && Rings(list, list[j].pid, j) && Hears(cfg, r, list, i, list[j].pid)))
  }

  lemma ResumableSame(cfg: Config, e: Sound, f: Sound, r: Request)
    ensures SameIdentity(e, f) ==> Resumable(cfg, e, r) == Resumable(cfg, f, r)
  {
  }

  /** Entries keep their places but for one entry of the requester in front. */
  ghost predicate Moves(r: Request, a: seq<Sound>, b: seq<Sound>, k: nat) {
    && |b| == |a| + k && k <= 1 && (k == 1 ==> b[0].pid == r.pid)
    && forall j :: 0 <= j < |a| ==> SameIdentity(a[j], b[j + k])
  }

  lemma MonitorMoves(r: Request, a: seq<Sound>, b: seq<Sound>, k: nat, pid: int)
    requires Moves(r, a, b, k) && pid != r.pid
    ensures MonitorOf(b, pid) == MonitorOf(a, pid) + k
  {
    var m, n := MonitorOf(a, pid), MonitorOf(b, pid);
    hide MonitorOf;
    if m < |a| { assert SameIdentity(a[m], b[m + k]); }
    if n < |b| && n >= k { assert SameIdentity(a[n - k], b[n - k + k]); }
  }

  lemma MovedMoves(cfg: Config, r: Request, c: Cursor, d: Cursor)
    requires Moved(cfg, r, c, d)
    ensures Moves(r, c.s.list, d.s.list, Shift(r, c, d))
  {
    hide Settled, OwnOutcome;
    forall j | 0 <= j < |c.s.list| ensures SameIdentity(c.s.list[j], d.s.list[j + Shift(r, c, d)]) {
      assert Fate(cfg, r, c, d, j, c.s.list[j], d.s.list[j + Shift(r, c, d)]);
    }
  }

  lemma HearsForeign(cfg: Config, r: Request, list: seq<Sound>, i: nat, pid: int)
    ensures Hears(cfg, r, list, i, pid) ==> pid != r.pid
  {
    hide Reached, Effective, Clash;
  }

  /** One step, and what is left to the rest of the pass. */
  lemma FlagsNext(cfg: Config, r: Request, c: Cursor, d: Cursor, j: nat)
    requires var k := Shift(r, c, d);
             && c.i < |c.s.list| && j < |c.s.list| && !Denies(cfg, r, c.s.list[c.i])
             && d.i == c.i + 1 + k && SameBehind(r, c.s.list, c.i + 1, d.s.list, k)
             && Moves(r, c.s.list, d.s.list, k)
             && Marked(cfg, r, c.s.list, c.s.list[c.i], j == c.i && Struck(cfg, r, c.s.list[c.i]), j,
                       c.s.list[j], d.s.list[j + k])
    ensures c.s.list[j].resume || Flags(cfg, r, c.s.list, c.i, j) <==>
            d.s.list[j + Shift(r, c, d)].resume || Flags(cfg, r, d.s.list, d.i, j + Shift(r, c, d))
  {
    hide Denies, Struck, Resumable, Reached, Hears, NeedsResume, SameBehind;
    var k := Shift(r, c, d);
    var e, f, v := c.s.list[j], d.s.list[j + k], c.s.list[c.i];
    assert SameIdentity(e, f);
    ResumableSame(cfg, e, f, r);
    ReachedNext(cfg, r, c.s.list, c.i, j);
    HearsNext(cfg, r, c.s.list, c.i, e.pid);
    ReachedBehind(cfg, r, c.s.list, c.i + 1, d.s.list, k, j);
    HearsBehind(cfg, r, c.s.list, c.i + 1, d.s.list, k, e.pid);
    HearsForeign(cfg, r, c.s.list, c.i, e.pid);
    HearsForeign(cfg, r, d.s.list, d.i, e.pid);
    if e.pid != r.pid { MonitorMoves(r, c.s.list, d.s.list, k, e.pid); }
    if c.i < j { VerdictBehind(cfg, r, c.s.list, c.i + 1, d.s.list, k, j); }
    ReachedBounds(cfg, r, c.s.list, c.i + 1, j);
    RingsOnlyOwn(c.s.list, v.pid, j);
    hide Moves, MonitorOf;
  }

  lemma VerdictBehind(cfg: Config, r: Request, a: seq<Sound>, i: nat, b: seq<Sound>, k: nat, j: nat)
    requires SameBehind(r, a, i, b, k) && i <= j < |a|
    ensures Struck(cfg, r, a[j]) <==> Struck(cfg, r, b[j + k])
  {
    SameVerdict(cfg, r, a[j], b[j + k]);
    hide Struck;
  }

  lemma RingsOnlyOwn(list: seq<Sound>, pid: int, j: nat)
    ensures Rings(list, pid, j) ==> list[j].pid == pid
  {
    hide MonitorOf;
  }

  lemma FlagsAtEnd(cfg: Config, r: Request, list: seq<Sound>, i: nat, j: nat)
    requires i >= |list|
    ensures !Flags(cfg, r, list, i, j)
  {
    hide Struck, Resumable, Rings, NeedsResume, Denies;
  }

  /** A sound that denies flags nobody, and nobody behind it is reached. */
  lemma FlagsAtDenial(cfg: Config, r: Request, list: seq<Sound>, i: nat, j: nat)
    requires i < |list| && j < |list| && Denies(cfg, r, list[i])
    ensures !Flags(cfg, r, list, i, j)
  {
    StruckIsNoDenial(cfg, r, list[i]);
    HearsNext(cfg, r, list, i, list[j].pid);
    ReachedNext(cfg, r, list, i, j);
    hide Struck, Resumable, Rings, NeedsResume, Denies, Hears, Reached;
  }

  lemma {:induction false} Pass1FlagsExactly(cfg: Config, w: World, r: Request, c: Cursor, j: nat)
    requires Unique(c.s.list) && FreshHandle(r, c) && c.i <= |c.s.list| && !Denied(c.answer) && j < |c.s.list|
    ensures var x := Pass1(cfg, w, r, c);
            var k := |x.s.list| - |c.s.list|;
            0 <= k && (x.s.list[j + k].resume <==> c.s.list[j].resume || Flags(cfg, r, c.s.list, c.i, j))
    decreases |c.s.list| - c.i
  {
    hide Step1, Denies, Unique, FreshHandle, Flags, Moved, SameBehind, Marked, Struck, Moves;
    if c.i < |c.s.list| {
      var d := Step1(cfg, w, r, c);
      Step1Moves(cfg, w, r, c);
      MovedUnique(cfg, r, c, d);
      MovedBasics(cfg, r, c, d);
      MovedMoves(cfg, r, c, d);
      Step1Exactly(cfg, w, r, c, j);
      Step1Advances(cfg, w, r, c);
      Step1Denial(cfg, w, r, c);
      if Denied(d.answer) {
        DeniedStep(cfg, w, r, c);
        FlagsAtDenial(cfg, r, c.s.list, c.i, j);
      } else {
        StepLeavesRest(cfg, w, r, c);
        FlagsNext(cfg, r, c, d, j);
        Pass1FlagsExactly(cfg, w, r, d, j + Shift(r, c, d));
      }
    } else {
      FlagsAtEnd(cfg, r, c.s.list, c.i, j);
    }
  }

  // ------------------------------------------------------------ the whole request

  /** Sounds keep their identities and their resume flags. */
  ghost predicate SameResume(a: seq<Sound>, b: seq<Sound>) {
    |a| == |b| && forall j :: 0 <= j < |a| ==> SameIdentity(a[j], b[j]) && a[j].resume == b[j].resume
  }

  lemma Step2Resume(cfg: Config, w: World, r: Request, s: State, i: nat)
    requires Unique(s.list) && i < |s.list|
    ensures SameResume(s.list, Step2(cfg, w, r, s, i).list)
  {
    hide Strike, ChangeState, Yields, Clash, Unique, SameResume;
    StruckResume(w, s, i, r.event);
    ChangeStateFlags(s, r.pid, r.handle, r.state, r.resource);
    FlagsAreResume(s.list, ChangeState(s, r.pid, r.handle, r.state, r.resource).list);
    FlagsAreResume(s.list, s.list);
  }

  lemma FlagsAreResume(a: seq<Sound>, b: seq<Sound>)
    ensures SameFlags(a, b) ==> SameResume(a, b)
    ensures SameResume(a, a)
  {
  }

  lemma StruckResume(w: World, s: State, i: nat, cause: Event)
    requires Unique(s.list) && i < |s.list|
    ensures var v := s.list[i];
            var t := Strike(w, s, v, CmdStop, ResourceConflict, cause, false, false).0;
            SameResume(s.list, ChangeState(t, v.pid, v.handle, NoState, {}).list)
  {
    hide Strike, ChangeState, Unique, Rings;
    var v := s.list[i];
    var t := Strike(w, s, v, CmdStop, ResourceConflict, cause, false, false).0;
    var u := ChangeState(t, v.pid, v.handle, NoState, {});
    StrikeOutcome(w, s, v, CmdStop, ResourceConflict, cause, false, false);
    ChangeStateOutcome(s, t, i, NoState, {});
    forall j | 0 <= j < |s.list| ensures SameIdentity(s.list[j], u.list[j]) && s.list[j].resume == u.list[j].resume {
      StruckExactly(w, s, i, CmdStop, ResourceConflict, cause, false, false, NoState, {}, j);
    }
  }

  lemma SameResumeChain(a: seq<Sound>, b: seq<Sound>, c: seq<Sound>)
    requires SameResume(a, b) && SameResume(b, c)
    ensures SameResume(a, c)
  {
  }

  lemma SameResumeUnique(a: seq<Sound>, b: seq<Sound>)
    requires Unique(a) && SameResume(a, b)
    ensures Unique(b)
  {
  }

  lemma {:induction false} Pass2Resume(cfg: Config, w: World, r: Request, s: State, i: nat)
    requires Unique(s.list)
    ensures SameResume(s.list, Pass2(cfg, w, r, s, i).list)
    decreases |s.list| - i
  {
    hide Step2, SameResume, Unique;
    if i < |s.list| {
      var t := Step2(cfg, w, r, s, i);
      Step2Resume(cfg, w, r, s, i);
      SameResumeUnique(s.list, t.list);
      Pass2Resume(cfg, w, r, t, i + 1);
      SameResumeChain(s.list, t.list, Pass2(cfg, w, r, t, i + 1).list);
    } else {
      FlagsAreResume(s.list, s.list);
    }
  }

  lemma CleanResume(list: seq<Sound>)
    ensures SameResume(list, CleanMonitors(list))
  {
  }

  lemma FirstPassFlags(cfg: Config, w: World, r: Request, s: State, j: nat)
    requires Ready(r, s) && j < |s.list|
    ensures var t := FirstPass(cfg, w, r, s).0.list;
            var k := |t| - |s.list|;
            0 <= k && (t[j + k].resume <==> s.list[j].resume || Flags(cfg, r, s.list, 0, j))
  {
    hide Pass1, Flags, Cached, Unique;
    if s.playing == {} {
      NobodyPlays(s);
      NobodyIsFlagged(cfg, r, s.list, j);
    } else {
      Pass1FlagsExactly(cfg, w, r, Start(s), j);
      CleanResume(Pass1(cfg, w, r, Start(s)).s.list);
    }
  }

  lemma NobodyIsFlagged(cfg: Config, r: Request, list: seq<Sound>, j: nat)
    requires forall l :: 0 <= l < |list| ==> list[l].state != Playing
    ensures !Flags(cfg, r, list, 0, j)
  {
    hide Resumable, Rings, NeedsResume, Reached;
  }

  lemma TwoPassesFlags(cfg: Config, w: World, r: Request, s: State, j: nat)
    requires Ready(r, s) && j < |s.list|
    ensures var t := TwoPasses(cfg, w, r, s).0.list;
            var k := |t| - |s.list|;
            0 <= k && (t[j + k].resume <==> s.list[j].resume || Flags(cfg, r, s.list, 0, j))
  {
    hide FirstPass, Pass2, Flags, Ready, Unique, SameIdentity, Evicts;
    FirstPassFlags(cfg, w, r, s, j);
    FirstPassUnique(cfg, w, r, s);
    Pass2Resume(cfg, w, r, FirstPass(cfg, w, r, s).0, 0);
  }

  /** Whatever the answer to a request, a sound is flagged afterwards if and only if it was
      before, or the request is a call or an alarm and, before any sound denied it, made
      the sound stop or pause under a policy that resumes it; or the sound is a monitor not
      told yet, and some sound of its process was interrupted, under whatever policy. */
  lemma FlaggedExactly(cfg: Config, w: World, r: Request, s: State, j: nat)
    requires Ready(r, s) && j < |s.list|
    ensures var t := Compare(cfg, w, r, s).0.list;
            var k := |t| - |s.list|;
            0 <= k && (t[j + k].resume <==> s.list[j].resume || Flags(cfg, r, s.list, 0, j))
  {
    hide Compare, TwoPasses, Flags, Record, Ready;
    TwoPassesFlags(cfg, w, r, s, j);
    CompareIsTwoPasses(cfg, w, r, s);
    if s.playing == {} { RecordedFlags(cfg, w, r, s, j); }
  }

  lemma RecordedFlags(cfg: Config, w: World, r: Request, s: State, j: nat)
    requires Ready(r, s) && s.playing == {} && j < |s.list|
    ensures var s2 := TwoPasses(cfg, w, r, s).0;
            var t := Record(r, s2).list;
            |s2.list| == |s.list| && |s.list| <= |t| && t[j + |t| - |s.list|].resume == s2.list[j].resume
  {
    hide TwoPasses, Record, Ready, Unique;
    FreeDoesNotRecord(cfg, w, r, s);
    RecordFlags(r, TwoPasses(cfg, w, r, s).0, j);
  }
}
