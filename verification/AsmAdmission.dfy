/** Who is listed after a request: the answer alone does not tell. */
module AsmAdmission {
  import opened AsmTypes
  import opened AsmModel
  import opened AsmArbitration
  import opened AsmCache
  import opened AsmOutcome

  /** A playing sound, not the requester's own, that has the requester recorded. */
  predicate Welcomes(cfg: Config, r: Request, e: Sound) {
    && e.state == Playing && !IsOwn(e, r) && !Denies(cfg, r, e)
    && (r.state == Playing ==> Arbitrates(Effective(cfg, e.event, r.event)))
  }

  /** Some sound from `i` on welcomes the requester before any sound denies it. */
  ghost predicate WelcomedFirst(cfg: Config, r: Request, list: seq<Sound>, i: nat) {
    exists j :: i <= j < |list| && Welcomes(cfg, r, list[j]) && forall l :: i <= l < j ==> !Denies(cfg, r, list[l])
  }

  lemma Step1Updated(cfg: Config, w: World, r: Request, c: Cursor)
    requires c.i < |c.s.list| && !Denied(c.answer)
    ensures Step1(cfg, w, r, c).updated <==> c.updated || Welcomes(cfg, r, c.s.list[c.i])
  {
    hide Interrupt, Record, Effective;
  }

  lemma {:induction false} Pass1Updated(cfg: Config, w: World, r: Request, c: Cursor)
    requires Unique(c.s.list) && FreshHandle(r, c) && c.i <= |c.s.list| && !Denied(c.answer)
    ensures Pass1(cfg, w, r, c).updated <==> c.updated || WelcomedFirst(cfg, r, c.s.list, c.i)
    decreases |c.s.list| - c.i
  {
    hide Step1, Settled, NewSound, Denies, Welcomes, Unique, FreshHandle;
    if c.i < |c.s.list| {
      var d := Step1(cfg, w, r, c);
      Step1Moves(cfg, w, r, c);
      MovedUnique(cfg, r, c, d);
      Step1Advances(cfg, w, r, c);
      Step1Denial(cfg, w, r, c);
      Step1Updated(cfg, w, r, c);
      if !Denied(d.answer) {
        Pass1Updated(cfg, w, r, d);
        LaterWelcome(cfg, w, r, c);
      } else {
        DenierDoesNotWelcome(cfg, r, c.s.list[c.i]);
      }
      hide Moved;
      if c.updated || Welcomes(cfg, r, c.s.list[c.i]) {
      }
    }
  }

  lemma DenierDoesNotWelcome(cfg: Config, r: Request, e: Sound)
    ensures Denies(cfg, r, e) ==> !Welcomes(cfg, r, e)
  {
  }

  lemma ShiftedWelcome(cfg: Config, r: Request, a: seq<Sound>, i: nat, b: seq<Sound>, k: nat)
    requires |b| == |a| + k
    requires forall j :: i <= j < |a| ==> (Welcomes(cfg, r, a[j]) <==> Welcomes(cfg, r, b[j + k]))
    requires forall j :: i <= j < |a| ==> (Denies(cfg, r, a[j]) <==> Denies(cfg, r, b[j + k]))
    ensures WelcomedFirst(cfg, r, a, i) <==> WelcomedFirst(cfg, r, b, i + k)
  {
    hide Welcomes, Denies;
    if WelcomedFirst(cfg, r, a, i) {
      var j :| i <= j < |a| && Welcomes(cfg, r, a[j]) && forall l :: i <= l < j ==> !Denies(cfg, r, a[l]);
      forall l | i + k <= l < j + k ensures !Denies(cfg, r, b[l]) { assert !Denies(cfg, r, a[l - k]); }
      assert Welcomes(cfg, r, b[j + k]);
    }
    if WelcomedFirst(cfg, r, b, i + k) {
      var j :| i + k <= j < |b| && Welcomes(cfg, r, b[j]) && forall l :: i + k <= l < j ==> !Denies(cfg, r, b[l]);
      forall l | i <= l < j - k ensures !Denies(cfg, r, a[l]) { assert !Denies(cfg, r, b[l + k]); }
      assert Welcomes(cfg, r, a[j - k]);
    }
  }

  lemma WelcomeSame(cfg: Config, r: Request, e: Sound, f: Sound)
    ensures SameIdentity(e, f) && (!IsOwn(e, r) ==> SameSound(e, f)) ==>
              (Welcomes(cfg, r, e) <==> Welcomes(cfg, r, f)) && (Denies(cfg, r, e) <==> Denies(cfg, r, f))
  {
    hide Effective, Arbitrates;
  }

  /** A step that does not deny leaves the later sounds as welcoming as they were. */
  lemma LaterWelcome(cfg: Config, w: World, r: Request, c: Cursor)
    requires Unique(c.s.list) && FreshHandle(r, c) && c.i < |c.s.list| && !Denied(c.answer)
    requires !Denied(Step1(cfg, w, r, c).answer)
    ensures var d := Step1(cfg, w, r, c);
            WelcomedFirst(cfg, r, d.s.list, d.i) <==> WelcomedFirst(cfg, r, c.s.list, c.i + 1)
  {
    hide Settled, NewSound, Step1, Welcomes, Denies, WelcomedFirst;
    var d := Step1(cfg, w, r, c);
    Step1Moves(cfg, w, r, c);
    StepWidth(cfg, w, r, c);
    var k := Shift(r, c, d);
    forall j | c.i + 1 <= j < |c.s.list|
      ensures Welcomes(cfg, r, c.s.list[j]) <==> Welcomes(cfg, r, d.s.list[j + k])
      ensures Denies(cfg, r, c.s.list[j]) <==> Denies(cfg, r, d.s.list[j + k])
    {
      assert Fate(cfg, r, c, d, j, c.s.list[j], d.s.list[j + k]);
      WelcomeSame(cfg, r, c.s.list[j], d.s.list[j + k]);
    }
    ShiftedWelcome(cfg, r, c.s.list, c.i + 1, d.s.list, k);
  }

  /** A newcomer is listed exactly when nobody plays or some playing sound welcomes it
      before any sound denies it. So it can be listed although it is told to stop, and
      missing from the list although it is not: order matters here. */
  lemma ListedExactly(cfg: Config, w: World, r: Request, s: State)
    requires Ready(r, s) && r.kind == Register
    ensures |Compare(cfg, w, r, s).0.list| == |s.list| + 1 <==>
              s.playing == {} || WelcomedFirst(cfg, r, s.list, 0)
    ensures |Compare(cfg, w, r, s).0.list| == |s.list| || |Compare(cfg, w, r, s).0.list| == |s.list| + 1
  {
    CompareIsTwoPasses(cfg, w, r, s);
    hide Compare, Ready, WelcomedFirst, FreshHandle;
    if s.playing == {} {
      FreeDoesNotRecord(cfg, w, r, s);
      RecordOutcome(r, TwoPasses(cfg, w, r, s).0);
    } else {
      BusyListed(cfg, w, r, s);
    }
  }

  lemma BusyListed(cfg: Config, w: World, r: Request, s: State)
    requires Ready(r, s) && r.kind == Register && s.playing != {}
    ensures |TwoPasses(cfg, w, r, s).0.list| == |s.list| + if WelcomedFirst(cfg, r, s.list, 0) then 1 else 0
  {
    Pass1Updated(cfg, w, r, Start(s));
    Pass1Moves(cfg, w, r, Start(s));
    FirstPassUnique(cfg, w, r, s);
    Pass2Outcome(cfg, w, r, FirstPass(cfg, w, r, s).0, 0);
    hide Pass1, Pass2, Unique, WelcomedFirst, Cached;
  }

  // ------------------------------------------------------- a change of state

  ghost predicate Owns(list: seq<Sound>, r: Request) {
    exists j :: 0 <= j < |list| && IsOwn(list[j], r)
  }

  /** The requester is listed in the state and with the resources it asked for. */
  ghost predicate ListedAs(list: seq<Sound>, r: Request) {
    exists j :: 0 <= j < |list| && IsOwn(list[j], r) && list[j].state == r.state && list[j].resource == r.resource
  }

  /** A requester that is told to play, or that meets silence, is listed as it asked if
      and only if it registers or was listed before. */
  lemma AdmittedIsListed(cfg: Config, w: World, r: Request, s: State)
    requires Ready(r, s) && (r.kind == SetState ==> r.state != Ignored)
    requires Admits(s, Compare(cfg, w, r, s).1)
    ensures ListedAs(Compare(cfg, w, r, s).0.list, r) <==> r.kind == Register || Owns(s.list, r)
  {
    hide Compare, Ready, Recorded;
    var recorded := RecordedBy(cfg, w, r, s);
    RecordedListed(r, s.list, Compare(cfg, w, r, s).0.list);
  }

  lemma RecordedListed(r: Request, s: seq<Sound>, t: seq<Sound>)
    requires Recorded(r, true, s, t) && (r.kind == SetState ==> r.state != Ignored)
    ensures ListedAs(t, r) <==> r.kind == Register || Owns(s, r)
  {
    if r.kind == Register {
      assert IsOwn(t[0], r);
    } else {
      forall j | 0 <= j < |s|
        ensures IsOwn(s[j], r) <==> IsOwn(t[j], r)
        ensures IsOwn(s[j], r) ==> t[j].state == r.state && t[j].resource == r.resource
      {
        RecordedAt(r, s, t, j);
      }
      hide Recorded, IsOwn;
      if Owns(s, r) {
        var j :| 0 <= j < |s| && IsOwn(s[j], r);
        assert IsOwn(t[j], r);
      }
    }
  }

  lemma RecordedAt(r: Request, s: seq<Sound>, t: seq<Sound>, j: nat)
    requires Recorded(r, true, s, t) && r.kind == SetState && r.state != Ignored && j < |s|
    ensures |t| == |s| && (IsOwn(s[j], r) <==> IsOwn(t[j], r))
    ensures IsOwn(s[j], r) ==> t[j].state == r.state && t[j].resource == r.resource
  {
    assert SameIdentity(s[j], t[j + 0]);
  }

  /** Whatever the answer to a change of state, the requester is listed afterwards if and
      only if it was listed before. */
  lemma ChangeListsNobody(cfg: Config, w: World, r: Request, s: State)
    requires Ready(r, s) && r.kind == SetState
    ensures |Compare(cfg, w, r, s).0.list| == |s.list|
    ensures Owns(Compare(cfg, w, r, s).0.list, r) <==> Owns(s.list, r)
  {
    hide Compare, Ready, Recorded, Owns;
    var recorded := RecordedBy(cfg, w, r, s);
    SameOwners(r, recorded, s.list, Compare(cfg, w, r, s).0.list);
  }

  lemma SameOwners(r: Request, recorded: bool, s: seq<Sound>, t: seq<Sound>)
    requires Recorded(r, recorded, s, t) && r.kind == SetState
    ensures |t| == |s| && (Owns(t, r) <==> Owns(s, r))
  {
    forall j | 0 <= j < |s| ensures IsOwn(s[j], r) <==> IsOwn(t[j], r) {
      assert SameIdentity(s[j], t[j + 0]);
    }
  }

  lemma OwnAfterFirstPass(cfg: Config, w: World, r: Request, s: State, j: nat)
    requires Ready(r, s) && r.kind == SetState && r.state == Playing && s.playing != {}
    requires j < |s.list| && IsOwn(s.list[j], r)
    ensures var (t, answer) := FirstPass(cfg, w, r, s);
            && |t.list| == |s.list| && IsOwn(t.list[j], r) && Unique(t.list)
            && (t.list[j].state == Playing <==> WelcomedFirst(cfg, r, s.list, 0))
            && (Granted(answer) ==> t.list[j].state == Playing)
  {
    Pass1Updated(cfg, w, r, Start(s));
    Pass1Answer(cfg, w, r, Start(s));
    Pass1Moves(cfg, w, r, Start(s));
    FirstPassUnique(cfg, w, r, s);
    var x := Pass1(cfg, w, r, Start(s));
    OwnNotPlaying(r, s, j);
    hide Pass1, WelcomedFirst, Moved, Denies, Meets, Unique, Cached, FreshHandle, Ready, CleanMonitors;
    OwnMoved(cfg, r, s, x, j);
    OwnCleaned(r, x.s.list, j);
  }

  lemma OwnNotPlaying(r: Request, s: State, j: nat)
    requires Ready(r, s) && r.kind == SetState && j < |s.list| && IsOwn(s.list[j], r)
    ensures s.list[j].state != Playing
  {
    hide Unique, Cached;
  }

  lemma OwnMoved(cfg: Config, r: Request, s: State, x: Cursor, j: nat)
    requires Moved(cfg, r, Start(s), x) && r.kind == SetState && r.state == Playing
    requires j < |s.list| && IsOwn(s.list[j], r) && s.list[j].state != Playing
    ensures |x.s.list| == |s.list| && IsOwn(x.s.list[j], r) && (x.s.list[j].state == Playing <==> x.updated)
  {
    hide Settled, NewSound;
    assert Fate(cfg, r, Start(s), x, j, s.list[j], x.s.list[j]);
  }

  lemma OwnCleaned(r: Request, list: seq<Sound>, j: nat)
    requires j < |list|
    ensures var t := CleanMonitors(list);
            |t| == |list| && IsOwn(t[j], r) == IsOwn(list[j], r) && t[j].state == list[j].state
  {
  }

  lemma OwnAfterSecondPass(cfg: Config, w: World, r: Request, s: State, j: nat)
    requires Unique(s.list) && r.kind == SetState && r.state == Playing && j < |s.list| && IsOwn(s.list[j], r)
    ensures var t := Pass2(cfg, w, r, s, 0);
            |t.list| == |s.list| && IsOwn(t.list[j], r) && (s.list[j].state == Playing ==> t.list[j].state == Playing)
  {
    Pass2Outcome(cfg, w, r, s, 0);
    hide Pass2, Unique, Evicted;
    assert Fate2(cfg, r, s.list[j], Pass2(cfg, w, r, s, 0).list[j]);
  }

  lemma OwnWhenFree(cfg: Config, w: World, r: Request, s: State, j: nat)
    requires Ready(r, s) && r.kind == SetState && r.state == Playing && s.playing == {}
    requires j < |s.list| && IsOwn(s.list[j], r)
    ensures var t := Compare(cfg, w, r, s).0;
            |t.list| == |s.list| && IsOwn(t.list[j], r) && t.list[j].state == Playing
  {
    hide Compare, Ready, Recorded;
    var recorded := RecordedBy(cfg, w, r, s);
    OwnRecorded(r, s.list, Compare(cfg, w, r, s).0.list, j);
  }

  lemma OwnRecorded(r: Request, s: seq<Sound>, t: seq<Sound>, j: nat)
    requires Recorded(r, true, s, t) && r.kind == SetState && r.state == Playing && j < |s| && IsOwn(s[j], r)
    ensures |t| == |s| && IsOwn(t[j], r) && t[j].state == Playing
  {
    assert SameSound(s[j].(state := r.state, resource := r.resource), t[j + 0]);
  }

  /** A sound that asks to play is listed as playing afterwards if and only if nobody
      played, or some playing sound welcomes it before any sound denies it; so it may
      play on the list although it was told to stop. */
  lemma PlayingExactly(cfg: Config, w: World, r: Request, s: State, j: nat)
    requires Ready(r, s) && r.kind == SetState && r.state == Playing
    requires j < |s.list| && IsOwn(s.list[j], r)
    ensures var t := Compare(cfg, w, r, s).0;
            |t.list| == |s.list| && IsOwn(t.list[j], r)
            && (t.list[j].state == Playing <==> s.playing == {} || WelcomedFirst(cfg, r, s.list, 0))
  {
    hide Compare, Ready, WelcomedFirst, FirstPass, Pass2, Unique, IsOwn;
    if s.playing == {} {
      OwnWhenFree(cfg, w, r, s, j);
    } else {
      OwnAfterFirstPass(cfg, w, r, s, j);
      CompareIsTwoPasses(cfg, w, r, s);
      OwnAfterSecondPass(cfg, w, r, FirstPass(cfg, w, r, s).0, j);
    }
  }
}
