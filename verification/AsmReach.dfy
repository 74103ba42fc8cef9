/** How far the first pass gets: it meets every sound up to the first one that denies the
    request, and no other. */
module AsmReach {
  import opened AsmTypes
  import opened AsmModel
  import opened AsmArbitration
  import opened AsmCache
  import opened AsmOutcome

  /** A pass from position `i` on meets the sound at `j`: none before it denies. */
  ghost predicate Reached(cfg: Config, r: Request, list: seq<Sound>, i: nat, j: nat) {
    i <= j < |list| && forall l :: i <= l < j ==> !Denies(cfg, r, list[l])
  }

  /** A request to play makes the playing sound `e` of another process yield. */
  predicate Struck(cfg: Config, r: Request, e: Sound) {
    r.state == Playing && e.state == Playing && e.pid != r.pid && MustYield(cfg, r, e)
  }

  /** Some sound of process `pid` that the pass meets is interrupted. */
  ghost predicate Hears(cfg: Config, r: Request, list: seq<Sound>, i: nat, pid: int) {
    exists l: nat :: l < |list| && Reached(cfg, r, list, i, l) && list[l].pid == pid && Struck(cfg, r, list[l])
  }

  lemma StruckIsNoDenial(cfg: Config, r: Request, e: Sound)
    ensures Struck(cfg, r, e) ==> !Denies(cfg, r, e)
  {
    hide Effective, Clash;
  }

  /** The pass goes on behind a sound that does not deny. */
  lemma ReachedNext(cfg: Config, r: Request, list: seq<Sound>, i: nat, j: nat)
    requires i < |list|
    ensures Reached(cfg, r, list, i, j) <==>
              j == i || (!Denies(cfg, r, list[i]) && Reached(cfg, r, list, i + 1, j))
  {
    hide Denies;
  }

  lemma HearsNext(cfg: Config, r: Request, list: seq<Sound>, i: nat, pid: int)
    requires i < |list|
    ensures Hears(cfg, r, list, i, pid) <==>
              || (list[i].pid == pid && Struck(cfg, r, list[i]))
              || (!Denies(cfg, r, list[i]) && Hears(cfg, r, list, i + 1, pid))
  {
    hide Denies, Struck, Reached;
    forall j: nat ensures Reached(cfg, r, list, i, j) <==>
                       j == i || (!Denies(cfg, r, list[i]) && Reached(cfg, r, list, i + 1, j))
    {
      ReachedNext(cfg, r, list, i, j);
    }
    ReachedBounds(cfg, r, list, i, i);
    assert Reached(cfg, r, list, i, i);
    if Hears(cfg, r, list, i, pid) {
      var l: nat :| l < |list| && Reached(cfg, r, list, i, l) && list[l].pid == pid && Struck(cfg, r, list[l]);
      assert l == i || Reached(cfg, r, list, i + 1, l);
    }
    if !Denies(cfg, r, list[i]) && Hears(cfg, r, list, i + 1, pid) {
      var l: nat :| l < |list| && Reached(cfg, r, list, i + 1, l) && list[l].pid == pid && Struck(cfg, r, list[l]);
      assert Reached(cfg, r, list, i, l);
    }
  }

  // ------------------------------------------------------- the sounds behind

  /** The requester's own process apart, nothing about the sound differs. */
  predicate SameForeign(r: Request, e: Sound, f: Sound) {
    SameIdentity(e, f) && (e.pid != r.pid ==> SameSound(e, f))
  }

  /** From position `i` of `a` on, the same sounds stand in `b`, moved by `k`. */
  ghost predicate SameBehind(r: Request, a: seq<Sound>, i: nat, b: seq<Sound>, k: nat) {
    |b| == |a| + k && forall j :: i <= j < |a| ==> SameForeign(r, a[j], b[j + k])
  }

  lemma SameVerdict(cfg: Config, r: Request, e: Sound, f: Sound)
    requires SameForeign(r, e, f)
    ensures e.pid == f.pid
    ensures Denies(cfg, r, e) <==> Denies(cfg, r, f)
    ensures Struck(cfg, r, e) <==> Struck(cfg, r, f)
  {
    hide Effective, Clash;
  }

  lemma ReachedBehind(cfg: Config, r: Request, a: seq<Sound>, i: nat, b: seq<Sound>, k: nat, j: nat)
    requires SameBehind(r, a, i, b, k)
    ensures Reached(cfg, r, a, i, j) <==> Reached(cfg, r, b, i + k, j + k)
  {
    hide Denies, SameForeign;
    forall l | i <= l < |a| ensures Denies(cfg, r, a[l]) <==> Denies(cfg, r, b[l + k]) {
      SameVerdict(cfg, r, a[l], b[l + k]);
    }
    if Reached(cfg, r, a, i, j) {
      forall l | i + k <= l < j + k ensures !Denies(cfg, r, b[l]) { assert !Denies(cfg, r, a[l - k]); }
    }
    if Reached(cfg, r, b, i + k, j + k) {
      forall l | i <= l < j ensures !Denies(cfg, r, a[l]) { assert !Denies(cfg, r, b[l + k]); }
    }
  }

  lemma HearsBehind(cfg: Config, r: Request, a: seq<Sound>, i: nat, b: seq<Sound>, k: nat, pid: int)
    requires SameBehind(r, a, i, b, k)
    ensures Hears(cfg, r, a, i, pid) <==> Hears(cfg, r, b, i + k, pid)
  {
    hide Denies, Struck, Reached, SameForeign;
    if Hears(cfg, r, a, i, pid) {
      var l: nat :| l < |a| && Reached(cfg, r, a, i, l) && a[l].pid == pid && Struck(cfg, r, a[l]);
      ReachedBounds(cfg, r, a, i, l);
      ReachedBehind(cfg, r, a, i, b, k, l);
      SameVerdict(cfg, r, a[l], b[l + k]);
    }
    if Hears(cfg, r, b, i + k, pid) {
      var l: nat :| l < |b| && Reached(cfg, r, b, i + k, l) && b[l].pid == pid && Struck(cfg, r, b[l]);
      ReachedBounds(cfg, r, b, i + k, l);
      assert k <= l;
      ReachedBehind(cfg, r, a, i, b, k, l - k);
      SameVerdict(cfg, r, a[l - k], b[l]);
    }
  }

  lemma ReachedBounds(cfg: Config, r: Request, list: seq<Sound>, i: nat, j: nat)
    ensures Reached(cfg, r, list, i, j) ==> i <= j < |list|
  {
  }

  /** A step that does not deny leaves the sounds behind it to the steps that follow. */
  lemma StepLeavesRest(cfg: Config, w: World, r: Request, c: Cursor)
    requires Unique(c.s.list) && FreshHandle(r, c) && c.i < |c.s.list| && !Denied(c.answer)
    requires !Denied(Step1(cfg, w, r, c).answer)
    ensures var d := Step1(cfg, w, r, c);
            var k := Shift(r, c, d);
            d.i == c.i + 1 + k && SameBehind(r, c.s.list, c.i + 1, d.s.list, k)
  {
    hide Settled, NewSound, Step1, Unique, FreshHandle, OwnOutcome;
    Step1Moves(cfg, w, r, c);
    StepWidth(cfg, w, r, c);
    var d := Step1(cfg, w, r, c);
    forall j | c.i + 1 <= j < |c.s.list| ensures SameForeign(r, c.s.list[j], d.s.list[j + Shift(r, c, d)]) {
      assert Fate(cfg, r, c, d, j, c.s.list[j], d.s.list[j + Shift(r, c, d)]);
    }
  }

  // --------------------------------------------------- what a denied request did

  /** How far the pass got with a playing sound of another process. */
  ghost predicate Left(cfg: Config, r: Request, c: Cursor, x: Cursor, j: nat, e: Sound, f: Sound) {
    && SameIdentity(e, f)
    && if Reached(cfg, r, c.s.list, c.i, j) && !Denies(cfg, r, e) && e.state == Playing && e.pid != r.pid
          && r.state == Playing
       then Settled(cfg, r, e, f, x.s.log, |c.s.log|)
       else SameForeign(r, e, f)
  }

  /** What was done with a sound stays done. */
  lemma PassedBy(cfg: Config, w: World, r: Request, c: Cursor, j: nat)
    requires Unique(c.s.list) && FreshHandle(r, c) && c.i <= |c.s.list| && !Denied(c.answer) && j < c.i
    ensures var x := Pass1(cfg, w, r, c);
            var k := |x.s.list| - |c.s.list|;
            0 <= k && c.s.log <= x.s.log && SameForeign(r, c.s.list[j], x.s.list[j + k])
  {
    hide Settled, NewSound, Pass1, Unique, FreshHandle, OwnOutcome;
    Pass1Moves(cfg, w, r, c);
    var x := Pass1(cfg, w, r, c);
    assert Fate(cfg, r, c, x, j, c.s.list[j], x.s.list[j + Shift(r, c, x)]);
  }

  /** Whatever its answer, the pass settles exactly the playing sounds of other processes
      that it meets, and leaves the one that denies, and all behind it, as they were. */
  lemma {:induction false} Pass1Exact(cfg: Config, w: World, r: Request, c: Cursor, j: nat)
    requires Unique(c.s.list) && FreshHandle(r, c) && c.i <= |c.s.list| && !Denied(c.answer) && c.i <= j < |c.s.list|
    ensures var x := Pass1(cfg, w, r, c);
            var k := |x.s.list| - |c.s.list|;
            0 <= k && c.s.log <= x.s.log && Left(cfg, r, c, x, j, c.s.list[j], x.s.list[j + k])
    decreases |c.s.list| - c.i
  {
    hide Step1, Settled, Denies, Unique, FreshHandle, Reached, Left, SameForeign, SameBehind, Moved;
    var d := Step1(cfg, w, r, c);
    Step1Moves(cfg, w, r, c);
    MovedUnique(cfg, r, c, d);
    MovedBasics(cfg, r, c, d);
    Step1Advances(cfg, w, r, c);
    Step1Denial(cfg, w, r, c);
    if Denied(d.answer) {
      DeniedStep(cfg, w, r, c);
      LeftAlone(cfg, r, c, d, j);
    } else {
      StepLeavesRest(cfg, w, r, c);
      var k := Shift(r, c, d);
      if j == c.i {
        PassedBy(cfg, w, r, d, j + k);
        LeftHere(cfg, r, c, d, Pass1(cfg, w, r, d), j);
      } else {
        Pass1Exact(cfg, w, r, d, j + k);
        LeftBehind(cfg, r, c, d, Pass1(cfg, w, r, d), j);
      }
    }
  }

  lemma MovedBasics(cfg: Config, r: Request, c: Cursor, d: Cursor)
    requires Moved(cfg, r, c, d)
    ensures |d.s.list| == |c.s.list| + Shift(r, c, d) && c.s.log <= d.s.log && d.i <= |d.s.list|
  {
    hide Fate;
  }

  lemma DeniedStep(cfg: Config, w: World, r: Request, c: Cursor)
    requires c.i < |c.s.list| && !Denied(c.answer) && Denied(Step1(cfg, w, r, c).answer)
    ensures var d := Step1(cfg, w, r, c); d.s == c.s && Pass1(cfg, w, r, d) == d
  {
    Step1Denial(cfg, w, r, c);
    hide Interrupt, Record, Effective;
  }

  lemma LeftAlone(cfg: Config, r: Request, c: Cursor, d: Cursor, j: nat)
    requires c.i <= j < |c.s.list| && d.s == c.s && Denies(cfg, r, c.s.list[c.i])
    ensures Left(cfg, r, c, d, j, c.s.list[j], d.s.list[j])
  {
    ReachedNext(cfg, r, c.s.list, c.i, j);
    hide Settled, Denies, Reached;
  }

  lemma LeftHere(cfg: Config, r: Request, c: Cursor, d: Cursor, x: Cursor, j: nat)
    requires j == c.i < |c.s.list| && Moved(cfg, r, c, d) && !Denied(d.answer) && d.i == c.i + 1 + Shift(r, c, d)
    requires |d.s.list| <= |x.s.list| && d.s.log <= x.s.log
    requires var k := Shift(r, c, d);
             SameForeign(r, d.s.list[j + k], x.s.list[j + |x.s.list| - |c.s.list|])
    ensures Left(cfg, r, c, x, j, c.s.list[j], x.s.list[j + |x.s.list| - |c.s.list|])
  {
    var e, f := c.s.list[j], d.s.list[j + Shift(r, c, d)];
    assert Fate(cfg, r, c, d, j, e, f);
    hide Settled, Denies, Reached, OwnOutcome, NewSound;
    SettledExtends(cfg, r, e, f, d.s.log, x.s.log, |c.s.log|);
  }

  lemma LeftBehind(cfg: Config, r: Request, c: Cursor, d: Cursor, x: Cursor, j: nat)
    requires var k := Shift(r, c, d);
             && c.i < j < |c.s.list| && d.i == c.i + 1 + k && SameBehind(r, c.s.list, c.i + 1, d.s.list, k)
             && |d.s.list| <= |x.s.list| && c.s.log <= d.s.log && !Denies(cfg, r, c.s.list[c.i])
             && Left(cfg, r, d, x, j + k, d.s.list[j + k], x.s.list[j + |x.s.list| - |c.s.list|])
    ensures Left(cfg, r, c, x, j, c.s.list[j], x.s.list[j + |x.s.list| - |c.s.list|])
  {
    var k := Shift(r, c, d);
    var e, f, g := c.s.list[j], d.s.list[j + k], x.s.list[j + |x.s.list| - |c.s.list|];
    assert SameForeign(r, e, f);
    ReachedNext(cfg, r, c.s.list, c.i, j);
    ReachedBehind(cfg, r, c.s.list, c.i + 1, d.s.list, k, j);
    SameVerdict(cfg, r, e, f);
    hide Settled, Denies, Reached, SameBehind;
    SettledFrom(cfg, r, e, f, g, x.s.log, |c.s.log|, |d.s.log|);
  }

  /** A request that is denied has by then interrupted others: a playing sound of another
      process comes out settled if no sound up to it denies, and every other sound, the
      requester's own apart, stays as it was. */
  lemma DeniedOutcome(cfg: Config, w: World, r: Request, s: State, j: nat)
    requires Ready(r, s) && j < |s.list| && !IsOwn(s.list[j], r) && Denied(Compare(cfg, w, r, s).1)
    ensures var t := Compare(cfg, w, r, s).0;
            var k := |t.list| - |s.list|;
            && 0 <= k <= 1 && s.log <= t.log && SameIdentity(s.list[j], t.list[j + k])
            && if s.list[j].state == Playing && s.list[j].pid != r.pid
                  && forall l :: 0 <= l <= j ==> !Denies(cfg, r, s.list[l])
               then Settled(cfg, r, s.list[j], t.list[j + k], t.log, |s.log|)
               else SameSound(s.list[j], t.list[j + k])
  {
    if s.list[j].pid == r.pid { DeniedOwn(cfg, w, r, s, j); } else { DeniedForeign(cfg, w, r, s, j); }
  }

  lemma DeniedOwn(cfg: Config, w: World, r: Request, s: State, j: nat)
    requires Ready(r, s) && j < |s.list| && !IsOwn(s.list[j], r) && s.list[j].pid == r.pid
    requires Denied(Compare(cfg, w, r, s).1)
    ensures var t := Compare(cfg, w, r, s).0;
            var k := |t.list| - |s.list|;
            0 <= k <= 1 && s.log <= t.log && SameSound(s.list[j], t.list[j + k])
  {
    DeniedIsFirstPass(cfg, w, r, s);
    hide Compare, Pass1, Settled, Ready;
    FirstPassFate(cfg, w, r, s, j);
  }

  lemma DeniedForeign(cfg: Config, w: World, r: Request, s: State, j: nat)
    requires Ready(r, s) && j < |s.list| && s.list[j].pid != r.pid && Denied(Compare(cfg, w, r, s).1)
    ensures var t := Compare(cfg, w, r, s).0;
            var k := |t.list| - |s.list|;
            && 0 <= k <= 1 && s.log <= t.log && SameIdentity(s.list[j], t.list[j + k])
            && if s.list[j].state == Playing && forall l :: 0 <= l <= j ==> !Denies(cfg, r, s.list[l])
               then Settled(cfg, r, s.list[j], t.list[j + k], t.log, |s.log|)
               else SameSound(s.list[j], t.list[j + k])
  {
    DeniedIsFirstPass(cfg, w, r, s);
    OnlyPlayersAreDenied(cfg, w, r, s);
    var recorded := RecordedBy(cfg, w, r, s);
    hide Compare, Pass1, Settled, Denies, Recorded, Cached, CleanMonitors;
    Pass1Exact(cfg, w, r, Start(s), j);
    var x := Pass1(cfg, w, r, Start(s));
    var t := Compare(cfg, w, r, s).0;
    AtMostOneMore(r, recorded, s.list, t.list);
    hide Unique;
    var k := |t.list| - |s.list|;
    CleanedSame(x.s.list, j + k);
    SettledExtends(cfg, r, s.list[j], x.s.list[j + k], x.s.log, t.log, |s.log|);
  }

  lemma AtMostOneMore(r: Request, recorded: bool, s: seq<Sound>, t: seq<Sound>)
    ensures Recorded(r, recorded, s, t) ==> |s| <= |t| <= |s| + 1
  {
  }

  lemma CleanedSame(list: seq<Sound>, j: nat)
    requires j < |list|
    ensures SameSound(list[j], CleanMonitors(list)[j])
  {
  }

  /** A request that is denied ends with the first pass. */
  lemma DeniedIsFirstPass(cfg: Config, w: World, r: Request, s: State)
    requires Denied(Compare(cfg, w, r, s).1)
    ensures s.playing != {}
    ensures var x := Pass1(cfg, w, r, Start(s)).s;
            Compare(cfg, w, r, s).0 == x.(list := CleanMonitors(x.list))
  {
    hide Pass1, Pass2, Record;
  }

  /** Only a request to play is ever told to stop. */
  lemma OnlyPlayersAreDenied(cfg: Config, w: World, r: Request, s: State)
    requires Ready(r, s) && Denied(Compare(cfg, w, r, s).1)
    ensures r.state == Playing
  {
    hide Pass2, Record, Pass1;
    Pass1Answer(cfg, w, r, Start(s));
  }
}
