/** The properties that a reader of the arbiter relies on. */
module AsmOutcome {
  import opened AsmTypes
  import opened AsmModel
  import opened AsmArbitration
  import opened AsmCache

  // ------------------------------------------------------------- second pass

  /** The second pass stops the paused sounds that hold a wanted resource. */
  predicate Evicted(cfg: Config, r: Request, e: Sound) {
    && e.state == Paused && r.state == Playing && e.pid != r.pid
    && Yields(cfg, e.event, r.event) && Clash(e.resource, r.resource)
  }

  ghost predicate Fate2(cfg: Config, r: Request, e: Sound, f: Sound) {
    if IsOwn(e, r) then SameSound(if e.state == Paused && r.kind == SetState && r.state != Ignored
                                  then e.(state := r.state, resource := r.resource) else e, f)
    else SameSound(if Evicted(cfg, r, e) then e.(state := NoState, resource := {}) else e, f)
  }

  lemma EvictPausedOutcome(w: World, r: Request, s: State, i: nat)
    requires Unique(s.list) && i < |s.list|
    ensures var t := EvictPaused(w, r, s, s.list[i]);
            OnlyAt(s, t, i) && SameSound(s.list[i].(state := NoState, resource := {}), t.list[i])
  {
    hide Strike, ChangeState, Unique;
    StrikeOutcome(w, s, s.list[i], CmdStop, ResourceConflict, r.event, false, false);
    ChangeStateOutcome(s, Strike(w, s, s.list[i], CmdStop, ResourceConflict, r.event, false, false).0, i, NoState, {});
  }

  lemma Step2Outcome(cfg: Config, w: World, r: Request, s: State, i: nat)
    requires Unique(s.list) && i < |s.list|
    ensures var t := Step2(cfg, w, r, s, i);
            OnlyAt(s, t, i) && Fate2(cfg, r, s.list[i], t.list[i])
  {
    hide EvictPaused, ChangeState, Yields, Clash, Unique;
    var v := s.list[i];
    EvictPausedOutcome(w, r, s, i);
    ChangeStateOutcome(s, s, i, r.state, r.resource);
  }

  lemma Fate2Chain(cfg: Config, r: Request, e: Sound, f: Sound, g: Sound)
    ensures SameSound(e, f) && Fate2(cfg, r, f, g) ==> Fate2(cfg, r, e, g)
    ensures Fate2(cfg, r, e, f) && SameSound(f, g) ==> Fate2(cfg, r, e, g)
    ensures SameSound(e, f) && SameSound(f, g) ==> SameSound(e, g)
  {
    hide Yields, Clash;
  }

  lemma {:induction false} Pass2Outcome(cfg: Config, w: World, r: Request, s: State, i: nat)
    requires Unique(s.list) && i <= |s.list|
    ensures var t := Pass2(cfg, w, r, s, i);
            && |t.list| == |s.list| && s.log <= t.log
            && (forall j :: 0 <= j < i ==> SameSound(s.list[j], t.list[j]))
            && (forall j :: i <= j < |s.list| ==> Fate2(cfg, r, s.list[j], t.list[j]))
    decreases |s.list| - i
  {
    if i < |s.list| {
      Step2Outcome(cfg, w, r, s, i);
      var t := Step2(cfg, w, r, s, i);
      assert Unique(t.list) by {
        assert forall j :: 0 <= j < |s.list| ==> s.list[j].handle == t.list[j].handle;
      }
      hide Step2, Fate2, SameSound, Unique, SameIdentity;
      Pass2Outcome(cfg, w, r, t, i + 1);
      Pass2Chain(cfg, r, s.list, t.list, Pass2(cfg, w, r, t, i + 1).list, i);
    }
  }

  lemma Pass2Chain(cfg: Config, r: Request, a: seq<Sound>, b: seq<Sound>, c: seq<Sound>, i: nat)
    requires |a| == |b| == |c| && i < |a| && Fate2(cfg, r, a[i], b[i])
    requires forall j :: 0 <= j < |a| && j != i ==> SameSound(a[j], b[j])
    requires forall j :: 0 <= j < i + 1 ==> SameSound(b[j], c[j])
    requires forall j :: i + 1 <= j < |a| ==> Fate2(cfg, r, b[j], c[j])
    ensures forall j :: 0 <= j < i ==> SameSound(a[j], c[j])
    ensures forall j :: i <= j < |a| ==> Fate2(cfg, r, a[j], c[j])
  {
    hide Fate2, SameSound;
    forall j | 0 <= j < |a| ensures if j < i then SameSound(a[j], c[j]) else Fate2(cfg, r, a[j], c[j]) {
      Fate2Chain(cfg, r, a[j], b[j], c[j]);
    }
  }

  /** The sound was told to stop because its resource is wanted. */
  ghost predicate ToldOff(r: Request, e: Sound, log: seq<Effect>, from: nat) {
    exists reply :: Told(log, from, e, CmdStop, ResourceConflict, r.event, reply)
  }

  lemma Step2Told(cfg: Config, w: World, r: Request, s: State, i: nat)
    requires Unique(s.list) && i < |s.list|
    ensures var t := Step2(cfg, w, r, s, i);
            s.log <= t.log && (Evicted(cfg, r, s.list[i]) ==> ToldOff(r, s.list[i], t.log, |s.log|))
  {
    hide Strike, ChangeState, Yields, Clash, Told, Unique;
    StrikeOutcome(w, s, s.list[i], CmdStop, ResourceConflict, r.event, false, false);
    var (s1, reply) := Strike(w, s, s.list[i], CmdStop, ResourceConflict, r.event, false, false);
    assert Told(s1.log, |s.log|, s.list[i], CmdStop, ResourceConflict, r.event, reply);
  }

  lemma ToldOffExtends(r: Request, e: Sound, f: Sound, log: seq<Effect>, more: seq<Effect>, from: nat, later: nat)
    requires from <= later && log <= more && SameIdentity(e, f)
    ensures ToldOff(r, f, log, later) ==> ToldOff(r, e, more, from)
  {
    if ToldOff(r, f, log, later) {
      var reply :| Told(log, later, f, CmdStop, ResourceConflict, r.event, reply);
      ToldFrom(log, from, later, e, f, CmdStop, ResourceConflict, r.event, reply);
      ToldExtends(log, more, from, e, CmdStop, ResourceConflict, r.event, reply);
    }
    hide Told;
  }

  lemma EvictedSame(cfg: Config, r: Request, e: Sound, f: Sound)
    ensures SameSound(e, f) ==> (Evicted(cfg, r, e) <==> Evicted(cfg, r, f))
  {
    hide Yields, Clash;
  }

  /** Every paused sound that the second pass stops was told so. */
  lemma {:induction false} Pass2Told(cfg: Config, w: World, r: Request, s: State, i: nat, j: nat)
    requires Unique(s.list) && i <= j < |s.list| && Evicted(cfg, r, s.list[j])
    ensures var t := Pass2(cfg, w, r, s, i);
            s.log <= t.log && ToldOff(r, s.list[j], t.log, |s.log|)
    decreases |s.list| - i
  {
    hide Step2, Fate2, Unique, Evicted, ToldOff;
    var t := Step2(cfg, w, r, s, i);
    Step2Outcome(cfg, w, r, s, i);
    Step2Told(cfg, w, r, s, i);
    OnlyAtUnique(s, t, i);
    Pass2Outcome(cfg, w, r, t, i + 1);
    var u := Pass2(cfg, w, r, t, i + 1);
    if j == i {
      ToldOffExtends(r, s.list[j], s.list[j], t.log, u.log, |s.log|, |s.log|);
    } else {
      EvictedSame(cfg, r, s.list[j], t.list[j]);
      Pass2Told(cfg, w, r, t, i + 1, j);
      ToldOffExtends(r, s.list[j], t.list[j], u.log, u.log, |s.log|, |t.log|);
    }
  }

  lemma OnlyAtUnique(s: State, t: State, i: nat)
    requires Unique(s.list) && OnlyAt(s, t, i)
    ensures Unique(t.list)
  {
    assert forall j :: 0 <= j < |s.list| ==> s.list[j].handle == t.list[j].handle;
  }

  // ----------------------------------------------------------- the whole request

  /** What holds when a request reaches arbitration: handles are distinct, the masks
      agree with the list, and the requester is new or does not play. */
  ghost predicate Ready(r: Request, s: State) {
    && Unique(s.list) && Cached(s)
    && (r.kind == Register ==> forall j :: 0 <= j < |s.list| ==> s.list[j].handle != r.handle)
    && (r.kind == SetState ==> !IsPlayingNow(s.list, r.pid, r.handle))
  }

  function Start(s: State): Cursor {
    Cursor(s, 0, false, None)
  }

  lemma BusyMeansConflict(r: Request, s: State)
    requires Ready(r, s) && s.playing != {}
    ensures exists j :: 0 <= j < |s.list| && Meets(r, s.list[j])
  {
    MaskMeaning(s.list, Playing);
    var e :| e in s.playing;
    var j :| 0 <= j < |s.list| && s.list[j].event == e && s.list[j].state == Playing;
    assert Meets(r, s.list[j]);
  }

  /** The server never sends an answer it did not fill in. */
  lemma AlwaysAnswers(cfg: Config, w: World, r: Request, s: State)
    requires Ready(r, s)
    ensures Compare(cfg, w, r, s).1.Some?
  {
    hide Pass2, Record;
    if s.playing != {} {
      BusyMeansConflict(r, s);
      Pass1Answer(cfg, w, r, Start(s));
      hide Pass1, MaskOf;
    }
  }

  /** A request to play is turned down exactly when a playing sound of another
      process outranks it; where that sound stands in the list does not matter. */
  lemma DenialIsOrderIndependent(cfg: Config, w: World, r: Request, s: State)
    requires Ready(r, s) && r.state == Playing
    ensures Denied(Compare(cfg, w, r, s).1) <==>
              !cfg.gcf && exists e :: e in s.list && e.state == Playing && e.pid != r.pid
                                      && cfg.policy(e.event, r.event) == Play1Stop2
  {
    hide Pass2, Record, Pass1;
    Pass1Answer(cfg, w, r, Start(s));
    assert (exists j :: 0 <= j < |s.list| && Denies(cfg, r, s.list[j])) <==>
      !cfg.gcf && exists e :: e in s.list && e.state == Playing && e.pid != r.pid
                              && cfg.policy(e.event, r.event) == Play1Stop2;
    if s.playing == {} { NobodyPlays(s); }
  }

  /** The first pass, seen from one sound that is not the requester's own. */
  lemma FirstPassFate(cfg: Config, w: World, r: Request, s: State, j: nat)
    requires Ready(r, s) && s.playing != {} && j < |s.list| && !IsOwn(s.list[j], r)
    ensures var (t, answer) := FirstPass(cfg, w, r, s);
            var k := |t.list| - |s.list|;
            && 0 <= k <= 1 && s.log <= t.log && SameIdentity(s.list[j], t.list[j + k])
            && (s.list[j].pid == r.pid || s.list[j].state != Playing || r.state != Playing ==>
                  SameSound(s.list[j], t.list[j + k]))
            && (s.list[j].pid != r.pid && s.list[j].state == Playing && r.state == Playing && !Denied(answer) ==>
                  Settled(cfg, r, s.list[j], t.list[j + k], t.log, |s.log|))
  {
    hide Pass1, Settled, NewSound, Cached, CleanMonitors;
    Pass1Moves(cfg, w, r, Start(s));
    var x := Pass1(cfg, w, r, Start(s));
    var k := Shift(r, Start(s), x);
    assert Fate(cfg, r, Start(s), x, j, s.list[j], x.s.list[j + k]);
    var clean := CleanMonitors(x.s.list);
    assert SameSound(x.s.list[j + k], clean[j + k]);
    SettledExtends(cfg, r, s.list[j], x.s.list[j + k], x.s.log, x.s.log, |s.log|);
  }

  lemma FirstPassUnique(cfg: Config, w: World, r: Request, s: State)
    requires Ready(r, s)
    ensures Unique(FirstPass(cfg, w, r, s).0.list)
  {
    if s.playing != {} {
      Pass1Moves(cfg, w, r, Start(s));
      hide Pass1, Moved, Cached;
    }
  }

  /** The policy lets the playing sound `e` go on: there is none, or it mixes. */
  predicate Spared(cfg: Config, r: Request, e: Sound) {
    var p := Effective(cfg, e.event, r.event);
    !Arbitrates(p) || (p == Mix && !Clash(e.resource, r.resource))
  }

  /** A playing sound `e` was settled by policy and reply, and then stopped if that left it
      paused with a resource the newcomer wants. */
  ghost predicate SettledThenEvicted(cfg: Config, r: Request, evicting: bool, e: Sound, f: Sound,
                                     log: seq<Effect>, from: nat) {
    exists g :: Settled(cfg, r, e, g, log, from)
                && SameSound(if evicting && Evicted(cfg, r, g) then g.(state := NoState, resource := {}) else g, f)
                && (evicting && Evicted(cfg, r, g) ==> ToldOff(r, e, log, from))
  }

  /** How a sound `e` that is not the requester's own ends up as `f` after a request
      to play that is not denied. */
  ghost predicate Aftermath(cfg: Config, r: Request, evicting: bool, e: Sound, f: Sound, log: seq<Effect>, from: nat) {
    && SameIdentity(e, f)
    && (e.pid == r.pid ==> SameSound(e, f))
    && (e.pid != r.pid && e.state == Playing ==> SettledThenEvicted(cfg, r, evicting, e, f, log, from))
    && (e.pid != r.pid ==> match e.state
         case Playing =>
           && (Spared(cfg, r, e) ==> SameSound(e, f))
           && (f.state == Playing ==> SameSound(e, f) && (Spared(cfg, r, e) || IgnoredBy(log, from, e)))
           && (f.state == Paused ==>
                 && SameSound(e.(state := Paused), f)
                 && !(evicting && Yields(cfg, e.event, r.event) && Clash(e.resource, r.resource)))
         case Paused =>
           && SameSound(if evicting && Evicted(cfg, r, e) then e.(state := NoState, resource := {}) else e, f)
           && (evicting && Evicted(cfg, r, e) ==> ToldOff(r, e, log, from))
         case _ => SameSound(e, f))
  }

  /** Nobody was playing, or the newcomer was told to play: then paused sounds may be evicted. */
  predicate Admits(s: State, answer: Option<Decision>) {
    s.playing == {} || Granted(answer)
  }

  lemma SecondPassFate(cfg: Config, w: World, r: Request, s: State, free: bool, answer: Option<Decision>, j: nat)
    requires Unique(s.list) && Cached(s) && j < |s.list| && !IsOwn(s.list[j], r)
    ensures var t := if Evicts(r, s, free, answer) then Pass2(cfg, w, r, s, 0) else s;
            && |t.list| == |s.list| && s.log <= t.log
            && SameSound(if (free || Granted(answer)) && Evicted(cfg, r, s.list[j])
                         then s.list[j].(state := NoState, resource := {}) else s.list[j], t.list[j])
            && ((free || Granted(answer)) && Evicted(cfg, r, s.list[j]) ==> ToldOff(r, s.list[j], t.log, |s.log|))
  {
    Pass2Outcome(cfg, w, r, s, 0);
    if Evicted(cfg, r, s.list[j]) { Pass2Told(cfg, w, r, s, 0, j); }
    hide Pass2, Yields, MaskOf, ToldOff;
    MaskMeaning(s.list, Paused);
    assert s.list[j].state == Paused ==> s.list[j].event in MaskOf(s.list, Paused);
  }

  lemma AftermathOfBoth(cfg: Config, r: Request, evicting: bool, e: Sound, f: Sound, g: Sound,
                        log: seq<Effect>, more: seq<Effect>, from: nat)
    requires r.state == Playing && SameIdentity(e, f) && log <= more
    requires if e.pid == r.pid || e.state != Playing then SameSound(e, f) else Settled(cfg, r, e, f, log, from)
    requires SameSound(if evicting && Evicted(cfg, r, f) then f.(state := NoState, resource := {}) else f, g)
    requires evicting && Evicted(cfg, r, f) ==> ToldOff(r, e, more, from)
    ensures Aftermath(cfg, r, evicting, e, g, more, from)
  {
    SettledExtends(cfg, r, e, f, log, more, from);
    if SameSound(e, f) { EvictedSame(cfg, r, e, f); }
    if e.pid != r.pid && e.state == Playing {
      SettledYields(cfg, r, e, f, more, from);
      assert SettledThenEvicted(cfg, r, evicting, e, g, more, from);
    }
    hide Settled, SettledThenEvicted, IgnoredBy, Effective, Yields, Clash, ToldOff;
    EvictedOnlyIf(cfg, r, e, f);
  }

  lemma EvictedOnlyIf(cfg: Config, r: Request, e: Sound, f: Sound)
    ensures SameIdentity(e, f) && Evicted(cfg, r, f) ==> f.state == Paused && e.pid != r.pid
    ensures SameIdentity(e, f) && f.state == Paused && e.pid != r.pid && r.state == Playing && !Evicted(cfg, r, f) ==>
              !(Yields(cfg, e.event, r.event) && Clash(f.resource, r.resource))
  {
    hide Yields, Clash;
  }

  function TwoPasses(cfg: Config, w: World, r: Request, s: State): (State, Option<Decision>) {
    var (s1, answer) := FirstPass(cfg, w, r, s);
    (if Evicts(r, s1, s.playing == {}, answer) then Pass2(cfg, w, r, s1, 0) else s1, answer)
  }

  lemma NobodyPlays(s: State)
    requires Cached(s) && s.playing == {}
    ensures forall j :: 0 <= j < |s.list| ==> s.list[j].state != Playing
  {
    MaskMeaning(s.list, Playing);
    hide MaskOf;
    assert forall j :: 0 <= j < |s.list| && s.list[j].state == Playing ==> s.list[j].event in MaskOf(s.list, Playing);
  }

  lemma FirstPassAftermath(cfg: Config, w: World, r: Request, s: State, j: nat)
    requires Ready(r, s) && r.state == Playing && j < |s.list| && !IsOwn(s.list[j], r)
    requires !Denied(FirstPass(cfg, w, r, s).1)
    ensures var s1 := FirstPass(cfg, w, r, s).0;
            var k := |s1.list| - |s.list|;
            && 0 <= k <= 1 && s.log <= s1.log && SameIdentity(s.list[j], s1.list[j + k])
            && if s.list[j].pid == r.pid || s.list[j].state != Playing then SameSound(s.list[j], s1.list[j + k])
               else Settled(cfg, r, s.list[j], s1.list[j + k], s1.log, |s.log|)
  {
    if s.playing != {} {
      FirstPassFate(cfg, w, r, s, j);
      hide FirstPass, Settled;
    } else {
      NobodyPlays(s);
    }
  }

  lemma OwnStays(r: Request, e: Sound)
    ensures forall f :: SameIdentity(e, f) ==> IsOwn(f, r) == IsOwn(e, r)
  {
  }

  lemma TwoPassesOutcome(cfg: Config, w: World, r: Request, s: State, j: nat)
    requires Ready(r, s) && r.state == Playing && j < |s.list| && !IsOwn(s.list[j], r)
    requires !Denied(TwoPasses(cfg, w, r, s).1)
    ensures var (t, answer) := TwoPasses(cfg, w, r, s);
            var k := |t.list| - |s.list|;
            && 0 <= k <= 1 && s.log <= t.log
            && Aftermath(cfg, r, Admits(s, answer), s.list[j], t.list[j + k], t.log, |s.log|)
  {
    FirstPassCached(cfg, w, r, s);
    hide FirstPass, Settled, Evicted, Pass2, Aftermath, Unique, Cached, Ready, ToldOff, IsOwn;
    FirstPassAftermath(cfg, w, r, s, j);
    FirstPassUnique(cfg, w, r, s);
    OwnStays(r, s.list[j]);
    var free := s.playing == {};
    var (s1, answer) := FirstPass(cfg, w, r, s);
    var k := |s1.list| - |s.list|;
    SecondPassFate(cfg, w, r, s1, free, answer, j + k);
    var s2 := TwoPasses(cfg, w, r, s).0;
    ToldOffExtends(r, s.list[j], s1.list[j + k], s2.log, s2.log, |s.log|, |s1.log|);
    AftermathOfBoth(cfg, r, Admits(s, answer), s.list[j], s1.list[j + k], s2.list[j + k], s1.log, s2.log, |s.log|);
  }

  lemma AftermathExtends(cfg: Config, r: Request, evicting: bool, e: Sound, f: Sound, g: Sound,
                         log: seq<Effect>, more: seq<Effect>, from: nat)
    requires Aftermath(cfg, r, evicting, e, f, log, from) && SameSound(f, g) && log <= more
    ensures Aftermath(cfg, r, evicting, e, g, more, from)
  {
    ToldOffExtends(r, e, e, log, more, from, from);
    if SettledThenEvicted(cfg, r, evicting, e, f, log, from) { EvictedExtends(cfg, r, evicting, e, f, g, log, more, from); }
    hide Yields, Clash, Spared, SettledThenEvicted, Evicted, ToldOff;
  }

  lemma EvictedExtends(cfg: Config, r: Request, evicting: bool, e: Sound, f: Sound, g: Sound,
                       log: seq<Effect>, more: seq<Effect>, from: nat)
    requires SettledThenEvicted(cfg, r, evicting, e, f, log, from) && SameSound(f, g) && log <= more
    ensures SettledThenEvicted(cfg, r, evicting, e, g, more, from)
  {
    hide Settled, Evicted, ToldOff;
    var h :| Settled(cfg, r, e, h, log, from)
             && SameSound(if evicting && Evicted(cfg, r, h) then h.(state := NoState, resource := {}) else h, f)
             && (evicting && Evicted(cfg, r, h) ==> ToldOff(r, e, log, from));
    ToldOffExtends(r, e, e, log, more, from, from);
    SettledExtends(cfg, r, e, h, log, more, from);
  }

  /** After a request to play that is not denied: sounds of the requester's process
      keep their state; a sound of another process plays on only if its policy spares
      it or its client answered IGNORE; a paused one is stopped exactly when it holds
      a resource the newcomer wants and its policy makes it yield. */
  lemma ArbitrationOutcome(cfg: Config, w: World, r: Request, s: State, j: nat)
    requires Ready(r, s) && r.state == Playing && j < |s.list| && !IsOwn(s.list[j], r)
    requires !Denied(Compare(cfg, w, r, s).1)
    ensures var (t, answer) := Compare(cfg, w, r, s);
            var k := |t.list| - |s.list|;
            && 0 <= k <= 1 && s.log <= t.log
            && Aftermath(cfg, r, Admits(s, answer), s.list[j], t.list[j + k], t.log, |s.log|)
  {
    CompareIsTwoPasses(cfg, w, r, s);
    hide Compare;
    TwoPassesOutcome(cfg, w, r, s, j);
    if s.playing == {} { FreeDoesNotRecord(cfg, w, r, s); }
    hide TwoPasses, Aftermath, Record, Ready;
    var (s2, answer) := TwoPasses(cfg, w, r, s);
    if s.playing == {} {
      RecordOutcome(r, s2);
      var t := Record(r, s2);
      AftermathExtends(cfg, r, Admits(s, answer), s.list[j], s2.list[j], t.list[j + |t.list| - |s.list|],
        s2.log, t.log, |s.log|);
    }
  }

  /** With the GCF switch on nobody is denied, and a playing sound of another process is
      left alone unless it holds a wanted resource; then it is told to stop for that. */
  lemma GcfMixes(cfg: Config, w: World, r: Request, s: State, j: nat)
    requires Ready(r, s) && cfg.gcf && r.state == Playing
    requires j < |s.list| && s.list[j].state == Playing && s.list[j].pid != r.pid
    ensures var (t, answer) := Compare(cfg, w, r, s);
            var k := |t.list| - |s.list|;
            && !Denied(answer) && 0 <= k <= 1
            && if Clash(s.list[j].resource, r.resource) then ToldOff(r, s.list[j], t.log, |s.log|)
               else SameSound(s.list[j], t.list[j + k])
  {
    var (t, answer) := Compare(cfg, w, r, s);
    DenialIsOrderIndependent(cfg, w, r, s);
    ArbitrationOutcome(cfg, w, r, s, j);
    var f := t.list[j + |t.list| - |s.list|];
    hide Compare, ToldOff, Clash, Ready, Settled, IgnoredBy, Spared, Yields;
    GcfSettled(cfg, r, Admits(s, answer), s.list[j], f, t.log, |s.log|);
  }

  lemma GcfSettled(cfg: Config, r: Request, evicting: bool, e: Sound, f: Sound, log: seq<Effect>, from: nat)
    requires cfg.gcf && e.state == Playing && SettledThenEvicted(cfg, r, evicting, e, f, log, from)
    ensures if Clash(e.resource, r.resource) then ToldOff(r, e, log, from) else SameSound(e, f)
  {
    hide Clash, Told, Yields, AfterReply;
  }

  lemma CompareIsTwoPasses(cfg: Config, w: World, r: Request, s: State)
    ensures var (s2, answer) := TwoPasses(cfg, w, r, s);
            Compare(cfg, w, r, s) == (if s.playing == {} then Record(r, s2) else s2, answer)
  {
  }

  lemma FreeDoesNotRecord(cfg: Config, w: World, r: Request, s: State)
    requires Ready(r, s) && s.playing == {}
    ensures var s2 := TwoPasses(cfg, w, r, s).0; |s2.list| == |s.list| && Unique(s2.list)
  {
    Pass2Outcome(cfg, w, r, s, 0);
    hide Pass2, Cached;
    assert forall j :: 0 <= j < |s.list| ==> s.list[j].handle == TwoPasses(cfg, w, r, s).0.list[j].handle;
  }

  // ---------------------------------------------------- the requester's own entry

  /** `t` is `s` with `k` entries of the requester in front and each own entry in the
      requester's state if it was recorded; nobody changes identity. */
  ghost predicate Recorded(r: Request, recorded: bool, s: seq<Sound>, t: seq<Sound>) {
    var k := |t| - |s|;
    && 0 <= k <= 1
    && (k == 1 <==> r.kind == Register && recorded)
    && (k == 1 ==> SameSound(NewSound(r), t[0]))
    && forall j :: 0 <= j < |s| ==>
         && SameIdentity(s[j], t[j + k])
         && (recorded && r.kind == SetState && IsOwn(s[j], r) && r.state != Ignored ==>
               SameSound(s[j].(state := r.state, resource := r.resource), t[j + k]))
  }

  lemma MovedRecords(cfg: Config, r: Request, s: State, x: Cursor)
    requires Moved(cfg, r, Start(s), x)
    ensures Recorded(r, x.updated, s.list, x.s.list)
  {
    hide Settled, NewSound;
    var k := Shift(r, Start(s), x);
    forall j | 0 <= j < |s.list| ensures Fate(cfg, r, Start(s), x, j, s.list[j], x.s.list[j + k]) { }
  }

  lemma RecordedSame(r: Request, recorded: bool, s: seq<Sound>, t: seq<Sound>, u: seq<Sound>)
    requires Recorded(r, recorded, s, t) && SameSounds(t, u)
    ensures Recorded(r, recorded, s, u)
  {
    hide NewSound;
    var k := |t| - |s|;
    forall j | 0 <= j < |s| ensures SameIdentity(s[j], t[j + k]) && SameSound(t[j + k], u[j + k]) { }
    if k == 1 { assert SameSound(t[0], u[0]); }
  }

  lemma Pass1Records(cfg: Config, w: World, r: Request, s: State)
    requires Ready(r, s) && s.playing != {}
    ensures var x := Pass1(cfg, w, r, Start(s));
            Recorded(r, x.updated, s.list, x.s.list) && (Granted(x.answer) ==> x.updated)
  {
    Pass1Answer(cfg, w, r, Start(s));
    Pass1Moves(cfg, w, r, Start(s));
    hide Pass1, Cached, Denies, Moved, Unique, FreshHandle, Recorded;
    MovedRecords(cfg, r, s, Pass1(cfg, w, r, Start(s)));
  }

  lemma FirstPassRecorded(cfg: Config, w: World, r: Request, s: State)
    requires Ready(r, s) && s.playing != {}
    ensures var (s1, answer) := FirstPass(cfg, w, r, s);
            exists recorded :: Recorded(r, recorded, s.list, s1.list) && (Granted(answer) ==> recorded)
  {
    hide Pass1, Recorded, Ready, SameSounds;
    Pass1Records(cfg, w, r, s);
    var x := Pass1(cfg, w, r, Start(s));
    CleanIsSame(x.s.list);
    RecordedSame(r, x.updated, s.list, x.s.list, CleanMonitors(x.s.list));
    assert FirstPass(cfg, w, r, s) == (x.s.(list := CleanMonitors(x.s.list)), x.answer);
    assert Recorded(r, x.updated, s.list, FirstPass(cfg, w, r, s).0.list);
  }

  lemma CleanIsSame(list: seq<Sound>)
    ensures SameSounds(list, CleanMonitors(list))
  {
    hide CleanMonitors;
  }

  lemma SecondPassRecorded(cfg: Config, w: World, r: Request, recorded: bool, s: seq<Sound>, s1: State)
    requires Unique(s1.list) && Recorded(r, recorded, s, s1.list)
    ensures Recorded(r, recorded, s, Pass2(cfg, w, r, s1, 0).list)
  {
    Pass2Outcome(cfg, w, r, s1, 0);
    hide Pass2, Yields, Clash, Unique;
    var t := Pass2(cfg, w, r, s1, 0).list;
    var k := |t| - |s|;
    hide Fate2, SameIdentity, SameSound, IsOwn, NewSound;
    if k == 1 { NewStays(cfg, r, s1.list[0], t[0]); }
    forall j | 0 <= j < |s| ensures
         && SameIdentity(s[j], t[j + k])
         && (recorded && r.kind == SetState && IsOwn(s[j], r) && r.state != Ignored ==>
               SameSound(s[j].(state := r.state, resource := r.resource), t[j + k]))
    {
      RecordStays(cfg, r, s[j], s1.list[j + k], t[j + k]);
    }
  }

  lemma NewStays(cfg: Config, r: Request, e: Sound, f: Sound)
    requires SameSound(NewSound(r), e) && Fate2(cfg, r, e, f) && r.kind == Register
    ensures SameSound(NewSound(r), f)
  {
    hide Yields, Clash;
  }

  /** An entry that the request put in its own state keeps it in the second pass. */
  lemma RecordStays(cfg: Config, r: Request, e: Sound, f: Sound, g: Sound)
    requires SameIdentity(e, f) && Fate2(cfg, r, f, g)
    ensures SameIdentity(e, g)
    ensures var own := e.(state := r.state, resource := r.resource);
            IsOwn(e, r) && r.kind == SetState && SameSound(own, f) ==> SameSound(own, g)
  {
    hide Yields, Clash;
  }

  /** Whatever the answer, sounds keep their identity and order, and at most one
      entry, the requester's, is put in front, by a registration only. A requester that
      is told to play, or that meets silence, is recorded: a new one is listed, and one
      that was listed takes the state and the resources it asked for; a change of state
      lists nobody. */
  lemma RequesterIsListed(cfg: Config, w: World, r: Request, s: State)
    requires Ready(r, s)
    ensures var (t, answer) := Compare(cfg, w, r, s);
            exists recorded :: Recorded(r, recorded, s.list, t.list) && (Admits(s, answer) ==> recorded)
  {
    CompareIsTwoPasses(cfg, w, r, s);
    hide Compare;
    FirstPassUnique(cfg, w, r, s);
    if s.playing != {} {
      FirstPassRecorded(cfg, w, r, s);
      var (s1, answer) := FirstPass(cfg, w, r, s);
      hide FirstPass, Recorded, Pass2, Unique;
      var recorded :| Recorded(r, recorded, s.list, s1.list) && (Granted(answer) ==> recorded);
      SecondPassRecorded(cfg, w, r, recorded, s.list, s1);
    } else {
      assert Recorded(r, false, s.list, s.list);
      SecondPassRecorded(cfg, w, r, false, s.list, s);
      FreeDoesNotRecord(cfg, w, r, s);
      hide Pass2, Unique;
      FreeRecords(r, s.list, TwoPasses(cfg, w, r, s).0);
    }
  }

  /** Whether the requester was recorded. */
  lemma RecordedBy(cfg: Config, w: World, r: Request, s: State) returns (recorded: bool)
    requires Ready(r, s)
    ensures Recorded(r, recorded, s.list, Compare(cfg, w, r, s).0.list)
    ensures Admits(s, Compare(cfg, w, r, s).1) ==> recorded
  {
    RequesterIsListed(cfg, w, r, s);
    hide Compare, Ready, Recorded, Admits;
    recorded :| Recorded(r, recorded, s.list, Compare(cfg, w, r, s).0.list)
                && (Admits(s, Compare(cfg, w, r, s).1) ==> recorded);
  }

  lemma FreeRecords(r: Request, s: seq<Sound>, s2: State)
    requires Unique(s2.list) && Recorded(r, false, s, s2.list)
    ensures Recorded(r, true, s, Record(r, s2).list)
  {
    RecordOutcome(r, s2);
    hide Record;
  }

  /** `f` plays or pauses with a resource that `r` wants although it has to yield to it. */
  predicate HoldsAgainst(cfg: Config, r: Request, f: Sound) {
    && f.pid != r.pid && Yields(cfg, f.event, r.event)
    && (f.state == Playing || f.state == Paused) && Clash(f.resource, r.resource)
  }

  /** Once a request to play is let in, a sound of another process that has to yield
      to it still plays or pauses with a resource the newcomer holds only if its own
      client answered IGNORE. */
  lemma ResourceExclusion(cfg: Config, w: World, r: Request, s: State)
    requires Ready(r, s) && r.state == Playing && Admits(s, Compare(cfg, w, r, s).1)
    ensures var t := Compare(cfg, w, r, s).0;
            forall f :: f in t.list && HoldsAgainst(cfg, r, f) ==> IgnoredBy(t.log, |s.log|, f)
  {
    var t := Compare(cfg, w, r, s).0;
    hide Compare, Ready, HoldsAgainst;
    forall i | 0 <= i < |t.list| && HoldsAgainst(cfg, r, t.list[i]) ensures IgnoredBy(t.log, |s.log|, t.list[i]) {
      ExclusionAt(cfg, w, r, s, i);
    }
  }

  lemma ExclusionAt(cfg: Config, w: World, r: Request, s: State, i: nat)
    requires Ready(r, s) && r.state == Playing && Admits(s, Compare(cfg, w, r, s).1)
    requires i < |Compare(cfg, w, r, s).0.list| && HoldsAgainst(cfg, r, Compare(cfg, w, r, s).0.list[i])
    ensures var t := Compare(cfg, w, r, s).0; IgnoredBy(t.log, |s.log|, t.list[i])
  {
    hide Compare, Ready, Yields, Clash, Aftermath, Recorded, HoldsAgainst;
    var recorded := RecordedBy(cfg, w, r, s);
    FreeIsNotDenied(cfg, w, r, s);
    var (t, answer) := Compare(cfg, w, r, s);
    var k := |t.list| - |s.list|;
    HoldersAreForeign(cfg, r, t.list[i]);
    ForeignWasThere(r, recorded, s.list, t.list, i);
    ArbitrationOutcome(cfg, w, r, s, i - k);
    NoUnwantedHolder(cfg, r, s.list[i - k], t.list[i], t.log, |s.log|);
  }

  lemma HoldersAreForeign(cfg: Config, r: Request, f: Sound)
    ensures HoldsAgainst(cfg, r, f) ==> f.pid != r.pid
  {
  }

  lemma ForeignWasThere(r: Request, recorded: bool, s: seq<Sound>, t: seq<Sound>, i: nat)
    requires Recorded(r, recorded, s, t) && i < |t| && t[i].pid != r.pid
    ensures 0 <= i - (|t| - |s|) < |s| && s[i - (|t| - |s|)].pid != r.pid
  {
    var k := |t| - |s|;
    if i >= k { assert SameIdentity(s[i - k], t[i - k + k]); }
  }

  lemma NoUnwantedHolder(cfg: Config, r: Request, e: Sound, f: Sound, log: seq<Effect>, from: nat)
    requires r.state == Playing && e.pid != r.pid && Aftermath(cfg, r, true, e, f, log, from)
    ensures HoldsAgainst(cfg, r, f) ==> IgnoredBy(log, from, f)
  {
  }

  lemma FreeIsNotDenied(cfg: Config, w: World, r: Request, s: State)
    ensures Admits(s, Compare(cfg, w, r, s).1) ==> !Denied(Compare(cfg, w, r, s).1)
  {
    hide Pass1, Pass2, Record;
  }
}
