/** The two cached status masks agree with the list after every operation. */
module AsmCache {
  import opened AsmTypes
  import opened AsmModel
  import opened AsmArbitration

  /** Both masks are the OR of the event bits over the list. */
  ghost predicate Cached(s: State) {
    s.playing == MaskOf(s.list, Playing) && s.paused == MaskOf(s.list, Paused)
  }

  /** A bit is set exactly when some sound of that event is in that state. */
  lemma {:induction false} MaskMeaning(list: seq<Sound>, status: Status)
    ensures forall e :: e in MaskOf(list, status) <==>
              exists k :: 0 <= k < |list| && list[k].event == e && list[k].state == status
  {
    if list != [] {
      var n := |list| - 1;
      var rest := list[..n];
      MaskMeaning(rest, status);
      forall e | e in MaskOf(list, status)
        ensures exists k :: 0 <= k < |list| && list[k].event == e && list[k].state == status
      {
        if e in MaskOf(rest, status) {
          var k :| 0 <= k < |rest| && rest[k].event == e && rest[k].state == status;
          assert list[k] == rest[k];
        } else {
          assert list[n].event == e && list[n].state == status;
        }
      }
      forall k | 0 <= k < |list| && list[k].state == status ensures list[k].event in MaskOf(list, status) {
        if k < n { assert rest[k] == list[k]; }
      }
    }
  }

  lemma {:induction false} MaskSame(a: seq<Sound>, b: seq<Sound>, status: Status)
    requires SameSounds(a, b)
    ensures MaskOf(a, status) == MaskOf(b, status)
  {
    if a != [] {
      var n := |a| - 1;
      assert SameSound(a[n], b[n]);
      forall k | 0 <= k < n ensures SameSound(a[..n][k], b[..n][k]) { assert SameSound(a[k], b[k]); }
      MaskSame(a[..n], b[..n], status);
    }
  }

  lemma CachedSame(a: State, b: State)
    requires Cached(a) && SameSounds(a.list, b.list) && a.playing == b.playing && a.paused == b.paused
    ensures Cached(b)
  {
    MaskSame(a.list, b.list, Playing);
    MaskSame(a.list, b.list, Paused);
  }

  lemma ChangeStateCached(s: State, pid: int, handle: int, status: Status, resource: Bits)
    requires Cached(s)
    ensures Cached(ChangeState(s, pid, handle, status, resource))
  {
    hide UpdateMonitor, WithState, MaskOf;
  }

  /** Striking a sound and then changing its state leaves the masks exact. */
  lemma StrikeCached(w: World, s: State, v: Sound, command: Command, source: Source, cause: Event,
                     flagMonitor: bool, flag: bool, status: Status, resource: Bits)
    requires Cached(s)
    ensures var t := Strike(w, s, v, command, source, cause, flagMonitor, flag).0;
            Cached(ChangeState(t, v.pid, v.handle, status, resource))
  {
    hide Strike, Cached, ChangeState;
    StrikeOutcome(w, s, v, command, source, cause, flagMonitor, flag);
    var t := Strike(w, s, v, command, source, cause, flagMonitor, flag).0;
    CachedSame(s, t);
    ChangeStateCached(t, v.pid, v.handle, status, resource);
  }

  lemma InterruptCached(cfg: Config, w: World, r: Request, s: State, v: Sound)
    requires Cached(s)
    ensures Cached(Interrupt(cfg, w, r, s, v))
  {
    hide Strike, SourceOf, ChangeState, Effective, Clash, NeedsResume, IsFmRadio, MaskOf;
    var command := if Clash(v.resource, r.resource) then CmdStop else CmdPause;
    forall status, resource, flag ensures
      && Cached(ChangeState(Strike(w, s, v, CmdStop, SourceOf(v, r, false), r.event, flag, flag).0,
                            v.pid, v.handle, status, resource))
      && Cached(ChangeState(Strike(w, s, v, command, SourceOf(v, r, true), r.event, flag, flag).0,
                            v.pid, v.handle, status, resource))
      && Cached(ChangeState(Strike(w, s, v, CmdStop, ResourceConflict, r.event, flag, false).0,
                            v.pid, v.handle, status, resource))
    {
      StrikeCached(w, s, v, CmdStop, SourceOf(v, r, false), r.event, flag, flag, status, resource);
      StrikeCached(w, s, v, command, SourceOf(v, r, true), r.event, flag, flag, status, resource);
      StrikeCached(w, s, v, CmdStop, ResourceConflict, r.event, flag, false, status, resource);
    }
  }

  lemma RecordCached(r: Request, s: State)
    requires Cached(s)
    ensures Cached(Record(r, s))
  {
    hide MaskOf, ChangeState;
    if r.kind == SetState { ChangeStateCached(s, r.pid, r.handle, r.state, r.resource); }
  }

  lemma {:induction false} Pass1Cached(cfg: Config, w: World, r: Request, c: Cursor)
    requires Cached(c.s)
    ensures Cached(Pass1(cfg, w, r, c).s)
    decreases |c.s.list| - c.i
  {
    hide Cached, Interrupt, Record, Effective;
    if c.i < |c.s.list| {
      InterruptCached(cfg, w, r, c.s, c.s.list[c.i]);
      RecordCached(r, c.s);
      RecordCached(r, Interrupt(cfg, w, r, c.s, c.s.list[c.i]));
      assert Cached(Step1(cfg, w, r, c).s);
      Step1Advances(cfg, w, r, c);
      hide Step1;
      Pass1Cached(cfg, w, r, Step1(cfg, w, r, c));
    }
  }

  lemma {:induction false} Pass2Cached(cfg: Config, w: World, r: Request, s: State, i: nat)
    requires Cached(s)
    ensures Cached(Pass2(cfg, w, r, s, i))
    decreases |s.list| - i
  {
    hide Cached, Strike, ChangeState, Yields, Clash;
    if i < |s.list| {
      StrikeCached(w, s, s.list[i], CmdStop, ResourceConflict, r.event, false, false, NoState, {});
      ChangeStateCached(s, r.pid, r.handle, r.state, r.resource);
      assert Cached(Step2(cfg, w, r, s, i));
      hide Step2;
      Pass2Cached(cfg, w, r, Step2(cfg, w, r, s, i), i + 1);
    }
  }

  lemma FirstPassCached(cfg: Config, w: World, r: Request, s: State)
    requires Cached(s)
    ensures Cached(FirstPass(cfg, w, r, s).0)
  {
    hide Pass1, MaskOf;
    var c := Cursor(s, 0, false, None);
    Pass1Cached(cfg, w, r, c);
    var x := Pass1(cfg, w, r, c);
    CachedSame(x.s, x.s.(list := CleanMonitors(x.s.list)));
  }

  lemma CompareCached(cfg: Config, w: World, r: Request, s: State)
    requires Cached(s)
    ensures Cached(Compare(cfg, w, r, s).0)
  {
    hide FirstPass, Pass2, Record, Cached;
    FirstPassCached(cfg, w, r, s);
    var s1 := FirstPass(cfg, w, r, s).0;
    Pass2Cached(cfg, w, r, s1, 0);
    RecordCached(r, s1);
    RecordCached(r, Pass2(cfg, w, r, s1, 0));
  }
}
