/** Which session is in force: the last one that was set, and exactly which messages set it. */
module AsmSessions {
  import opened AsmTypes
  import opened AsmModel
  import opened AsmArbitration
  import opened AsmCache
  import opened AsmOutcome
  import opened AsmReach
  import AsmResume
  import opened AsmRuns
  import opened AsmPersistence

  /** The session by what was set so far: the last one started, or the media session after
      one ended, or from the start. */
  function SessionOf(log: seq<Effect>): Session {
    if log == [] then Media
    else
      match log[|log| - 1]
      case SessionSet(session, start) => if start then session else Media
      case _ => SessionOf(log[..|log| - 1])
  }

  /** If the session agreed with the log before, it still does. */
  ghost predicate Tracks(s: State, t: State) {
    s.session == SessionOf(s.log) ==> t.session == SessionOf(t.log)
  }

  lemma SessionAfter(log: seq<Effect>, x: Effect)
    ensures SessionOf(log + [x]) ==
              if x.SessionSet? then (if x.start then x.session else Media) else SessionOf(log)
  {
    assert (log + [x])[..|log|] == log;
  }

  lemma StrikeTracks(w: World, s: State, v: Sound, command: Command, source: Source, cause: Event,
                     flagMonitor: bool, flag: bool)
    ensures var t := Strike(w, s, v, command, source, cause, flagMonitor, flag).0;
            t.session == s.session && SessionOf(t.log) == SessionOf(s.log)
  {
    hide SetResume, MarkDirty, MonitorOf, SessionOf;
    var s1 := StopMonitor(w, s, v.pid, source, cause, flagMonitor);
    if s1.log != s.log {
      assert s1.log == s.log + [s1.log[|s.log|]] && s1.log[|s.log|].Callback?;
      SessionAfter(s.log, s1.log[|s.log|]);
    }
    SessionAfter(s1.log, Callback(v.pid, v.handle, command, source, Worker, cause, ReplyTo(w, |s1.log|, command)));
  }

  lemma SetTracks(s: State, session: Session, start: bool)
    ensures var t := SetSession(s, session, start);
            && t.session == SessionOf(t.log) == (if start then session else Media)
            && t.log == s.log + [SessionSet(session, start)]
  {
    SessionAfter(s.log, SessionSet(session, start));
    hide SessionOf;
  }

  // --------------------------------------------------- radios that are stopped

  /** The policy stops a radio that plays; the source ends the radio's session then. */
  predicate StopsRadio(cfg: Config, r: Request, e: Sound) {
    Struck(cfg, r, e) && IsFmRadio(e.event) && Effective(cfg, e.event, r.event) == Stop1Play2
  }

  ghost predicate RadioStops(cfg: Config, r: Request, list: seq<Sound>, i: nat) {
    exists l: nat :: l < |list| && Reached(cfg, r, list, i, l) && StopsRadio(cfg, r, list[l])
  }

  lemma RadioNext(cfg: Config, r: Request, list: seq<Sound>, i: nat)
    requires i < |list|
    ensures RadioStops(cfg, r, list, i) <==>
              StopsRadio(cfg, r, list[i]) || (!Denies(cfg, r, list[i]) && RadioStops(cfg, r, list, i + 1))
  {
    hide Denies, StopsRadio, Reached;
    forall j: nat ensures Reached(cfg, r, list, i, j) <==>
                       j == i || (!Denies(cfg, r, list[i]) && Reached(cfg, r, list, i + 1, j))
    {
      ReachedNext(cfg, r, list, i, j);
    }
    assert Reached(cfg, r, list, i, i);
    if RadioStops(cfg, r, list, i) {
      var l: nat :| l < |list| && Reached(cfg, r, list, i, l) && StopsRadio(cfg, r, list[l]);
      assert l == i || Reached(cfg, r, list, i + 1, l);
    }
    if !Denies(cfg, r, list[i]) && RadioStops(cfg, r, list, i + 1) {
      var l: nat :| l < |list| && Reached(cfg, r, list, i + 1, l) && StopsRadio(cfg, r, list[l]);
      assert Reached(cfg, r, list, i, l);
    }
  }

  lemma RadioSame(cfg: Config, r: Request, e: Sound, f: Sound)
    requires SameForeign(r, e, f)
    ensures StopsRadio(cfg, r, e) <==> StopsRadio(cfg, r, f)
  {
    SameVerdict(cfg, r, e, f);
    hide Struck, Effective;
  }

  lemma RadioBehind(cfg: Config, r: Request, a: seq<Sound>, i: nat, b: seq<Sound>, k: nat)
    requires SameBehind(r, a, i, b, k)
    ensures RadioStops(cfg, r, a, i) <==> RadioStops(cfg, r, b, i + k)
  {
    hide Denies, StopsRadio, Reached, SameForeign;
    if RadioStops(cfg, r, a, i) {
      var l: nat :| l < |a| && Reached(cfg, r, a, i, l) && StopsRadio(cfg, r, a[l]);
      ReachedBounds(cfg, r, a, i, l);
      ReachedBehind(cfg, r, a, i, b, k, l);
      RadioSame(cfg, r, a[l], b[l + k]);
    }
    if RadioStops(cfg, r, b, i + k) {
      var l: nat :| l < |b| && Reached(cfg, r, b, i + k, l) && StopsRadio(cfg, r, b[l]);
      ReachedBounds(cfg, r, b, i + k, l);
      assert k <= l;
      ReachedBehind(cfg, r, a, i, b, k, l - k);
      RadioSame(cfg, r, a[l - k], b[l]);
    }
  }

  /** The session once the radio may have been stopped. */
  function Without(session: Session, stopped: bool): Session {
    if session == FmRadio && stopped then Media else session
  }

  /** The log still tells the session, and `stopped` tells how it changed. */
  ghost predicate Moves(s: State, t: State, stopped: bool) {
    t.session == Without(s.session, stopped) && Tracks(s, t)
  }

  lemma MovesOn(s: State, t: State, u: State, a: bool, b: bool)
    requires Moves(s, t, a) && Moves(t, u, b)
    ensures Moves(s, u, a || b)
  {
    hide SessionOf;
  }

  lemma StopVictimSession(w: World, r: Request, s: State, v: Sound)
    ensures Moves(s, StopVictim(w, r, s, v), IsFmRadio(v.event))
  {
    hide Strike, SourceOf, ChangeState, NeedsResume, IsFmRadio, SessionOf, SetSession;
    var flag := NeedsResume(r.event);
    StrikeTracks(w, s, v, CmdStop, SourceOf(v, r, false), r.event, flag, flag);
    var (s1, reply) := Strike(w, s, v, CmdStop, SourceOf(v, r, false), r.event, flag, flag);
    SetTracks(ChangeState(s1, v.pid, v.handle, if reply == ResStop then Stopped else NoState, {}), FmRadio, false);
  }

  lemma OtherVictimSession(w: World, r: Request, s: State, v: Sound)
    ensures Moves(s, PauseVictim(w, r, s, v), false) && Moves(s, MixVictim(w, r, s, v), false)
  {
    hide Strike, SourceOf, ChangeState, NeedsResume, Clash, SessionOf;
    var flag := NeedsResume(r.event);
    var command := if Clash(v.resource, r.resource) then CmdStop else CmdPause;
    StrikeTracks(w, s, v, command, SourceOf(v, r, true), r.event, flag, flag);
    StrikeTracks(w, s, v, CmdStop, ResourceConflict, r.event, flag, false);
  }

  lemma InterruptSession(cfg: Config, w: World, r: Request, s: State, v: Sound)
    requires v.state == Playing && r.state == Playing
    ensures Moves(s, Interrupt(cfg, w, r, s, v), StopsRadio(cfg, r, v))
  {
    StopVictimSession(w, r, s, v);
    OtherVictimSession(w, r, s, v);
    hide StopVictim, PauseVictim, MixVictim, SessionOf, Clash, Effective, IsFmRadio;
  }

  lemma RecordSession(r: Request, s: State)
    ensures Moves(s, Record(r, s), false)
  {
    SessionAfter(s.log, Admitted(r.pid, r.handle));
    hide SessionOf, ChangeState, MaskOf;
  }

  lemma AdmitSession(r: Request, c: Cursor, s: State, command: Command)
    requires |s.list| == |c.s.list|
    ensures Moves(s, Admit(r, c.(s := s), command).s, false)
  {
    SameMoves(s);
    RecordSession(r, s);
    hide Record, Moves;
  }

  lemma NotStruckNoRadio(cfg: Config, r: Request, e: Sound)
    ensures !Struck(cfg, r, e) ==> !StopsRadio(cfg, r, e)
  {
    hide Struck;
  }

  lemma Step1Session(cfg: Config, w: World, r: Request, c: Cursor)
    requires c.i < |c.s.list|
    ensures Moves(c.s, Step1(cfg, w, r, c).s, StopsRadio(cfg, r, c.s.list[c.i]))
  {
    hide Interrupt, Admit, Step1, Moves, StopsRadio, Struck;
    var v := c.s.list[c.i];
    var d := Step1(cfg, w, r, c);
    AsmResume.Step1Parts(cfg, w, r, c);
    if v.state == Playing && r.state == Playing && d == Admit(r, c.(s := Interrupt(cfg, w, r, c.s, v)), CmdPlay) {
      var t := Interrupt(cfg, w, r, c.s, v);
      InterruptSession(cfg, w, r, c.s, v);
      AdmitSession(r, c, t, CmdPlay);
      MovesOn(c.s, t, d.s, StopsRadio(cfg, r, v), false);
    } else {
      NotStruckNoRadio(cfg, r, v);
      SameMoves(c.s);
      AdmitSession(r, c, c.s, CmdNone);
    }
  }

  lemma SameMoves(s: State)
    ensures Moves(s, s, false)
  {
    hide SessionOf;
  }

  lemma {:induction false} Pass1Session(cfg: Config, w: World, r: Request, c: Cursor)
    requires Unique(c.s.list) && FreshHandle(r, c) && c.i <= |c.s.list| && !Denied(c.answer)
    ensures Moves(c.s, Pass1(cfg, w, r, c).s, RadioStops(cfg, r, c.s.list, c.i))
    decreases |c.s.list| - c.i
  {
    hide Step1, Denies, Unique, FreshHandle, Moved, SameBehind, RadioStops, StopsRadio, Moves;
    if c.i < |c.s.list| {
      var d := Step1(cfg, w, r, c);
      Step1Moves(cfg, w, r, c);
      MovedUnique(cfg, r, c, d);
      MovedBasics(cfg, r, c, d);
      Step1Session(cfg, w, r, c);
      Step1Advances(cfg, w, r, c);
      Step1Denial(cfg, w, r, c);
      RadioNext(cfg, r, c.s.list, c.i);
      if Denied(d.answer) {
        DeniedStep(cfg, w, r, c);
      } else {
        StepLeavesRest(cfg, w, r, c);
        RadioBehind(cfg, r, c.s.list, c.i + 1, d.s.list, Shift(r, c, d));
        Pass1Session(cfg, w, r, d);
        MovesOn(c.s, d.s, Pass1(cfg, w, r, d).s, StopsRadio(cfg, r, c.s.list[c.i]), RadioStops(cfg, r, d.s.list, d.i));
      }
    } else {
      NoRadioLeft(cfg, r, c.s.list, c.i);
      SameMoves(c.s);
    }
  }

  lemma NoRadioLeft(cfg: Config, r: Request, list: seq<Sound>, i: nat)
    requires i >= |list|
    ensures !RadioStops(cfg, r, list, i)
  {
    hide StopsRadio;
  }

  lemma Step2Session(cfg: Config, w: World, r: Request, s: State, i: nat)
    requires i < |s.list|
    ensures Moves(s, Step2(cfg, w, r, s, i), false)
  {
    StrikeTracks(w, s, s.list[i], CmdStop, ResourceConflict, r.event, false, false);
    hide Strike, ChangeState, Yields, Clash, SessionOf;
  }

  lemma {:induction false} Pass2Session(cfg: Config, w: World, r: Request, s: State, i: nat)
    ensures Moves(s, Pass2(cfg, w, r, s, i), false)
    decreases |s.list| - i
  {
    hide Step2, Moves;
    if i < |s.list| {
      var t := Step2(cfg, w, r, s, i);
      Step2Session(cfg, w, r, s, i);
      Pass2Session(cfg, w, r, t, i + 1);
      MovesOn(s, t, Pass2(cfg, w, r, t, i + 1), false, false);
    } else {
      SameMoves(s);
    }
  }

  lemma FirstPassSession(cfg: Config, w: World, r: Request, s: State)
    requires Ready(r, s)
    ensures Moves(s, FirstPass(cfg, w, r, s).0, RadioStops(cfg, r, s.list, 0))
  {
    if s.playing == {} {
      NobodyPlays(s);
      NobodyStops(cfg, r, s.list);
      hide SessionOf, RadioStops;
    } else {
      Pass1Session(cfg, w, r, Start(s));
      hide Pass1, SessionOf, RadioStops, Unique, Cached;
    }
  }

  lemma NobodyStops(cfg: Config, r: Request, list: seq<Sound>)
    requires forall l :: 0 <= l < |list| ==> list[l].state != Playing
    ensures !RadioStops(cfg, r, list, 0)
  {
    hide Reached, Effective, Clash;
  }

  /** Arbitration changes the session only by stopping a radio during the radio's session. */
  lemma CompareSession(cfg: Config, w: World, r: Request, s: State)
    requires Ready(r, s)
    ensures Moves(s, Compare(cfg, w, r, s).0, RadioStops(cfg, r, s.list, 0))
  {
    hide FirstPass, Pass2, Record, Moves, RadioStops, Ready;
    var stops := RadioStops(cfg, r, s.list, 0);
    var s1, s2 := FirstPass(cfg, w, r, s).0, TwoPasses(cfg, w, r, s).0;
    FirstPassSession(cfg, w, r, s);
    Pass2Session(cfg, w, r, s1, 0);
    MovesOn(s, s1, Pass2(cfg, w, r, s1, 0), stops, false);
    CompareIsTwoPasses(cfg, w, r, s);
    RecordSession(r, s2);
    assert Moves(s, s2, stops);
    MovesOn(s, s2, Record(r, s2), stops, false);
  }

  // --------------------------------------------------------------- messages

  /** The session that an arbitrated message leaves: a call takes over as soon as it is
      registered, whatever the answer; an alarm and a radio when they play and are not
      denied. */
  function Started(m: Message, answer: Answer, session: Session): Session {
    match m
    case MsgRegister(_, event, _, _) =>
      if event == Call || event == RichCall then VoiceCall else if event == VideoCall then Voip else session
    case MsgSetState(_, _, event, _, _) =>
      if answer.Decided? && Denied(answer.decision) then session
      else if event == Alarm then Notification
      else if IsFmRadio(event) then FmRadio
      else session
    case _ => session
  }

  /** The session is set once: always for a call, and otherwise only if it is not on yet. */
  function Announced(m: Message, session: Session, after: Session): seq<Effect> {
    if (m.MsgRegister? && m.event in {Call, RichCall, VideoCall}) || after != session
    then [SessionSet(after, true)] else []
  }

  lemma StartMoves(s: State, event: Event)
    ensures var t := StartSession(s, event);
            && Tracks(s, t)
            && t.session == (if event == Alarm then Notification else if IsFmRadio(event) then FmRadio else s.session)
            && t.log == s.log + if t.session != s.session then [SessionSet(t.session, true)] else []
  {
    SetTracks(s, Notification, true);
    SetTracks(s, FmRadio, true);
    hide SessionOf, SetSession;
  }

  /** A message that is arbitrated: how the session comes out of it, told from the list. */
  lemma ArbitratedSession(cfg: Config, w: World, s: State, m: Message)
    requires Inv(cfg, s) && Arbitrated(cfg, w, s, m)
    ensures var (t, answer) := Process(cfg, w, s, m);
            var stops := RadioStops(cfg, RequestOf(cfg, w, s, m), Survivors(s.list, w), 0);
            && Tracks(s, t) && t.session == Started(m, answer, Without(s.session, stops))
            && t.log == Compare(cfg, w, RequestOf(cfg, w, s, m), CheckDeadProcess(s, w)).0.log
                        + Announced(m, Without(s.session, stops), t.session)
  {
    hide Survivors, LeastFree, Compare, RadioStops, SessionOf, Inv, Ready, Taken, Process, IsPlayingNow, Denied, Started;
    ArbitratedIsReady(cfg, w, s, m);
    var s1, r := CheckDeadProcess(s, w), RequestOf(cfg, w, s, m);
    CompareSession(cfg, w, r, s1);
    AlwaysAnswers(cfg, w, r, s1);
    ThreeAnswers(cfg, w, r, s1);
    var u := Compare(cfg, w, r, s1).0;
    PurgeSession(s, w);
    SessionStarts(cfg, w, s, m, s1, u);
    hide CheckDeadProcess;
  }

  lemma PurgeSession(s: State, w: World)
    ensures CheckDeadProcess(s, w).session == s.session && CheckDeadProcess(s, w).log == s.log
  {
    hide Survivors, MaskOf;
  }

  lemma SessionStarts(cfg: Config, w: World, s: State, m: Message, s1: State, u: State)
    requires Arbitrated(cfg, w, s, m) && s1 == CheckDeadProcess(s, w)
    requires u == Compare(cfg, w, RequestOf(cfg, w, s, m), s1).0 && Compare(cfg, w, RequestOf(cfg, w, s, m), s1).1.Some?
    requires Compare(cfg, w, RequestOf(cfg, w, s, m), s1).1.value.command in {CmdNone, CmdPlay, CmdStop}
    ensures var (t, answer) := Process(cfg, w, s, m);
            && Tracks(u, t) && t.session == Started(m, answer, u.session)
            && t.log == u.log + Announced(m, u.session, t.session)
  {
    SetTracks(u, VoiceCall, true);
    SetTracks(u, Voip, true);
    StartMoves(u, m.event);
    hide Survivors, LeastFree, Compare, MaskOf, IsPlayingNow, SessionOf, SetSession, StartSession;
  }

  lemma ThreeAnswers(cfg: Config, w: World, r: Request, s: State)
    requires Compare(cfg, w, r, s).1.Some?
    ensures Compare(cfg, w, r, s).1.value.command in {CmdNone, CmdPlay, CmdStop}
  {
    if s.playing != {} { Pass1Commands(cfg, w, r, Start(s)); }
    hide Pass1, Pass2, Record;
  }

  lemma {:induction false} Pass1Commands(cfg: Config, w: World, r: Request, c: Cursor)
    requires c.answer.Some? ==> c.answer.value.command in {CmdNone, CmdPlay, CmdStop}
    ensures var x := Pass1(cfg, w, r, c).answer; x.Some? ==> x.value.command in {CmdNone, CmdPlay, CmdStop}
    decreases |c.s.list| - c.i
  {
    hide Interrupt, Record, Effective;
    if c.i < |c.s.list| {
      Step1Advances(cfg, w, r, c);
      Pass1Commands(cfg, w, r, Step1(cfg, w, r, c));
    }
  }

  lemma {:induction false} ResumeAllTracks(w: World, s: State, i: nat, source: Source, cause: Event)
    ensures var t := ResumeAll(w, s, i, source, cause);
            t.session == s.session && SessionOf(t.log) == SessionOf(s.log)
    decreases |s.list| - i
  {
    hide SessionOf;
    if i < |s.list| {
      if s.list[i].resume {
        var v := s.list[i];
        var s1 := Ring(w, s, v.pid, v.handle, CmdResume, source, Worker, cause);
        SessionAfter(s.log, s1.log[|s.log|]);
        ResumeAllTracks(w, s1.(list := s1.list[i := v.(resume := false)]), i + 1, source, cause);
      } else {
        ResumeAllTracks(w, s, i + 1, source, cause);
      }
    }
  }

  lemma EndTracks(w: World, s: State, handle: int, event: Event)
    ensures Tracks(s, OnUnregister(w, s, handle, event))
  {
    var s1 := Unregister(s, handle);
    UnregisterLog(s, handle);
    var session := if event == VideoCall then Voip else if event == Alarm then Notification else VoiceCall;
    SetTracks(s1, session, false);
    ResumeAllTracks(w, SetSession(s1, session, false), 0, if event == Alarm then AlarmEnd else CallEnd, event);
    hide SessionOf, ResumeAll, SetSession;
    assert s1.session == s.session by { hide MaskOf, HandleIndex; }
    hide Unregister;
  }

  lemma UnregisterLog(s: State, handle: int)
    ensures Unregister(s, handle).log == s.log
  {
    hide MaskOf;
  }

  lemma QuietTracks(cfg: Config, w: World, s: State, m: Message)
    requires !Arbitrated(cfg, w, s, m)
    ensures Tracks(s, Process(cfg, w, s, m).0)
  {
    match m {
      case MsgUnregister(handle, event) =>
        EndTracks(w, s, handle, event);
        hide OnUnregister, SessionOf;
      case MsgSetState(pid, handle, event, status, resource) =>
        SetTracks(ChangeState(CheckDeadProcess(s, w), pid, handle, status, resource), FmRadio, false);
        hide SessionOf, Survivors, ChangeState, MaskOf, IsPlayingNow, Compare, SetSession;
      case _ =>
        hide SessionOf, Survivors, MaskOf, LeastFree, Compare, WithoutPid;
    }
  }

  /** On every run the session in force is the one that was set last. */
  lemma {:induction false} SessionIsLastSet(cfg: Config, run: seq<(Message, World)>)
    ensures var s := Run(cfg, run); s.session == SessionOf(s.log)
  {
    hide Process, Inv, Arbitrated, Started;
    if run != [] {
      var k := |run| - 1;
      var s := Run(cfg, run[..k]);
      SessionIsLastSet(cfg, run[..k]);
      RunInv(cfg, run[..k]);
      if Arbitrated(cfg, run[k].1, s, run[k].0) {
        ArbitratedSession(cfg, run[k].1, s, run[k].0);
      } else {
        QuietTracks(cfg, run[k].1, s, run[k].0);
      }
      hide SessionOf;
    }
  }
}
