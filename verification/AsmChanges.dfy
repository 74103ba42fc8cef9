/** What the messages that are not arbitrated do to the list, the log and the session. */
module AsmChanges {
  import opened AsmTypes
  import opened AsmModel
  import opened AsmArbitration
  import opened AsmCache
  import opened AsmOutcome
  import opened AsmRuns
  import opened AsmLedger

  // -------------------------------------------------------------- unregistering

  /** The entries with another handle, in their order. */
  function WithoutHandle(list: seq<Sound>, handle: int): seq<Sound> {
    if list == [] then []
    else (if list[0].handle != handle then [list[0]] else []) + WithoutHandle(list[1..], handle)
  }

  lemma {:induction false} WithoutHandleMembers(list: seq<Sound>, handle: int)
    ensures forall x :: x in WithoutHandle(list, handle) <==> x in list && x.handle != handle
  {
    if list != [] {
      WithoutHandleMembers(list[1..], handle);
      assert list == [list[0]] + list[1..];
    }
  }

  lemma WithoutHandleFront(e: Sound, rest: seq<Sound>, handle: int)
    ensures WithoutHandle([e] + rest, handle) == (if e.handle != handle then [e] else []) + WithoutHandle(rest, handle)
  {
    assert ([e] + rest)[1..] == rest;
  }

  lemma NoneWithout(handle: int)
    ensures WithoutHandle([], handle) == []
  {
  }

  lemma {:induction false} WithoutHandleAppend(a: seq<Sound>, b: seq<Sound>, handle: int)
    ensures WithoutHandle(a + b, handle) == WithoutHandle(a, handle) + WithoutHandle(b, handle)
  {
    hide WithoutHandle;
    NoneWithout(handle);
    if a == [] {
      assert a + b == b && [] + WithoutHandle(b, handle) == WithoutHandle(b, handle);
    } else {
      WithoutHandleAppend(a[1..], b, handle);
      WithoutHandleFront(a[0], a[1..], handle);
      WithoutHandleFront(a[0], a[1..] + b, handle);
      assert a == [a[0]] + a[1..] && a + b == [a[0]] + (a[1..] + b);
    }
  }

  lemma {:induction false} NobodyRemoved(list: seq<Sound>, handle: int)
    requires forall k :: 0 <= k < |list| ==> list[k].handle != handle
    ensures WithoutHandle(list, handle) == list
  {
    if list != [] { NobodyRemoved(list[1..], handle); }
  }

  lemma OneRemoved(a: seq<Sound>, e: Sound, b: seq<Sound>, handle: int)
    requires e.handle == handle && forall k :: 0 <= k < |a| ==> a[k].handle != handle
    requires forall k :: 0 <= k < |b| ==> b[k].handle != handle
    ensures WithoutHandle(a + ([e] + b), handle) == a + b
  {
    hide WithoutHandle;
    NobodyRemoved(a, handle);
    NobodyRemoved(b, handle);
    WithoutHandleFront(e, b, handle);
    WithoutHandleAppend(a, [e] + b, handle);
    assert [] + b == b;
  }

  /** Handles are distinct, so taking out the first entry with this one takes out all. */
  lemma RemovedIsWithout(list: seq<Sound>, handle: int)
    requires Unique(list)
    ensures var k := HandleIndex(list, handle);
            (if k < |list| then list[..k] + list[k + 1..] else list) == WithoutHandle(list, handle)
  {
    var k := HandleIndex(list, handle);
    hide HandleIndex, WithoutHandle;
    if k < |list| {
      var a, b := list[..k], list[k + 1..];
      forall l | 0 <= l < |b| ensures b[l].handle != handle { assert b[l] == list[k + 1 + l]; }
      OneRemoved(a, list[k], b, handle);
      assert list == a + ([list[k]] + b);
    } else {
      NobodyRemoved(list, handle);
    }
  }

  lemma UnregisterRemoves(s: State, handle: int)
    requires Unique(s.list)
    ensures var t := Unregister(s, handle);
            t.list == WithoutHandle(s.list, handle) && t.log == s.log && t.session == s.session
  {
    RemovedIsWithout(s.list, handle);
    hide MaskOf, HandleIndex, WithoutHandle, Unique;
  }

  /** The session that the end of a call or an alarm ends. */
  function EndedSession(event: Event): Session
    requires NeedsResume(event)
  {
    match event
    case VideoCall => Voip
    case Alarm => Notification
    case _ => VoiceCall
  }

  /** Unregistering, for every event: the entry with that handle is gone, every other is
      there in its order and state, and the masks agree with what is left. Unless a call or
      an alarm ends nothing else happens; if one does, its session ends as well. */
  lemma UnregisterExactly(cfg: Config, w: World, s: State, handle: int, event: Event)
    requires Inv(cfg, s)
    ensures var t := Process(cfg, w, s, MsgUnregister(handle, event)).0;
            && SameSounds(WithoutHandle(s.list, handle), t.list) && !Taken(t.list, handle) && Cached(t)
            && (!NeedsResume(event) ==> t.list == WithoutHandle(s.list, handle) && t.log == s.log && t.session == s.session)
            && (NeedsResume(event) ==>
                  && t.session == Media
                  && s.log + [SessionSet(EndedSession(event), false)] <= t.log)
  {
    var t := OnUnregister(w, s, handle, event);
    ProcessInv(cfg, w, s, MsgUnregister(handle, event));
    assert Process(cfg, w, s, MsgUnregister(handle, event)).0 == t;
    UnregisterRemoves(s, handle);
    WithoutHandleMembers(s.list, handle);
    hide Process, OnUnregister, Unregister, Unique, InRange, WithoutHandle, Cached, NeedsResume, SameSounds, Taken;
    if NeedsResume(event) { EndUnregisters(w, s, handle, event); } else { OtherUnregisters(w, s, handle, event); }
    NotTakenSame(Unregister(s, handle).list, t.list, handle);
  }

  lemma OtherUnregisters(w: World, s: State, handle: int, event: Event)
    requires !NeedsResume(event)
    ensures var t := OnUnregister(w, s, handle, event);
            t == Unregister(s, handle) && SameSounds(Unregister(s, handle).list, t.list)
  {
    hide Unregister;
  }

  lemma EndUnregisters(w: World, s: State, handle: int, event: Event)
    requires NeedsResume(event)
    ensures var t := OnUnregister(w, s, handle, event);
            && SameSounds(Unregister(s, handle).list, t.list) && t.session == Media
            && Unregister(s, handle).log + [SessionSet(EndedSession(event), false)] <= t.log
  {
    var s2 := SetSession(Unregister(s, handle), EndedSession(event), false);
    var source := if event == Alarm then AlarmEnd else CallEnd;
    ResumeAllKeeps(w, s2, 0, source, event);
    ResumeAllSession(w, s2, 0, source, event);
    hide Unregister, ResumeAll, SameSounds;
  }

  lemma NotTakenSame(a: seq<Sound>, b: seq<Sound>, handle: int)
    requires SameSounds(a, b) && forall x :: x in a ==> x.handle != handle
    ensures !Taken(b, handle)
  {
    forall k | 0 <= k < |b| ensures b[k].handle != handle {
      assert SameSound(a[k], b[k]) && a[k] in a;
    }
  }

  lemma {:induction false} ResumeAllSession(w: World, s: State, i: nat, source: Source, cause: Event)
    ensures var t := ResumeAll(w, s, i, source, cause); t.session == s.session && s.log <= t.log
    decreases |s.list| - i
  {
    if i < |s.list| {
      if s.list[i].resume {
        var v := s.list[i];
        var s1 := Ring(w, s, v.pid, v.handle, CmdResume, source, Worker, cause);
        ResumeAllSession(w, s1.(list := s1.list[i := v.(resume := false)]), i + 1, source, cause);
      } else {
        ResumeAllSession(w, s, i + 1, source, cause);
      }
    }
  }

  // --------------------------------------------------------- changes of state

  /** The requester's entry is in the state and with the resources it asked for, and every
      other entry is as it was; flags stay. */
  ghost predicate OwnChanged(r: Request, a: seq<Sound>, b: seq<Sound>) {
    && SameFlags(a, b)
    && forall j :: 0 <= j < |a| ==>
         SameSound(if IsOwn(a[j], r) && r.state != Ignored then a[j].(state := r.state, resource := r.resource)
                   else a[j], b[j])
  }

  lemma ChangeExactly(s: State, r: Request)
    requires Unique(s.list) && Cached(s)
    ensures var t := ChangeState(s, r.pid, r.handle, r.state, r.resource);
            OwnChanged(r, s.list, t.list) && Cached(t) && t.log == s.log && t.session == s.session
  {
    ChangeStateFlags(s, r.pid, r.handle, r.state, r.resource);
    ChangeStateCached(s, r.pid, r.handle, r.state, r.resource);
    var t := ChangeState(s, r.pid, r.handle, r.state, r.resource);
    hide ChangeState, Cached, Unique;
    forall j | 0 <= j < |s.list|
      ensures SameSound(if IsOwn(s.list[j], r) && r.state != Ignored
                        then s.list[j].(state := r.state, resource := r.resource) else s.list[j], t.list[j])
    {
      ChangedAt(s, r, j);
    }
  }

  lemma ChangedAt(s: State, r: Request, j: nat)
    requires Unique(s.list) && j < |s.list|
    ensures var t := ChangeState(s, r.pid, r.handle, r.state, r.resource);
            && |t.list| == |s.list|
            && SameSound(if IsOwn(s.list[j], r) && r.state != Ignored
                         then s.list[j].(state := r.state, resource := r.resource) else s.list[j], t.list[j])
  {
    hide ChangeState;
    var k := IndexOf(s.list, r.pid, r.handle);
    hide IndexOf;
  }

  /** The message changes a state without arbitration: any state but PLAYING, or PLAYING for
      a sound that plays. */
  predicate ChangesOnly(w: World, s: State, m: Message) {
    m.MsgSetState? && (m.state == Playing ==> IsPlayingNow(Survivors(s.list, w), m.pid, m.handle))
  }

  /** Such a message changes that one entry among those of living processes, calls nobody
      back, and ends the radio's session when a radio in it stops. */
  lemma StateChangeExactly(cfg: Config, w: World, s: State, m: Message)
    requires Inv(cfg, s) && ChangesOnly(w, s, m)
    ensures var t := Process(cfg, w, s, m).0;
            var ends := m.state == Stopped && IsFmRadio(m.event) && s.session == FmRadio;
            && OwnChanged(Request(SetState, m.pid, m.handle, m.event, m.state, m.resource), Survivors(s.list, w), t.list)
            && Cached(t)
            && t.session == (if ends then Media else s.session)
            && t.log == s.log + if ends then [SessionSet(FmRadio, false)] else []
  {
    DeadProcessInv(cfg, w, s);
    var s1 := CheckDeadProcess(s, w);
    var r := Request(SetState, m.pid, m.handle, m.event, m.state, m.resource);
    ChangeExactly(s1, r);
    SessionCached(ChangeState(s1, r.pid, r.handle, r.state, r.resource), FmRadio, false);
    hide Survivors, ChangeState, Compare, MaskOf, IsPlayingNow, OwnChanged, Cached, Unique, InRange;
  }

  lemma SessionCached(s: State, session: Session, start: bool)
    ensures Cached(s) ==> Cached(SetSession(s, session, start))
  {
  }

  /** A change of state tells the first monitor of the process whether another of its sounds
      plays now; a change to IGNORE tells it nothing. */
  lemma MonitorTellsActivity(s: State, pid: int, handle: int, status: Status, resource: Bits)
    ensures var t := ChangeState(s, pid, handle, status, resource).list;
            var m := MonitorOf(t, pid);
            && (status == Ignored ==> t == s.list)
            && (status != Ignored && m < |t| ==>
                  (t[m].monitorActive <==>
                     exists k :: 0 <= k < |t| && t[k].pid == pid && t[k].event != Monitor && t[k].state == Playing))
  {
    hide IndexOf, MaskOf;
    if status != Ignored {
      var list := WithState(s.list, pid, handle, status, resource);
      MonitorUpdated(list, pid);
      hide MonitorOf, UpdateMonitor;
    }
  }

  lemma MonitorUpdated(list: seq<Sound>, pid: int)
    ensures var t := UpdateMonitor(list, pid);
            var m := MonitorOf(t, pid);
            && (HasActiveSound(t, pid) <==> HasActiveSound(list, pid))
            && (m < |t| ==> (t[m].monitorActive <==> HasActiveSound(list, pid)))
  {
    var t := UpdateMonitor(list, pid);
    assert SameSounds(list, t);
    assert MonitorOf(t, pid) == MonitorOf(list, pid) by { MonitorStays(list, t, pid); }
    assert forall k :: 0 <= k < |list| ==> SameSound(list[k], t[k]);
    hide MonitorOf;
  }

  lemma MonitorStays(a: seq<Sound>, b: seq<Sound>, pid: int)
    requires SameSounds(a, b)
    ensures MonitorOf(a, pid) == MonitorOf(b, pid)
  {
    var m, n := MonitorOf(a, pid), MonitorOf(b, pid);
    hide MonitorOf;
    if m < |a| { assert SameSound(a[m], b[m]); }
    if n < |b| { assert SameSound(a[n], b[n]); }
  }

  // ----------------------------------------------------------- the other messages

  lemma {:induction false} NobodyLeaves(list: seq<Sound>, pid: int)
    ensures |WithoutPid(list, pid)| <= |list|
    ensures |WithoutPid(list, pid)| == |list| ==> WithoutPid(list, pid) == list
  {
    if list != [] {
      NobodyLeaves(list[1..], pid);
      assert list == [list[0]] + list[1..];
    }
  }

  /** An emergent exit takes out the entries of that process and does nothing else; asking
      for a state changes nothing, but for the state of a process it also purges the list,
      as does a registration that finds it full. */
  lemma QuietExactly(cfg: Config, w: World, s: State, m: Message)
    requires Inv(cfg, s) && (m.MsgEmergentExit? || m.MsgGetState? || m.MsgGetMyState? || m.MsgDump?
                             || (m.MsgRegister? && Process(cfg, w, s, m).1 == NoHandle))
    ensures var t := Process(cfg, w, s, m).0;
            && t.list == (match m
                          case MsgEmergentExit(pid) => WithoutPid(s.list, pid)
                          case MsgGetMyState(_) => Survivors(s.list, w)
                          case MsgRegister(_, _, _, _) => Survivors(s.list, w)
                          case _ => s.list)
            && Cached(t) && t.log == s.log && t.session == s.session
  {
    if m.MsgEmergentExit? { NobodyLeaves(s.list, m.pid); }
    hide WithoutPid, Survivors, MaskOf, Unique, InRange, LeastFree, Compare, ProcessStatus, HandleIndex;
  }
}
