/** The clients that asked to be told: one callback per process, kept in a list that is
    edited in place, and who gets which notice. */
module DeviceClients {
  import opened DeviceModel
  import opened DeviceRoutes

  /** A callback as the client knows it; 0 stands for none. */
  datatype Param = Param(pid: int, callback: int, data: int)

  /** The first entry of a process, or the end of the list. */
  function Position(params: seq<Param>, pid: int): (k: nat)
    ensures k <= |params| && (k < |params| ==> params[k].pid == pid)
    ensures forall j :: 0 <= j < k ==> params[j].pid != pid
  {
    if params == [] || params[0].pid == pid then 0 else 1 + Position(params[1..], pid)
  }

  function Added(params: seq<Param>, p: Param): seq<Param> {
    var k := Position(params, p.pid);
    if k < |params| then params[k := params[k].(callback := p.callback, data := p.data)] else params + [p]
  }

  function Removed(params: seq<Param>, pid: int): seq<Param> {
    var k := Position(params, pid);
    if k < |params| then params[..k] + params[k + 1..] else params
  }

  /** Those with a callback, in the order of the list. */
  function Recipients(params: seq<Param>): seq<Param> {
    if params == [] then []
    else
      var n := |params| - 1;
      Recipients(params[..n]) + if params[n].callback != 0 then [params[n]] else []
  }

  ghost predicate Distinct(params: seq<Param>) {
    forall j, k :: 0 <= j < k < |params| ==> params[j].pid != params[k].pid
  }

  predicate Subscribed(params: seq<Param>, p: Param) {
    exists k :: 0 <= k < |params| && params[k] == p
  }

  // -------------------------------------------------------------- the registry

  class Registry {
    var params: seq<Param>

    constructor ()
      ensures params == []
    {
      params := [];
    }

    /** Replaces the callback of a process that has one, or appends the newcomer. */
    method Add(p: Param)
      modifies this
      ensures params == Added(old(params), p)
    {
      var k := 0;
      assert params[0..] == params;
      while k < |params|
        invariant 0 <= k <= |params| && params == old(params)
        invariant Position(params, p.pid) == k + Position(params[k..], p.pid)
      {
        assert params[k..][1..] == params[k + 1..];
        if params[k].pid == p.pid {
          params := params[k := params[k].(callback := p.callback, data := p.data)];
          return;
        }
        k := k + 1;
      }
      params := params + [p];
    }

    method Remove(pid: int)
      modifies this
      ensures params == Removed(old(params), pid)
    {
      var k := 0;
      assert params[0..] == params;
      while k < |params|
        invariant 0 <= k <= |params| && params == old(params)
        invariant Position(params, pid) == k + Position(params[k..], pid)
      {
        assert params[k..][1..] == params[k + 1..];
        if params[k].pid == pid {
          params := params[..k] + params[k + 1..];
          return;
        }
        k := k + 1;
      }
    }

    /** One message for every entry that has a callback. */
    method Broadcast() returns (sent: seq<Param>)
      ensures sent == Recipients(params)
    {
      sent := [];
      for k := 0 to |params|
        invariant sent == Recipients(params[..k])
      {
        assert params[..k + 1][..k] == params[..k];
        if params[k].callback != 0 { sent := sent + [params[k]]; }
      }
      assert params[..|params|] == params;
    }
  }

  // ------------------------------------------------------- what editing means

  /** Subscribing replaces a process's own entry and nothing else. */
  lemma AddedMeaning(params: seq<Param>, p: Param)
    requires Distinct(params)
    ensures Distinct(Added(params, p))
    ensures forall q :: Subscribed(Added(params, p), q) <==> if q.pid == p.pid then q == p else Subscribed(params, q)
  {
    var k := Position(params, p.pid);
    var r := Added(params, p);
    assert r[k] == p;
    forall q ensures Subscribed(r, q) <==> if q.pid == p.pid then q == p else Subscribed(params, q) {
      if Subscribed(params, q) && q.pid != p.pid {
        var j :| 0 <= j < |params| && params[j] == q;
        assert r[j] == q;
      }
    }
  }

  lemma RemovedMeaning(params: seq<Param>, pid: int)
    requires Distinct(params)
    ensures Distinct(Removed(params, pid))
    ensures forall q :: Subscribed(Removed(params, pid), q) <==> q.pid != pid && Subscribed(params, q)
  {
    var k := Position(params, pid);
    var r := Removed(params, pid);
    forall j | 0 <= j < |r| ensures r[j] == params[if j < k then j else j + 1] { }
    forall q ensures Subscribed(r, q) <==> q.pid != pid && Subscribed(params, q) {
      if Subscribed(params, q) && q.pid != pid {
        var j :| 0 <= j < |params| && params[j] == q;
        assert r[if j < k then j else j - 1] == q;
      }
    }
  }

  // ------------------------------------------------------------ who gets what

  /** The messages that reach a process when these entries are told. */
  function For(pid: int, sent: seq<Param>): seq<Param> {
    if sent == [] then []
    else
      var n := |sent| - 1;
      For(pid, sent[..n]) + if sent[n].pid == pid then [sent[n]] else []
  }

  lemma {:induction false} ForNobody(pid: int, params: seq<Param>)
    requires forall k :: 0 <= k < |params| ==> params[k].pid != pid
    ensures For(pid, Recipients(params)) == []
  {
    if params != [] {
      var n := |params| - 1;
      ForNobody(pid, params[..n]);
      ForLast(pid, params);
    }
  }

  lemma ForLast(pid: int, params: seq<Param>)
    requires params != []
    ensures var n := |params| - 1;
            For(pid, Recipients(params)) ==
              For(pid, Recipients(params[..n])) + if params[n].callback != 0 && params[n].pid == pid then [params[n]] else []
  {
    var n := |params| - 1;
    var sent := Recipients(params[..n]);
    assert (sent + [params[n]])[..|sent|] == sent;
    assert sent + [] == sent;
  }

  /** A broadcast reaches every subscriber that has a callback exactly once. */
  lemma {:induction false} ToldOnce(params: seq<Param>, p: Param)
    requires Distinct(params) && Subscribed(params, p)
    ensures For(p.pid, Recipients(params)) == if p.callback != 0 then [p] else []
  {
    var n := |params| - 1;
    ForLast(p.pid, params);
    if params[n] == p {
      ForNobody(p.pid, params[..n]);
    } else {
      var k :| 0 <= k < |params| && params[k] == p;
      assert params[..n][k] == p;
      ToldOnce(params[..n], p);
    }
  }

  // ----------------------------------------------------- devices and clients

  datatype Op = Happens(event: DeviceEvent) | Subscribes(p: Param) | Unsubscribes(pid: int)

  /** A route notice on its way to a process. */
  datatype Letter = Letter(to: Param, notice: Notice)

  datatype System = System(info: Info, params: seq<Param>, mail: seq<Letter>)

  function Letters(sent: seq<Param>, notice: Notice): seq<Letter> {
    seq(|sent|, i requires 0 <= i < |sent| => Letter(sent[i], notice))
  }

  /** Route notices go to every recipient in turn. */
  function Post(params: seq<Param>, notices: seq<Notice>): seq<Letter> {
    if notices == [] then []
    else
      var n := |notices| - 1;
      Post(params, notices[..n]) +
      if notices[n].RoutesChanged? then Letters(Recipients(params), notices[n]) else []
  }

  function Do(s: System, op: Op): System {
    match op
    case Happens(event) =>
      var (info, notices) := Step(s.info, event);
      System(info, s.params, s.mail + Post(s.params, notices))
    case Subscribes(p) => s.(params := Added(s.params, p))
    case Unsubscribes(pid) => s.(params := Removed(s.params, pid))
  }

  function DoAll(s: System, ops: seq<Op>): System {
    if ops == [] then s
    else
      var n := |ops| - 1;
      Do(DoAll(s, ops[..n]), ops[n])
  }

  /** The notices among the letters to a process. */
  function Inbox(pid: int, mail: seq<Letter>): seq<Notice> {
    if mail == [] then []
    else
      var n := |mail| - 1;
      Inbox(pid, mail[..n]) + if mail[n].to.pid == pid then [mail[n].notice] else []
  }

  lemma {:induction false} InboxAppend(pid: int, a: seq<Letter>, b: seq<Letter>)
    ensures Inbox(pid, a + b) == Inbox(pid, a) + Inbox(pid, b)
  {
    if b == [] {
      assert a + b == a;
    } else {
      var n := |b| - 1;
      InboxAppend(pid, a, b[..n]);
      assert (a + b)[..|a| + n] == a + b[..n];
    }
  }

  lemma {:induction false} LettersInbox(pid: int, sent: seq<Param>, notice: Notice)
    ensures Inbox(pid, Letters(sent, notice)) == seq(|For(pid, sent)|, _ => notice)
  {
    if sent != [] {
      var n := |sent| - 1;
      LettersInbox(pid, sent[..n], notice);
      assert Letters(sent, notice)[..n] == Letters(sent[..n], notice);
    }
  }

  function RoutesOnly(notices: seq<Notice>): seq<Notice> {
    if notices == [] then []
    else
      var n := |notices| - 1;
      RoutesOnly(notices[..n]) + if notices[n].RoutesChanged? then [notices[n]] else []
  }

  lemma {:induction false} PostInbox(params: seq<Param>, p: Param, notices: seq<Notice>)
    requires Distinct(params) && Subscribed(params, p) && p.callback != 0
    ensures Inbox(p.pid, Post(params, notices)) == RoutesOnly(notices)
  {
    if notices != [] {
      var n := |notices| - 1;
      PostInbox(params, p, notices[..n]);
      ToldOnce(params, p);
      hide Subscribed, Distinct, Recipients, For;
      var more := if notices[n].RoutesChanged? then Letters(Recipients(params), notices[n]) else [];
      InboxAppend(p.pid, Post(params, notices[..n]), more);
      LettersInbox(p.pid, Recipients(params), notices[n]);
    }
  }

  lemma {:induction false} ReplayRoutesOnly(view: set<bv16>, notices: seq<Notice>)
    ensures Replay(view, RoutesOnly(notices)) == Replay(view, notices)
  {
    if notices != [] {
      var n := |notices| - 1;
      ReplayRoutesOnly(view, notices[..n]);
      var some := RoutesOnly(notices[..n]);
      assert (some + [notices[n]])[..|some|] == some;
      assert some + [] == some;
    }
  }

  /** The process keeps its subscription: it may renew it, but not with no callback. */
  predicate Stays(pid: int, op: Op) {
    (op.Unsubscribes? ==> op.pid != pid) && (op.Subscribes? && op.p.pid == pid ==> op.p.callback != 0)
  }

  ghost predicate Live(s: System, pid: int) {
    && Plausible(s.info.available) && Distinct(s.params)
    && exists p :: Subscribed(s.params, p) && p.pid == pid && p.callback != 0
  }

  lemma LiveStep(s: System, pid: int, op: Op)
    requires Live(s, pid) && Stays(pid, op)
    ensures var t := Do(s, op);
            && Live(t, pid) && s.mail <= t.mail
            && Replay(SetOf(AvailableRoutes(s.info.available)), Inbox(pid, t.mail[|s.mail|..]))
                 == SetOf(AvailableRoutes(t.info.available))
  {
    var p :| Subscribed(s.params, p) && p.pid == pid && p.callback != 0;
    hide Plausible, AvailableRoutes, Subscribed, Distinct;
    match op {
      case Happens(event) =>
        ReplayStep(s.info, event);
        var (info, notices) := Step(s.info, event);
        hide Step;
        PostInbox(s.params, p, notices);
        ReplayRoutesOnly(SetOf(AvailableRoutes(s.info.available)), notices);
        assert Do(s, op).mail[|s.mail|..] == Post(s.params, notices);
      case Subscribes(q) =>
        AddedMeaning(s.params, q);
        assert q.pid == pid ==> Subscribed(Added(s.params, q), q);
      case Unsubscribes(_) => RemovedMeaning(s.params, op.pid);
    }
  }

  /** Whatever happens and whoever else comes and goes, a client that subscribed, asked
      for the whole list, and applies the notices it is sent, holds the current list. */
  lemma {:induction false} SubscriberIsCurrent(s: System, pid: int, ops: seq<Op>)
    requires Live(s, pid) && forall k :: 0 <= k < |ops| ==> Stays(pid, ops[k])
    ensures var t := DoAll(s, ops);
            && Live(t, pid) && s.mail <= t.mail
            && Replay(SetOf(AvailableRoutes(s.info.available)), Inbox(pid, t.mail[|s.mail|..]))
                 == SetOf(AvailableRoutes(t.info.available))
  {
    hide Do, Live, AvailableRoutes, Stays;
    var view := SetOf(AvailableRoutes(s.info.available));
    if ops != [] {
      var n := |ops| - 1;
      var m := DoAll(s, ops[..n]);
      SubscriberIsCurrent(s, pid, ops[..n]);
      LiveStep(m, pid, ops[n]);
      var t := Do(m, ops[n]);
      var a, b := m.mail[|s.mail|..], t.mail[|m.mail|..];
      assert t.mail[|s.mail|..] == a + b;
      InboxAppend(pid, a, b);
      ReplayAppend(view, Inbox(pid, a), Inbox(pid, b));
    }
  }
}
