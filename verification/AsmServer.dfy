/** The audio session manager itself: a linked list of sound instances between a
    head and a tail, searched and spliced in place, and two cached masks. Each method
    does to the list what the functions of AsmModel say. */
module AsmServer {
  import opened AsmTypes
  import opened AsmModel
  import AsmArbitration
  import AsmRuns

  class Node {
    var pid: int
    var handle: int
    var event: Event
    var state: Status
    var resume: bool
    var resource: Bits
    var monitorActive: bool
    var monitorDirty: bool
    var next: Node

    function Value(): Sound
      reads this
    {
      Sound(pid, handle, event, state, resume, resource, monitorActive, monitorDirty)
    }

    /** The last node points to itself. */
    constructor Tail()
      ensures next == this
    {
      pid, handle, event, state := 0, 0, Notify, NoState;
      resume, resource, monitorActive, monitorDirty := false, {}, false, false;
      next := this;
    }

    constructor Before(s: Sound, n: Node)
      ensures next == n && Value() == s
    {
      pid, handle, event, state := s.pid, s.handle, s.event, s.state;
      resume, resource, monitorActive, monitorDirty := s.resume, s.resource, s.monitorActive, s.monitorDirty;
      next := n;
    }
  }

  ghost function Values(ns: seq<Node>): (r: seq<Sound>)
    reads ns
    ensures |r| == |ns| && forall i :: 0 <= i < |ns| ==> r[i] == ns[i].Value()
  {
    seq(|ns|, i requires 0 <= i < |ns| reads ns => ns[i].Value())
  }

  class Server {
    const cfg: Config
    var head: Node
    const tail: Node
    var playing: set<Event>
    var paused: set<Event>
    var session: Session
    var log: seq<Effect>

    /** The nodes from the head up to the one before the tail, which holds no sound. */
    ghost var nodes: seq<Node>

    ghost predicate Valid()
      reads `head, `nodes, nodes`next, tail`next
    {
      && |nodes| >= 1 && head == nodes[0] && tail !in nodes && tail.next == tail
      && (forall i, j :: 0 <= i < j < |nodes| ==> nodes[i] != nodes[j])
      && (forall i :: 0 <= i < |nodes| - 1 ==> nodes[i].next == nodes[i + 1])
      && nodes[|nodes| - 1].next == tail
    }

    ghost function List(): (r: seq<Sound>)
      requires |nodes| >= 1
      reads `nodes, nodes
      ensures |r| == |nodes| - 1 && forall i :: 0 <= i < |r| ==> r[i] == nodes[i].Value()
    {
      Values(nodes[..|nodes| - 1])
    }

    ghost function Abs(): State
      requires |nodes| >= 1
      reads this, nodes
    {
      State(List(), playing, paused, session, log)
    }

    constructor (cfg: Config)
      ensures Valid() && Abs() == Initial && this.cfg == cfg && fresh(nodes) && fresh(tail)
    {
      var last := new Node.Tail();
      var bottom := new Node.Before(Sound(0, 0, Notify, NoState, false, {}, false, false), last);
      this.cfg := cfg;
      head, tail := bottom, last;
      playing, paused, session, log := {}, {}, Media, [];
      nodes := [bottom];
    }

    lemma Link(i: nat)
      requires Valid() && i < |nodes|
      ensures head == nodes[0] && (nodes[i].next == tail <==> i == |nodes| - 1)
      ensures i < |nodes| - 1 ==> nodes[i].next == nodes[i + 1]
    {
      if i < |nodes| - 1 { assert nodes[i].next == nodes[i + 1] && nodes[i + 1] in nodes; }
    }

    lemma Apart(i: nat)
      requires Valid()
      ensures |nodes| >= 1 && (i < |nodes| ==> nodes[i] != tail)
    {
      if i < |nodes| { assert nodes[i] in nodes; }
    }

    // ------------------------------------------------------------- searching

    /** The first monitor of a process, or the node before the tail. */
    method FindMonitor(pid: int) returns (cur: Node, ghost m: nat)
      requires Valid()
      ensures m == MonitorOf(List(), pid) && cur == nodes[m]
    {
      cur, m := head, 0;
      ghost var list := List();
      assert list[0..] == list;
      while cur.next != tail && !(cur.pid == pid && cur.event == Monitor)
        invariant 0 <= m < |nodes| && cur == nodes[m] && list == List()
        invariant MonitorOf(list, pid) == m + MonitorOf(list[m..], pid)
        decreases |nodes| - m
      {
        Link(m);
        assert list[m..][1..] == list[m + 1..];
        cur := cur.next;
        m := m + 1;
      }
      Link(m);
    }

    /** The first sound with that process and handle, or the node before the tail. */
    method FindSound(pid: int, handle: int) returns (cur: Node, ghost k: nat)
      requires Valid()
      ensures k == IndexOf(List(), pid, handle) && cur == nodes[k]
    {
      cur, k := head, 0;
      ghost var list := List();
      assert list[0..] == list;
      while cur.next != tail && !(cur.pid == pid && cur.handle == handle)
        invariant 0 <= k < |nodes| && cur == nodes[k] && list == List()
        invariant IndexOf(list, pid, handle) == k + IndexOf(list[k..], pid, handle)
        decreases |nodes| - k
      {
        Link(k);
        assert list[k..][1..] == list[k + 1..];
        cur := cur.next;
        k := k + 1;
      }
      Link(k);
    }

    method FindCleanMonitor(pid: int) returns (found: bool, handle: int, ghost m: nat)
      requires Valid()
      ensures m == MonitorOf(List(), pid) && (found <==> m < |List()| && !List()[m].monitorDirty)
      ensures found ==> handle == List()[m].handle
    {
      var cur: Node;
      cur, m := FindMonitor(pid);
      Link(m);
      found := cur.next != tail && !cur.monitorDirty;
      handle := if found then cur.handle else -1;
    }

    method IsItPlayingNow(pid: int, handle: int) returns (r: bool)
      requires Valid()
      ensures r <==> IsPlayingNow(List(), pid, handle)
    {
      var cur := head;
      ghost var i := 0;
      ghost var list := List();
      while cur.next != tail
        invariant 0 <= i < |nodes| && cur == nodes[i] && list == List()
        invariant forall k :: 0 <= k < i ==> !(list[k].pid == pid && list[k].handle == handle && list[k].state == Playing)
        decreases |nodes| - i
      {
        if cur.pid == pid && cur.handle == handle && cur.state == Playing { return true; }
        cur := cur.next;
        i := i + 1;
      }
      Link(i);
      return false;
    }

    method FindProcessStatus(pid: int) returns (r: Status)
      requires Valid()
      ensures r == ProcessStatus(List(), pid, NoState)
    {
      r := NoState;
      var cur := head;
      ghost var i := 0;
      ghost var list := List();
      assert list[0..] == list;
      while cur.next != tail
        invariant 0 <= i < |nodes| && cur == nodes[i] && list == List()
        invariant ProcessStatus(list, pid, NoState) == ProcessStatus(list[i..], pid, r)
        decreases |nodes| - i
      {
        assert list[i..][1..] == list[i + 1..];
        if cur.pid == pid && Rank(cur.state) >= Rank(r) { r := cur.state; }
        cur := cur.next;
        i := i + 1;
      }
    }

    method FindState(handle: int) returns (r: Status)
      requires Valid()
      ensures var k := HandleIndex(List(), handle); r == if k < |List()| then List()[k].state else NoState
    {
      var cur := head;
      ghost var i := 0;
      ghost var list := List();
      while cur.next != tail
        invariant 0 <= i < |nodes| && cur == nodes[i] && list == List()
        invariant HandleIndex(list, handle) == i + HandleIndex(list[i..], handle)
        decreases |nodes| - i
      {
        assert list[i..][1..] == list[i + 1..];
        if cur.handle == handle { return cur.state; }
        cur := cur.next;
        i := i + 1;
      }
      Link(i);
      return NoState;
    }

    /** Marks the handles in use in an array, then takes the first unmarked one. */
    method GetEmptyHandle() returns (handle: int)
      requires Valid() && cfg.maxHandles <= 256
      requires forall k :: 0 <= k < |List()| ==> 0 <= List()[k].handle < 256
      ensures handle == LeastFree(List(), 0, cfg.maxHandles)
    {
      var used := new bool[256](_ => false);
      var cur := head;
      ghost var i := 0;
      ghost var list := List();
      while cur.next != tail
        invariant 0 <= i < |nodes| && cur == nodes[i] && list == List()
        invariant forall h :: 0 <= h < 256 ==> (used[h] <==> exists k :: 0 <= k < i && list[k].handle == h)
        decreases |nodes| - i
      {
        assert list[i] == cur.Value();
        used[cur.handle] := true;
        cur := cur.next;
        i := i + 1;
      }
      Link(i);
      var h := 0;
      while h < cfg.maxHandles
        invariant 0 <= h <= cfg.maxHandles
        invariant LeastFree(list, 0, cfg.maxHandles) == LeastFree(list, h, cfg.maxHandles)
      {
        if !used[h] {
          assert HandleIndex(list, h) == |list|;
          return h;
        }
        h := h + 1;
      }
      return -1;
    }

    // ------------------------------------------------- changing single entries

    /** Changing the fields of one node, but not its link, changes one sound. */
    twostate lemma OneChanged(i: nat)
      requires old(Valid()) && nodes == old(nodes) && head == old(head) && i < |nodes| - 1
      requires unchanged(tail) && nodes[i].next == old(nodes[i].next)
      requires forall k :: 0 <= k < |nodes| && k != i ==> unchanged(nodes[k])
      ensures Valid() && List() == old(List())[i := nodes[i].Value()]
    {
    }

    method SetMonitorDirty(pid: int)
      requires Valid()
      modifies nodes`monitorDirty
      ensures Valid() && Abs() == old(Abs()).(list := MarkDirty(old(List()), pid))
    {
      var cur, m := FindMonitor(pid);
      Link(m);
      if cur.next != tail {
        cur.monitorDirty := true;
        hide MonitorOf;
        OneChanged(m);
      }
    }

    static method CleanOne(cur: Node)
      modifies cur`monitorDirty
      ensures cur.Value() == if old(cur.event) == Monitor then old(cur.Value()).(monitorDirty := false)
                             else old(cur.Value())
    {
      if cur.event == Monitor { cur.monitorDirty := false; }
    }

    method SetAllMonitorClean()
      requires Valid()
      modifies nodes`monitorDirty
      ensures Valid() && Abs() == old(Abs()).(list := CleanMonitors(old(List())))
    {
      var cur := head;
      ghost var i := 0;
      ghost var clean := CleanMonitors(List());
      hide CleanMonitors;
      while cur.next != tail
        invariant 0 <= i < |nodes| && cur == nodes[i]
        invariant forall k :: 0 <= k < i ==> nodes[k].Value() == clean[k]
        invariant forall k :: i <= k < |nodes| ==> nodes[k].Value() == old(nodes[k].Value())
        decreases |nodes| - i
      {
        Link(i);
        CleanOne(cur);
        cur := cur.next;
        i := i + 1;
      }
      Link(i);
      assert List() == clean;
    }

    method ChangeNeedResumeList(pid: int, handle: int, resume: bool)
      requires Valid()
      modifies nodes`resume
      ensures Valid() && Abs() == old(Abs()).(list := SetResume(old(List()), pid, handle, resume))
    {
      var cur, k := FindSound(pid, handle);
      Link(k);
      if cur.next != tail {
        cur.resume := resume;
        hide IndexOf;
        OneChanged(k);
      }
    }

    method IsActive(pid: int) returns (active: bool)
      requires Valid()
      ensures active <==> HasActiveSound(List(), pid)
    {
      active := false;
      var cur := head;
      ghost var i := 0;
      ghost var list := List();
      while cur.next != tail
        invariant 0 <= i < |nodes| && cur == nodes[i] && list == List()
        invariant forall k :: 0 <= k < i ==>
                    !(list[k].pid == pid && list[k].event != Monitor && list[k].state == Playing)
        decreases |nodes| - i
      {
        if cur.pid == pid && cur.event != Monitor && cur.state == Playing { return true; }
        cur := cur.next;
        i := i + 1;
      }
      Link(i);
    }

    method UpdateMonitorActive(pid: int)
      requires Valid()
      modifies nodes`monitorActive
      ensures Valid() && Abs() == old(Abs()).(list := UpdateMonitor(old(List()), pid))
    {
      hide MonitorOf, HasActiveSound, Values, Valid;
      var monitor, m := FindMonitor(pid);
      Link(m);
      if monitor.next != tail {
        var active := IsActive(pid);
        SetActive(monitor, m, active);
      }
    }

    method SetActive(monitor: Node, ghost m: nat, active: bool)
      requires Valid() && m < |nodes| - 1 && monitor == nodes[m]
      modifies nodes`monitorActive
      ensures Valid() && Abs() == old(Abs()).(list := old(List())[m := old(List())[m].(monitorActive := active)])
    {
      hide Values;
      monitor.monitorActive := active;
      OneChanged(m);
    }

    /** Recomputes both masks from the list. */
    method UpdatePhoneStatus()
      requires Valid()
      modifies this`playing, this`paused
      ensures Valid() && Abs() == Refresh(old(Abs()))
    {
      hide Valid, MaskOf, Values;
      playing, paused := CollectMasks();
    }

    method CollectMasks() returns (playingNow: set<Event>, pausedNow: set<Event>)
      requires Valid()
      ensures playingNow == MaskOf(List(), Playing) && pausedNow == MaskOf(List(), Paused)
    {
      ghost var list := List();
      MaskStart(list, Playing);
      MaskStart(list, Paused);
      Link0();
      hide Valid, MaskOf, Values, MaskUpTo;
      playingNow, pausedNow := {}, {};
      var cur := head;
      ghost var i := 0;
      while cur.next != tail
        invariant 0 <= i < |nodes| && cur == nodes[i]
        invariant playingNow == MaskUpTo(list, i, Playing) && pausedNow == MaskUpTo(list, i, Paused)
        decreases |nodes| - i
      {
        Link(i);
        MaskStep(list, i, Playing);
        MaskStep(list, i, Paused);
        playingNow := playingNow + if cur.state == Playing then {cur.event} else {};
        pausedNow := pausedNow + if cur.state == Paused then {cur.event} else {};
        cur := cur.next;
        i := i + 1;
      }
      Link(i);
      MaskAll(list, Playing);
      MaskAll(list, Paused);
    }

    method ChangeStateList(pid: int, handle: int, status: Status, resource: Bits)
      requires Valid()
      modifies nodes`state, nodes`resource, nodes`monitorActive, this`playing, this`paused
      ensures Valid() && Abs() == ChangeState(old(Abs()), pid, handle, status, resource)
    {
      hide IndexOf, UpdateMonitor, MaskOf, Values;
      if status == Ignored { return; }
      SetStateOf(pid, handle, status, resource);
      UpdateMonitorActive(pid);
      UpdatePhoneStatus();
    }

    method SetStateOf(pid: int, handle: int, status: Status, resource: Bits)
      requires Valid()
      modifies nodes`state, nodes`resource
      ensures Valid() && Abs() == old(Abs()).(list := WithState(old(List()), pid, handle, status, resource))
    {
      hide IndexOf, Values;
      var cur, k := FindSound(pid, handle);
      Link(k);
      if cur.next != tail {
        cur.state, cur.resource := status, resource;
        OneChanged(k);
      }
    }

    // ------------------------------------------------------ splicing the list

    /** Puts a new entry in front of the list. */
    method RegisterList(r: Request)
      requires Valid()
      modifies this
      ensures Valid() && Abs() == RegisterSound(old(Abs()), r)
      ensures |nodes| == |old(nodes)| + 1 && nodes[1..] == old(nodes) && fresh(nodes[0])
    {
      hide MaskOf;
      var node := new Node.Before(NewSound(r), head);
      head, nodes := node, [node] + nodes;
      log := log + [Admitted(r.pid, r.handle)];
      assert List() == [NewSound(r)] + old(List());
      UpdatePhoneStatus();
    }

    /** The first sound with that handle, or the node before the tail, and the node
        in front of it. */
    method FindHandle(handle: int) returns (cur: Node, prev: Node, ghost k: nat)
      requires Valid()
      ensures k == HandleIndex(List(), handle) && cur == nodes[k] && (k > 0 ==> prev == nodes[k - 1])
    {
      cur, prev, k := head, head, 0;
      ghost var list := List();
      assert list[0..] == list;
      while cur.next != tail && cur.handle != handle
        invariant 0 <= k < |nodes| && cur == nodes[k] && (k > 0 ==> prev == nodes[k - 1]) && list == List()
        invariant HandleIndex(list, handle) == k + HandleIndex(list[k..], handle)
        decreases |nodes| - k
      {
        Link(k);
        assert list[k..][1..] == list[k + 1..];
        prev := cur;
        cur := cur.next;
        k := k + 1;
      }
      Link(k);
    }

    /** Unlinks the first entry with that handle; its process is the result. */
    method UnregisterList(handle: int) returns (pid: int)
      requires Valid()
      modifies this`head, this`nodes, this`playing, this`paused, nodes`next
      ensures Valid() && Abs() == Unregister(old(Abs()), handle)
      ensures forall i :: 0 <= i < |nodes| ==> nodes[i] in old(nodes)
    {
      hide HandleIndex, Values, MaskOf, Valid;
      pid := RemoveHandle(handle);
      UpdatePhoneStatus();
    }

    method RemoveHandle(handle: int) returns (pid: int)
      requires Valid()
      modifies this`head, this`nodes, nodes`next
      ensures Valid() && forall i :: 0 <= i < |nodes| ==> nodes[i] in old(nodes)
      ensures var k, list := HandleIndex(old(List()), handle), old(List());
              List() == if k < |list| then list[..k] + list[k + 1..] else list
    {
      pid := -1;
      hide HandleIndex, Values, Valid;
      var cur, prev, k := FindHandle(handle);
      Link(k);
      if cur.next != tail {
        pid := cur.pid;
        Unlink(cur, prev, k);
        StillThere(old(nodes), nodes, k);
      }
    }

    lemma StillThere(before: seq<Node>, after: seq<Node>, k: nat)
      requires k < |before| && after == before[..k] + before[k + 1..]
      ensures forall i :: 0 <= i < |after| ==> after[i] in before
    {
      forall i | 0 <= i < |after| ensures after[i] in before { assert after[i] == before[if i < k then i else i + 1]; }
    }

    /** Takes the k-th node out, by way of the head or of the node before it. */
    method Unlink(cur: Node, prev: Node, ghost k: nat)
      requires Valid() && k < |nodes| - 1 && cur == nodes[k] && (k > 0 ==> prev == nodes[k - 1])
      modifies this`head, this`nodes, nodes`next
      ensures Valid() && nodes == old(nodes)[..k] + old(nodes)[k + 1..]
      ensures List() == old(List())[..k] + old(List())[k + 1..]
    {
      hide Values;
      Distinct(k);
      Link(k);
      Link(k + 1);
      if cur == head {
        head := cur.next;
      } else {
        prev.next := cur.next;
      }
      nodes := nodes[..k] + nodes[k + 1..];
      Unlinked(k);
    }

    lemma Distinct(k: nat)
      requires Valid() && k < |nodes|
      ensures nodes[k] == head <==> k == 0
      ensures forall i :: 0 <= i < |nodes| && i != k ==> nodes[i] != nodes[k]
    {
    }

    twostate lemma Unlinked(k: nat)
      requires old(Valid()) && k < |old(nodes)| - 1 && nodes == old(nodes)[..k] + old(nodes)[k + 1..]
      requires head == nodes[0] && unchanged(tail)
      requires forall i :: 0 <= i < |old(nodes)| && i != k - 1 ==> old(nodes)[i].next == old(nodes[i].next)
      requires k > 0 ==> old(nodes)[k - 1].next == old(nodes)[k + 1]
      requires forall n :: n in old(nodes) ==> old(n.Value()) == n.Value()
      ensures Valid() && List() == old(List())[..k] + old(List())[k + 1..]
    {
      forall i | 0 <= i < |nodes| ensures nodes[i] == old(nodes)[if i < k then i else i + 1] { }
      forall i | 0 <= i < |nodes| - 1 ensures nodes[i].next == nodes[i + 1] { }
      UnlinkedValues(k);
    }

    twostate lemma UnlinkedValues(k: nat)
      requires k < |old(nodes)| - 1 && |nodes| >= 1 && nodes == old(nodes)[..k] + old(nodes)[k + 1..]
      requires forall n :: n in old(nodes) ==> old(n.Value()) == n.Value()
      ensures List() == old(List())[..k] + old(List())[k + 1..]
    {
      hide Values;
      forall i | 0 <= i < |nodes| - 1 ensures List()[i] == (old(List())[..k] + old(List())[k + 1..])[i] {
        assert nodes[i] in old(nodes);
      }
    }

    /** Drops the k-th node while purging: a removed head is bypassed through the
        node before it as well, which may be a node that was removed earlier. */
    method Drop(cur: Node, prev: Node, ghost k: nat)
      requires Valid() && k < |nodes| - 1 && cur == nodes[k] && prev != tail
      requires if k > 0 then prev == nodes[k - 1] else prev == cur || prev !in nodes
      modifies this`head, this`nodes, prev`next
      ensures Valid() && nodes == old(nodes)[..k] + old(nodes)[k + 1..] && prev.next == nodes[k]
      ensures List() == old(List())[..k] + old(List())[k + 1..]
      ensures if k > 0 then prev == nodes[k - 1] else prev !in nodes
    {
      hide Values;
      Distinct(k);
      Link(k);
      Link(k + 1);
      if cur == head {
        head := cur.next;
      }
      prev.next := cur.next;
      nodes := nodes[..k] + nodes[k + 1..];
      Unlinked(k);
    }

    /** Removes every entry whose process is gone. */
    method PurgeDeadProcesses(w: World)
      requires Valid()
      modifies this`head, this`nodes, this`playing, this`paused, nodes`next
      ensures Valid() && Abs() == CheckDeadProcess(old(Abs()), w)
      ensures forall i :: 0 <= i < |nodes| ==> nodes[i] in old(nodes)
    {
      hide Values, MaskOf, Survivors, Valid;
      PurgeList(w);
      UpdatePhoneStatus();
    }

    method PurgeList(w: World)
      requires Valid()
      modifies this`head, this`nodes, nodes`next
      ensures Valid() && List() == Survivors(old(List()), w)
      ensures forall i :: 0 <= i < |nodes| ==> nodes[i] in old(nodes)
    {
      hide Values, PidExists, Valid, Purging;
      Link0();
      var cur, prev := head, head;
      ghost var k, was, all := 0, nodes, List();
      PurgingStart(w);
      while cur.next != tail
        invariant Valid() && 0 <= k < |nodes| && cur == nodes[k] && prev in was
        invariant Purging(was, all, w, prev, k)
        decreases |nodes| - k
      {
        Link(k);
        if !PidExists(w, cur.pid) {
          PurgeEntry(was, all, w, cur, prev, k);
        } else {
          PurgingOn(was, all, w, prev, k);
          prev := cur;
          k := k + 1;
        }
        cur := prev.next;
      }
      Link(k);
      PurgingDone(was, all, w, prev, k);
    }

    /** The purge of `all`, which sat on the nodes `was`, has kept `k` sounds and goes
        on behind `prev`. */
    ghost predicate Purging(was: seq<Node>, all: seq<Sound>, w: World, prev: Node, k: nat)
      reads `nodes, nodes
    {
      && k < |nodes| && prev != tail
      && (if k > 0 then prev == nodes[k - 1] else prev == nodes[0] || prev !in nodes)
      && (forall i :: 0 <= i < |nodes| ==> nodes[i] in was)
      && Purged(all, List(), k, w)
    }

    lemma PurgingStart(w: World)
      requires Valid()
      ensures |nodes| >= 1 && head == nodes[0] && Purging(nodes, List(), w, head, 0)
    {
      PurgedStart(List(), w);
    }

    lemma PurgingOn(was: seq<Node>, all: seq<Sound>, w: World, prev: Node, k: nat)
      requires Valid() && k < |nodes| - 1 && Purging(was, all, w, prev, k) && PidExists(w, nodes[k].pid)
      ensures Purging(was, all, w, nodes[k], k + 1) && nodes[k] in was && nodes[k].next == nodes[k + 1]
    {
      Apart(k);
      Link(k);
      hide Purged, Values;
      PurgedKeep(all, List(), k, w);
    }

    lemma PurgingDone(was: seq<Node>, all: seq<Sound>, w: World, prev: Node, k: nat)
      requires Purging(was, all, w, prev, k) && k == |nodes| - 1
      ensures List() == Survivors(all, w) && forall i :: 0 <= i < |nodes| ==> nodes[i] in was
    {
      PurgedAll(all, List(), w);
    }

    method PurgeEntry(ghost was: seq<Node>, ghost all: seq<Sound>, w: World, cur: Node, prev: Node, ghost k: nat)
      requires Valid() && k < |nodes| - 1 && cur == nodes[k] && !PidExists(w, cur.pid) && Purging(was, all, w, prev, k)
      modifies this`head, this`nodes, prev`next
      ensures Valid() && Purging(was, all, w, prev, k) && |nodes| == |old(nodes)| - 1 && prev.next == nodes[k]
    {
      hide Values, Purged, Valid;
      PurgedDrop(all, List(), k, w);
      Drop(cur, prev, k);
    }

    /** Unregisters the entries of a process one by one, by their handles, and starts
        again from the head after each. */
    method ExitProcess(pid: int)
      requires Valid() && AsmArbitration.Unique(List())
      modifies this`head, this`nodes, this`playing, this`paused, nodes`next
      ensures Valid() && Abs() == EmergentExit(old(Abs()), pid)
      ensures forall i :: 0 <= i < |nodes| ==> nodes[i] in old(nodes)
    {
      hide Values, MaskOf, Valid, Exiting, Elsewhere;
      Link0();
      var cur := head;
      ghost var k := 0;
      ExitStart(Abs(), pid);
      while cur.next != tail
        invariant Valid() && 0 <= k < |nodes| && cur == nodes[k]
        invariant forall i :: 0 <= i < |nodes| ==> nodes[i] in old(nodes)
        invariant Exiting(old(Abs()), Abs(), pid) && Elsewhere(Abs().list, pid, k)
        decreases |nodes|, |nodes| - k
      {
        Link(k);
        ExitLook(Abs().list, pid, k);
        if cur.pid == pid {
          ExitEntry(old(Abs()), cur, k);
          Link0();
          cur, k := head, 0;
          ExitLook(Abs().list, pid, 0);
        } else {
          cur, k := cur.next, k + 1;
        }
      }
      Link(k);
      ExitDone(old(Abs()), Abs(), pid);
    }

    method ExitEntry(ghost start: State, cur: Node, ghost k: nat)
      requires Valid() && k < |nodes| - 1 && cur == nodes[k] && Exiting(start, Abs(), cur.pid)
      modifies this`head, this`nodes, this`playing, this`paused, nodes`next
      ensures Valid() && forall i :: 0 <= i < |nodes| ==> nodes[i] in old(nodes)
      ensures |nodes| == |old(nodes)| - 1 && Exiting(start, Abs(), cur.pid)
    {
      hide Values, MaskOf, Valid, Exiting, HandleIndex;
      ExitDrop(start, Abs(), k);
      var _ := UnregisterList(cur.handle);
    }

    lemma Link0()
      requires Valid()
      ensures |nodes| >= 1 && head == nodes[0]
    {
    }

    // --------------------------------------------------------- calling clients

    method DoCallback(w: World, pid: int, handle: int, command: Command, source: Source, role: Role, cause: Event)
      returns (reply: Reply)
      requires Valid()
      modifies this`log
      ensures Valid() && Abs() == Ring(w, old(Abs()), pid, handle, command, source, role, cause)
      ensures reply == ReplyTo(w, |old(log)|, command)
    {
      reply := if command != CmdResume then w.reply(|log|)
               else if w.reply(|log|) == Unexpected then Unexpected else ResNone;
      log := log + [Callback(pid, handle, command, source, role, cause, reply)];
    }

    method StopCleanMonitor(w: World, pid: int, source: Source, cause: Event, flag: bool)
      requires Valid()
      modifies this`log, nodes`monitorDirty, nodes`resume
      ensures Valid() && Abs() == StopMonitor(w, old(Abs()), pid, source, cause, flag)
    {
      StopMonitorRings(w, Abs(), pid, source, cause, flag);
      hide Values, MonitorOf, Rung, StopMonitor, SameSounds, Valid;
      var found, handle, m := FindCleanMonitor(pid);
      if found { RingMonitor(w, pid, handle, source, cause, flag); }
    }

    method RingMonitor(w: World, pid: int, handle: int, source: Source, cause: Event, flag: bool)
      requires Valid()
      modifies this`log, nodes`monitorDirty, nodes`resume
      ensures Valid() && Abs() == Rung(w, old(Abs()), pid, handle, source, cause, flag)
    {
      hide Values, MarkDirty, SetResume, SameSounds, Valid;
      var _ := DoCallback(w, pid, handle, CmdStop, source, Watcher, cause);
      SetMonitorDirty(pid);
      FlagIf(flag, pid, handle);
    }

    /** Stops the monitor of the sound's process, calls the sound, and flags the two. */
    method CallVictim(w: World, v: Sound, command: Command, source: Source, cause: Event,
                      flagMonitor: bool, flag: bool) returns (reply: Reply)
      requires Valid()
      modifies this`log, nodes`monitorDirty, nodes`resume
      ensures Valid() && (Abs(), reply) == Strike(w, old(Abs()), v, command, source, cause, flagMonitor, flag)
    {
      hide Values, StopMonitor, SetResume, ReplyTo, SameSounds, Valid;
      StopCleanMonitor(w, v.pid, source, cause, flagMonitor);
      reply := DoCallback(w, v.pid, v.handle, command, source, Worker, cause);
      FlagIf(flag, v.pid, v.handle);
    }

    method FlagIf(flag: bool, pid: int, handle: int)
      requires Valid()
      modifies nodes`resume
      ensures Valid()
      ensures Abs() == if flag then old(Abs()).(list := SetResume(old(List()), pid, handle, true)) else old(Abs())
    {
      hide Values, SetResume, Valid;
      if flag { ChangeNeedResumeList(pid, handle, true); }
    }

    method SetSessionTo(to: Session, start: bool)
      requires Valid()
      modifies this`session, this`log
      ensures Valid() && Abs() == SetSession(old(Abs()), to, start)
    {
      session := if start then to else Media;
      log := log + [SessionSet(to, start)];
    }

    // ------------------------------------------------------------- arbitration

    method StopPlaying(w: World, r: Request, v: Sound)
      requires Valid()
      modifies this`log, this`session, this`playing, this`paused
      modifies nodes`monitorDirty, nodes`resume, nodes`state, nodes`resource, nodes`monitorActive
      ensures Valid() && Abs() == StopVictim(w, r, old(Abs()), v)
    {
      hide Values, Strike, ChangeState, SourceOf, Valid;
      var reply := CallVictim(w, v, CmdStop, SourceOf(v, r, false), r.event, NeedsResume(r.event), NeedsResume(r.event));
      ChangeStateList(v.pid, v.handle, if reply == ResStop then Stopped else NoState, {});
      if IsFmRadio(v.event) && session == FmRadio { SetSessionTo(FmRadio, false); }
    }

    method PausePlaying(w: World, r: Request, v: Sound)
      requires Valid()
      modifies this`log, this`playing, this`paused
      modifies nodes`monitorDirty, nodes`resume, nodes`state, nodes`resource, nodes`monitorActive
      ensures Valid() && Abs() == PauseVictim(w, r, old(Abs()), v)
    {
      hide Values, Strike, ChangeState, SourceOf, Valid;
      var command := if Clash(v.resource, r.resource) then CmdStop else CmdPause;
      var reply := CallVictim(w, v, command, SourceOf(v, r, true), r.event, NeedsResume(r.event), NeedsResume(r.event));
      var status, resource := NoState, v.resource;
      match reply {
        case ResPause => status := Paused;
        case ResNone => resource := {};
        case ResStop => resource := {};
        case ResIgnore => status := Ignored;
        case _ =>
      }
      ChangeStateList(v.pid, v.handle, status, resource);
    }

    method MixPlaying(w: World, r: Request, v: Sound)
      requires Valid()
      modifies this`log, this`playing, this`paused
      modifies nodes`monitorDirty, nodes`resume, nodes`state, nodes`resource, nodes`monitorActive
      ensures Valid() && Abs() == MixVictim(w, r, old(Abs()), v)
    {
      hide Values, Strike, ChangeState, Valid;
      if Clash(v.resource, r.resource) {
        var reply := CallVictim(w, v, CmdStop, ResourceConflict, r.event, NeedsResume(r.event), false);
        var status, resource := NoState, v.resource;
        match reply {
          case ResNone => resource := {};
          case ResStop => resource := {};
          case ResIgnore => status := Ignored;
          case _ =>
        }
        ChangeStateList(v.pid, v.handle, status, resource);
      }
    }

    method InterruptPlaying(w: World, r: Request, v: Sound)
      requires Valid()
      modifies this`log, this`session, this`playing, this`paused
      modifies nodes`monitorDirty, nodes`resume, nodes`state, nodes`resource, nodes`monitorActive
      ensures Valid() && Abs() == Interrupt(cfg, w, r, old(Abs()), v)
    {
      hide Values, StopVictim, PauseVictim, MixVictim, Valid;
      if v.pid != r.pid {
        match Effective(cfg, v.event, r.event) {
          case Stop1Play2 => StopPlaying(w, r, v);
          case Pause1Play2 => PausePlaying(w, r, v);
          case Mix => MixPlaying(w, r, v);
          case _ =>
        }
      }
    }

    /** The nodes are those of before, with a new one in front if `more`. */
    twostate predicate Shifted(more: bool)
      reads `nodes
    {
      if more then |nodes| == |old(nodes)| + 1 && nodes[1..] == old(nodes) && fresh(nodes[0]) else nodes == old(nodes)
    }

    /** Every node was there before or is new. */
    twostate predicate Grown()
      reads `nodes
    {
      forall k :: 0 <= k < |nodes| ==> nodes[k] in old(nodes) || fresh(nodes[k])
    }

    /** Lists the requester in front, or updates its own entry. */
    method RecordRequest(r: Request)
      requires Valid()
      modifies this, nodes`state, nodes`resource, nodes`monitorActive
      ensures Valid() && Abs() == Record(r, old(Abs())) && Shifted(r.kind == Register)
    {
      hide Values, RegisterSound, ChangeState, Valid;
      if r.kind == Register {
        RegisterList(r);
      } else {
        ChangeStateList(r.pid, r.handle, r.state, r.resource);
      }
    }

    /** Answers `command`, and records the requester unless that is done already. */
    method AdmitRequest(r: Request, cur: Node, ghost c: Cursor, command: Command, updated: bool)
      returns (ghost j: nat, answer: Option<Decision>)
      requires Valid() && c.i < |nodes| - 1 && cur == nodes[c.i] && c.s == Abs() && c.updated == updated
      modifies this, nodes`state, nodes`resource, nodes`monitorActive
      ensures Valid() && Cursor(Abs(), j + 1, true, answer) == Admit(r, c, command)
      ensures j < |nodes| - 1 && cur == nodes[j] && Shifted(!updated && r.kind == Register)
    {
      hide Values, Record, Valid;
      answer := Some(Decision(r.handle, r.handle, command, r.state));
      j := c.i;
      if !updated {
        RecordRequest(r);
        j := if r.kind == Register then j + 1 else j;
      }
    }

    /** One turn of the first loop: what the sound at `cur` means for the request. */
    method MeetSound(w: World, r: Request, cur: Node, ghost i: nat, updated: bool, answer: Option<Decision>)
      returns (next: Node, ghost j: nat, recorded: bool, reply: Option<Decision>)
      requires Valid() && i < |nodes| - 1 && cur == nodes[i]
      modifies this, nodes
      ensures Valid() && Cursor(Abs(), j, recorded, reply) == Step1(cfg, w, r, Cursor(old(Abs()), i, updated, answer))
      ensures j < |nodes| && (next == nodes[j] || (next == tail && j == |nodes| - 1))
      ensures exists more :: Shifted(more)
    {
      hide Values, Interrupt, Admit, Effective, Valid, Shifted;
      var v := cur.Value();
      Link(i);
      Kept();
      recorded, reply := updated, answer;
      var p := Effective(cfg, v.event, r.event);
      if v.state != Playing || IsOwn(v, r) {
        next, j := cur.next, i + 1;
      } else if r.state == Playing && p == Play1Stop2 && v.pid != r.pid {
        next, j, reply := tail, |nodes| - 1, Some(Decision(r.handle, r.handle, CmdStop, r.state));
      } else if r.state == Playing && !Arbitrates(p) {
        next, j, reply := cur.next, i + 1, Some(Decision(r.handle, r.handle, CmdNone, r.state));
      } else {
        j, reply := MeetAdmitted(w, r, cur, i, updated, answer);
        recorded := true;
        Link(j);
        next, j := cur.next, j + 1;
      }
    }

    method MeetAdmitted(w: World, r: Request, cur: Node, ghost i: nat, updated: bool, ghost answer: Option<Decision>)
      returns (ghost j: nat, reply: Option<Decision>)
      requires Valid() && i < |nodes| - 1 && cur == nodes[i]
      modifies this, nodes
      ensures var s, v := old(Abs()), old(cur.Value());
              && Valid()
              && Cursor(Abs(), j + 1, true, reply) ==
                   if r.state == Playing then Admit(r, Cursor(Interrupt(cfg, w, r, s, v), i, updated, answer), CmdPlay)
                   else Admit(r, Cursor(s, i, updated, answer), CmdNone)
      ensures j < |nodes| - 1 && cur == nodes[j] && exists more :: Shifted(more)
    {
      hide Values, Interrupt, Admit, Valid;
      if r.state == Playing { InterruptPlaying(w, r, cur.Value()); }
      j, reply := AdmitRequest(r, cur, Cursor(Abs(), i, updated, answer),
        if r.state == Playing then CmdPlay else CmdNone, updated);
      assert Shifted(!updated && r.kind == Register);
    }

    twostate lemma Kept()
      requires nodes == old(nodes)
      ensures exists more :: Shifted(more)
    {
      assert Shifted(false);
    }

    twostate lemma Extended()
      requires exists more :: Shifted(more)
      ensures Grown()
    {
      var more :| Shifted(more);
      if more { assert forall k :: 1 <= k < |nodes| ==> nodes[k] == nodes[1..][k - 1]; }
    }

    /** The first loop: meets the playing sounds, then makes all monitors clean. */
    method ComparePlaying(w: World, r: Request) returns (answer: Option<Decision>)
      requires Valid()
      modifies this, nodes
      ensures var c := Pass1(cfg, w, r, Cursor(old(Abs()), 0, false, None));
              Valid() && (Abs(), answer) == (c.s.(list := CleanMonitors(c.s.list)), c.answer)
      ensures Grown()
    {
      hide Values, Step1, Shifted, CleanMonitors, Valid;
      Link0();
      var cur, updated := head, false;
      answer := None;
      ghost var i := 0;
      ghost var start := Cursor(Abs(), 0, false, None);
      while cur.next != tail
        invariant Valid() && 0 <= i < |nodes| && (cur == nodes[i] || (cur == tail && i == |nodes| - 1))
        invariant Pass1(cfg, w, r, Cursor(Abs(), i, updated, answer)) == Pass1(cfg, w, r, start)
        invariant Grown()
        decreases |nodes| - i
      {
        End(cur, i);
        Step1Advances(cfg, w, r, Cursor(Abs(), i, updated, answer));
        label turn:
        cur, i, updated, answer := MeetSound(w, r, cur, i, updated, answer);
        Extended@turn();
      }
      End(cur, i);
      SetAllMonitorClean();
    }

    lemma End(cur: Node, i: nat)
      requires Valid() && i < |nodes| && (cur == nodes[i] || (cur == tail && i == |nodes| - 1))
      ensures cur.next == tail <==> i == |nodes| - 1
      ensures cur.next != tail ==> cur == nodes[i]
    {
      Link(i);
    }

    /** One turn of the second loop: what the sound at `cur` means if it is paused. */
    method MeetPaused(w: World, r: Request, cur: Node, ghost i: nat)
      requires Valid() && i < |nodes| - 1 && cur == nodes[i]
      modifies this`log, this`playing, this`paused
      modifies nodes`monitorDirty, nodes`resume, nodes`state, nodes`resource, nodes`monitorActive
      ensures Valid() && Abs() == Step2(cfg, w, r, old(Abs()), i)
    {
      hide Values, ChangeState, Strike, Yields, Valid;
      var v := cur.Value();
      if v.state != Paused { return; }
      if IsOwn(v, r) {
        if r.kind == SetState { ChangeStateList(r.pid, r.handle, r.state, r.resource); }
        return;
      }
      if r.state == Playing && Yields(cfg, v.event, r.event) && v.pid != r.pid && Clash(v.resource, r.resource) {
        EvictSound(w, r, v);
      }
    }

    method EvictSound(w: World, r: Request, v: Sound)
      requires Valid()
      modifies this`log, this`playing, this`paused
      modifies nodes`monitorDirty, nodes`resume, nodes`state, nodes`resource, nodes`monitorActive
      ensures Valid() && Abs() == EvictPaused(w, r, old(Abs()), v)
    {
      hide Values, ChangeState, Strike, Valid;
      var _ := CallVictim(w, v, CmdStop, ResourceConflict, r.event, false, false);
      ChangeStateList(v.pid, v.handle, NoState, {});
    }

    /** The second loop: stops the paused sounds that hold a wanted resource. */
    method ComparePaused(w: World, r: Request)
      requires Valid()
      modifies this`log, this`playing, this`paused
      modifies nodes`monitorDirty, nodes`resume, nodes`state, nodes`resource, nodes`monitorActive
      ensures Valid() && Abs() == Pass2(cfg, w, r, old(Abs()), 0)
    {
      hide Values, Step2, Valid;
      Link0();
      var cur := head;
      ghost var i := 0;
      while cur.next != tail
        invariant Valid() && 0 <= i < |nodes| && cur == nodes[i]
        invariant Pass2(cfg, w, r, Abs(), i) == Pass2(cfg, w, r, old(Abs()), 0)
        decreases |nodes| - i
      {
        Link(i);
        MeetPaused(w, r, cur, i);
        Link(i);
        cur, i := cur.next, i + 1;
      }
      Link(i);
    }

    method ComparePriorityMatrix(w: World, r: Request) returns (answer: Option<Decision>)
      requires Valid()
      modifies this, nodes
      ensures Valid() && (Abs(), answer) == Compare(cfg, w, r, old(Abs()))
      ensures Grown()
    {
      hide Values, Pass1, Pass2, Record, Valid;
      var free := playing == {};
      if free {
        answer := Some(Decision(r.handle, -1, CmdNone, r.state));
      } else {
        answer := ComparePlaying(w, r);
      }
      if paused != {} && r.resource != {} && (free || (answer.Some? && answer.value.command == CmdPlay)) {
        ComparePaused(w, r);
      }
      if free {
        label recording:
        RecordRequest(r);
        assert Shifted@recording(r.kind == Register);
        Extended@recording();
      }
    }

    // ---------------------------------------------------------------- messages

    /** Sends RESUME to every flagged sound, and drops the flags. */
    method DoAllResumeCallback(w: World, source: Source, cause: Event)
      requires Valid()
      modifies this`log, nodes`state, nodes`resume
      ensures Valid() && Abs() == ResumeAll(w, old(Abs()), 0, source, cause)
    {
      hide Values, Valid;
      Link0();
      var cur := head;
      ghost var i := 0;
      while cur.next != tail
        invariant Valid() && 0 <= i < |nodes| && cur == nodes[i]
        invariant ResumeAll(w, Abs(), i, source, cause) == ResumeAll(w, old(Abs()), 0, source, cause)
        decreases |nodes| - i
      {
        Link(i);
        if cur.resume { ResumeOne(w, cur, i, source, cause); }
        Link(i);
        cur, i := cur.next, i + 1;
      }
      Link(i);
    }

    method ResumeOne(w: World, cur: Node, ghost i: nat, source: Source, cause: Event)
      requires Valid() && i < |nodes| - 1 && cur == nodes[i] && cur.resume
      modifies this`log, nodes`state, nodes`resume
      ensures Valid() && ResumeAll(w, old(Abs()), i, source, cause) == ResumeAll(w, Abs(), i + 1, source, cause)
    {
      hide Values, Valid;
      var reply := DoCallback(w, cur.pid, cur.handle, CmdResume, source, Worker, cause);
      Unflag(cur, i, reply);
    }

    method Unflag(cur: Node, ghost i: nat, reply: Reply)
      requires Valid() && i < |nodes| - 1 && cur == nodes[i]
      modifies nodes`state, nodes`resume
      ensures var v := old(cur.Value());
              var status := if reply == ResPlaying then Playing else v.state;
              Valid() && Abs() == old(Abs()).(list := old(List())[i := v.(state := status, resume := false)])
    {
      hide Values;
      cur.state := if reply == ResPlaying then Playing else cur.state;
      cur.resume := false;
      OneChanged(i);
    }

    method OnRegisterMsg(w: World, pid: int, event: Event, status: Status, resource: Bits) returns (answer: Answer)
      requires Valid() && AsmRuns.Inv(cfg, Abs()) && cfg.maxHandles <= 256
      modifies this, nodes
      ensures Valid() && (Abs(), answer) == OnRegister(cfg, w, old(Abs()), pid, event, status, resource)
      ensures Grown()
    {
      hide Values, CheckDeadProcess, LeastFree, Compare, SetSession, AsmRuns.Inv, Valid;
      var handle := AllocateHandle(w);
      if handle == -1 { return NoHandle; }
      var d := AdmitRegistered(w, Request(Register, pid, handle, event, status, resource));
      answer := Decided(d);
    }

    method AdmitRegistered(w: World, r: Request) returns (d: Option<Decision>)
      requires Valid()
      modifies this, nodes
      ensures Valid() && Grown()
      ensures var (s2, answer) := Compare(cfg, w, r, old(Abs()));
              d == answer &&
              Abs() == if r.event == Call || r.event == RichCall then SetSession(s2, VoiceCall, true)
                       else if r.event == VideoCall then SetSession(s2, Voip, true) else s2
    {
      hide Values, Compare, SetSession, Valid;
      d := ComparePriorityMatrix(w, r);
      BeginCall(r.event);
    }

    method BeginCall(event: Event)
      requires Valid()
      modifies this`session, this`log
      ensures Valid()
      ensures Abs() == if event == Call || event == RichCall then SetSession(old(Abs()), VoiceCall, true)
                       else if event == VideoCall then SetSession(old(Abs()), Voip, true) else old(Abs())
    {
      hide Values, SetSession, Valid;
      if event == Call || event == RichCall {
        SetSessionTo(VoiceCall, true);
      } else if event == VideoCall {
        SetSessionTo(Voip, true);
      }
    }

    method AllocateHandle(w: World) returns (handle: int)
      requires Valid() && AsmRuns.Inv(cfg, Abs()) && cfg.maxHandles <= 256
      modifies this`head, this`nodes, this`playing, this`paused, nodes`next
      ensures Valid() && Abs() == CheckDeadProcess(old(Abs()), w)
      ensures handle == LeastFree(List(), 0, cfg.maxHandles)
      ensures forall i :: 0 <= i < |nodes| ==> nodes[i] in old(nodes)
    {
      hide Values, CheckDeadProcess, LeastFree, Valid;
      AsmRuns.DeadProcessInv(cfg, w, Abs());
      PurgeDeadProcesses(w);
      handle := GetEmptyHandle();
    }

    method OnUnregisterMsg(w: World, handle: int, event: Event)
      requires Valid()
      modifies this`head, this`nodes, this`playing, this`paused, this`session, this`log
      modifies nodes`next, nodes`state, nodes`resume
      ensures Valid() && Abs() == OnUnregister(w, old(Abs()), handle, event)
      ensures forall i :: 0 <= i < |nodes| ==> nodes[i] in old(nodes)
    {
      hide Values, Unregister, ResumeAll, SetSession, Valid;
      var _ := UnregisterList(handle);
      match event {
        case Call => EndInterruption(w, VoiceCall, CallEnd, event);
        case RichCall => EndInterruption(w, VoiceCall, CallEnd, event);
        case VideoCall => EndInterruption(w, Voip, CallEnd, event);
        case Alarm => EndInterruption(w, Notification, AlarmEnd, event);
        case _ =>
      }
    }

    method EndInterruption(w: World, ended: Session, source: Source, cause: Event)
      requires Valid()
      modifies this`session, this`log, nodes`state, nodes`resume
      ensures Valid() && Abs() == ResumeAll(w, SetSession(old(Abs()), ended, false), 0, source, cause)
    {
      hide Values, ResumeAll, SetSession, Valid;
      SetSessionTo(ended, false);
      DoAllResumeCallback(w, source, cause);
    }

    method OnPlayMsg(w: World, r: Request) returns (answer: Answer)
      requires Valid()
      modifies this, nodes
      ensures Valid() && (Abs(), answer) == OnPlay(cfg, w, old(Abs()), r)
      ensures Grown()
    {
      hide Values, IsPlayingNow, Compare, ChangeState, StartSession, Valid;
      var already := IsItPlayingNow(r.pid, r.handle);
      if already {
        ChangeStateList(r.pid, r.handle, r.state, r.resource);
        answer := Acknowledged(r.handle, r.state);
      } else {
        var d := ComparePriorityMatrix(w, r);
        if d.Some? && (d.value.command == CmdPlay || d.value.command == CmdNone) { BeginSession(r.event); }
        answer := Decided(d);
      }
    }

    method BeginSession(event: Event)
      requires Valid()
      modifies this`session, this`log
      ensures Valid() && Abs() == StartSession(old(Abs()), event)
    {
      hide Values, SetSession, Valid;
      if event == Alarm && session != Notification {
        SetSessionTo(Notification, true);
      } else if IsFmRadio(event) && session != FmRadio {
        SetSessionTo(FmRadio, true);
      }
    }

    method OnOtherMsg(r: Request)
      requires Valid()
      modifies this`session, this`log, this`playing, this`paused
      modifies nodes`state, nodes`resource, nodes`monitorActive
      ensures Valid() && Abs() == OnOther(old(Abs()), r)
    {
      hide Values, ChangeState, SetSession, Valid;
      ChangeStateList(r.pid, r.handle, r.state, r.resource);
      if r.state == Stopped && IsFmRadio(r.event) && session == FmRadio { SetSessionTo(FmRadio, false); }
    }

    method OnSetStateMsg(w: World, r: Request) returns (answer: Answer)
      requires Valid()
      modifies this, nodes
      ensures Valid() && (Abs(), answer) == OnSetState(cfg, w, old(Abs()), r)
      ensures Grown()
    {
      hide Values, CheckDeadProcess, OnPlay, OnOther, Valid;
      PurgeDeadProcesses(w);
      if r.state == Playing {
        answer := OnPlayMsg(w, r);
      } else {
        OnOtherMsg(r);
        answer := Silent;
      }
    }

    /** Handles one message. On every run of a server that starts empty, the states
        and answers are those of `Process`. */
    method ProcessMessage(w: World, m: Message) returns (answer: Answer)
      requires Valid() && AsmRuns.Inv(cfg, Abs()) && cfg.maxHandles <= 256
      modifies this, nodes
      ensures Valid() && (Abs(), answer) == Process(cfg, w, old(Abs()), m)
      ensures AsmRuns.Inv(cfg, Abs())
      ensures Grown()
    {
      AsmRuns.ProcessInv(cfg, w, Abs(), m);
      hide Process, Valid, AsmRuns.Inv;
      answer := Dispatch(w, m);
    }

    method Dispatch(w: World, m: Message) returns (answer: Answer)
      requires Valid() && AsmRuns.Inv(cfg, Abs()) && cfg.maxHandles <= 256
      modifies this, nodes
      ensures Valid() && (Abs(), answer) == Process(cfg, w, old(Abs()), m)
      ensures Grown()
    {
      UniqueHandles();
      hide Values, OnRegister, OnUnregister, OnSetState, Valid;
      hide AsmRuns.Inv, AsmArbitration.Unique;
      answer := Silent;
      match m {
        case MsgRegister(pid, event, status, resource) => answer := OnRegisterMsg(w, pid, event, status, resource);
        case MsgUnregister(handle, event) => OnUnregisterMsg(w, handle, event);
        case MsgSetState(pid, handle, event, status, resource) =>
          answer := OnSetStateMsg(w, Request(SetState, pid, handle, event, status, resource));
        case _ => answer := DispatchRest(w, m);
      }
    }

    /** The messages that ask for a state, and the exit of a process. */
    method DispatchRest(w: World, m: Message) returns (answer: Answer)
      requires Valid() && AsmRuns.Inv(cfg, Abs()) && !m.MsgRegister? && !m.MsgUnregister? && !m.MsgSetState?
      modifies this, nodes
      ensures Valid() && (Abs(), answer) == Process(cfg, w, old(Abs()), m)
      ensures Grown()
    {
      UniqueHandles();
      hide Values, CheckDeadProcess, ProcessStatus, EmergentExit, HandleIndex, Valid;
      hide AsmRuns.Inv, AsmArbitration.Unique;
      answer := Silent;
      match m {
        case MsgGetState(handle) =>
          var status := FindState(handle);
          answer := StateIs(status);
        case MsgGetMyState(pid) => answer := OnGetMyStateMsg(w, pid);
        case MsgEmergentExit(pid) => ExitProcess(pid);
        case MsgDump =>
      }
    }

    method OnGetMyStateMsg(w: World, pid: int) returns (answer: Answer)
      requires Valid()
      modifies this`head, this`nodes, this`playing, this`paused, nodes`next
      ensures Valid() && Abs() == CheckDeadProcess(old(Abs()), w)
      ensures answer == StateIs(ProcessStatus(List(), pid, NoState))
      ensures forall i :: 0 <= i < |nodes| ==> nodes[i] in old(nodes)
    {
      hide Values, CheckDeadProcess, ProcessStatus, Valid;
      PurgeDeadProcesses(w);
      var status := FindProcessStatus(pid);
      answer := StateIs(status);
    }

    /** The server's loop, for as many messages as there are, and what it answers. */
    method Serve(run: seq<(Message, World)>) returns (answers: seq<Answer>)
      requires Valid() && Abs() == Initial && cfg.maxHandles <= 256
      modifies this, nodes
      ensures Valid() && Abs() == Run(cfg, run) && answers == Answers(cfg, run)
    {
      hide Values, Process, Valid, AsmRuns.Inv;
      AsmRuns.RunInv(cfg, []);
      Link0();
      var n := 0;
      answers := [];
      while n < |run|
        invariant 0 <= n <= |run| && Valid() && Grown() && |nodes| >= 1
        invariant Abs() == Run(cfg, run[..n]) && AsmRuns.Inv(cfg, Abs())
        invariant answers == Answers(cfg, run[..n])
      {
        var answer := ProcessMessage(run[n].1, run[n].0);
        Link0();
        assert run[..n + 1][..n] == run[..n];
        answers := answers + [answer];
        n := n + 1;
      }
      assert run[..n] == run;
    }

    lemma UniqueHandles()
      requires Valid() && AsmRuns.Inv(cfg, Abs())
      ensures AsmArbitration.Unique(List())
    {
    }
  }

  /** A monitor was sent STOP, and marked. */
  function Rung(w: World, s: State, pid: int, handle: int, source: Source, cause: Event, flag: bool): State {
    var s1 := Ring(w, s, pid, handle, CmdStop, source, Watcher, cause);
    var s2 := s1.(list := MarkDirty(s1.list, pid));
    if flag then s2.(list := SetResume(s2.list, pid, handle, true)) else s2
  }

  lemma StopMonitorRings(w: World, s: State, pid: int, source: Source, cause: Event, flag: bool)
    ensures var m := MonitorOf(s.list, pid);
            StopMonitor(w, s, pid, source, cause, flag) ==
              if m < |s.list| && !s.list[m].monitorDirty then Rung(w, s, pid, s.list[m].handle, source, cause, flag) else s
  {
    hide MonitorOf, MarkDirty, SetResume, Ring;
  }

  /** `s` comes from `start` by unregistering some sounds of the process. */
  ghost predicate Exiting(start: State, s: State, pid: int) {
    && AsmArbitration.Unique(s.list) && |s.list| <= |start.list|
    && WithoutPid(start.list, pid) == WithoutPid(s.list, pid)
    && s == if |s.list| == |start.list| then start else Refresh(start.(list := s.list))
  }

  /** No sound of the process is among the first `k`. */
  ghost predicate Elsewhere(list: seq<Sound>, pid: int, k: nat) {
    k <= |list| && forall j :: 0 <= j < k ==> list[j].pid != pid
  }

  lemma ExitStart(s: State, pid: int)
    requires AsmArbitration.Unique(s.list)
    ensures Exiting(s, s, pid) && Elsewhere(s.list, pid, 0)
  {
  }

  lemma ExitLook(list: seq<Sound>, pid: int, k: nat)
    ensures Elsewhere(list, pid, 0)
    ensures k < |list| && list[k].pid != pid && Elsewhere(list, pid, k) ==> Elsewhere(list, pid, k + 1)
  {
  }

  /** With distinct handles, unregistering the handle of entry `k` removes that entry. */
  lemma ExitDrop(start: State, s: State, k: nat)
    requires k < |s.list| && Exiting(start, s, s.list[k].pid)
    ensures var t := Unregister(s, s.list[k].handle);
            |t.list| == |s.list| - 1 && Exiting(start, t, s.list[k].pid)
  {
    var list, pid := s.list, s.list[k].pid;
    var t := list[..k] + list[k + 1..];
    assert HandleIndex(list, list[k].handle) == k;
    assert AsmArbitration.Unique(t) by {
      forall i | 0 <= i < |t| ensures t[i] == list[if i < k then i else i + 1] { }
    }
    WithoutDrop(list, k, pid);
    hide WithoutPid, AsmArbitration.Unique, HandleIndex, MaskOf;
  }

  lemma {:induction false} WithoutDrop(list: seq<Sound>, k: nat, pid: int)
    requires k < |list| && list[k].pid == pid
    ensures WithoutPid(list[..k] + list[k + 1..], pid) == WithoutPid(list, pid)
  {
    var t := list[..k] + list[k + 1..];
    if k == 0 {
      assert t == list[1..];
    } else {
      WithoutDrop(list[1..], k - 1, pid);
      assert t[1..] == list[1..][..k - 1] + list[1..][k..];
    }
  }

  lemma {:induction false} WithoutNone(list: seq<Sound>, pid: int)
    requires forall j :: 0 <= j < |list| ==> list[j].pid != pid
    ensures WithoutPid(list, pid) == list
  {
    if list != [] { WithoutNone(list[1..], pid); }
  }

  lemma ExitDone(start: State, s: State, pid: int)
    requires Exiting(start, s, pid) && Elsewhere(s.list, pid, |s.list|)
    ensures s == EmergentExit(start, pid)
  {
    WithoutNone(s.list, pid);
    hide WithoutPid, AsmArbitration.Unique, MaskOf;
  }

  /** The first `k` sounds of `list` have survived the purge of `all`, the others are
      still to be looked at. */
  ghost predicate Purged(all: seq<Sound>, list: seq<Sound>, k: nat, w: World)
    requires k <= |list|
  {
    Survivors(all, w) == list[..k] + Survivors(list[k..], w)
  }

  lemma PurgedStart(all: seq<Sound>, w: World)
    ensures Purged(all, all, 0, w)
  {
    assert all[0..] == all;
  }

  lemma PurgedDrop(all: seq<Sound>, list: seq<Sound>, k: nat, w: World)
    requires k < |list| && !PidExists(w, list[k].pid) && Purged(all, list, k, w)
    ensures Purged(all, list[..k] + list[k + 1..], k, w)
  {
    var t := list[..k] + list[k + 1..];
    assert t[..k] == list[..k] && t[k..] == list[k..][1..];
  }

  lemma PurgedKeep(all: seq<Sound>, list: seq<Sound>, k: nat, w: World)
    requires k < |list| && PidExists(w, list[k].pid) && Purged(all, list, k, w)
    ensures Purged(all, list, k + 1, w)
  {
    assert list[k..][1..] == list[k + 1..];
    assert list[..k + 1] == list[..k] + [list[k]];
  }

  lemma PurgedAll(all: seq<Sound>, list: seq<Sound>, w: World)
    requires Purged(all, list, |list|, w)
    ensures list == Survivors(all, w)
  {
    assert list[..|list|] == list && list[|list|..] == [];
  }

  function MaskUpTo(list: seq<Sound>, i: nat, status: Status): set<Event>
    requires i <= |list|
  {
    MaskOf(list[..i], status)
  }

  lemma MaskStart(list: seq<Sound>, status: Status)
    ensures MaskUpTo(list, 0, status) == {}
  {
  }

  lemma MaskStep(list: seq<Sound>, i: nat, status: Status)
    requires i < |list|
    ensures MaskUpTo(list, i + 1, status) ==
              MaskUpTo(list, i, status) + if list[i].state == status then {list[i].event} else {}
  {
    assert list[..i + 1][..i] == list[..i];
  }

  lemma MaskAll(list: seq<Sound>, status: Status)
    ensures MaskUpTo(list, |list|, status) == MaskOf(list, status)
  {
    assert list[..|list|] == list;
  }
}
