/** The registry's objects: nodes that are updated in place, and the methods between two awaits. */
module DiscoveryRegistry {
  import opened Wrappers
  import opened Discovery

  class RynkNode {
    const nodeId: NodeId
    var status: Status
    var lastSeen: int
    var rev: int
    var address: string
    var apps: seq<App>

    constructor (n: Node)
      ensures View() == n
    {
      nodeId, status, lastSeen, rev, address, apps := n.id, n.status, n.lastSeen, n.rev, n.address, n.apps;
    }

    function View(): Node
      reads this
    {
      Node(nodeId, status, lastSeen, rev, address, apps)
    }
  }

  class NodeRegistry {
    const limits: Limits
    var nodes: map<NodeId, RynkNode>
    var inflight: set<NodeId>
    /** Every node object there ever was, and what the objects amount to. */
    ghost var objects: seq<RynkNode>
    ghost var view: Registry

    ghost predicate Mirrors(heap: seq<Node>)
      reads `objects, objects
    {
      AreMirrored(objects, heap)
    }

    static ghost predicate AreMirrored(objs: seq<RynkNode>, heap: seq<Node>)
      reads objs
    {
      && |objs| == |heap| && (forall r :: 0 <= r < |heap| ==> objs[r].View() == heap[r])
      && (forall q, r :: 0 <= q < r < |objs| ==> objs[q] != objs[r])
    }

    ghost predicate Lists(m: map<NodeId, nat>)
      reads `objects, `nodes
    {
      && (forall id :: id in m <==> id in nodes)
      && (forall id :: id in m ==> m[id] < |objects| && nodes[id] == objects[m[id]])
    }

    ghost predicate Mirrored()
      reads this, objects
    {
      Mirrors(view.heap) && Lists(view.nodes) && inflight == view.inflight && limits == view.limits
    }

    /** Single fetches, keys that match and genuine applications, in every state of the object. */
    ghost predicate Valid()
      reads this, objects
    {
      Mirrored() && Inv(view)
    }

    constructor (limits: Limits, now: int)
      ensures Valid() && view == Start(limits, now) && objects == []
    {
      this.limits := limits;
      nodes, inflight, objects := map[], {}, [];
      view := Start(limits, now);
    }

    ghost predicate Is(n: RynkNode, r: nat)
      reads `objects
    {
      r < |objects| && objects[r] == n
    }

    /** Fields of one node object change; all other objects keep theirs. */
    method Assign(n: RynkNode, ghost r: nat, ghost heap: seq<Node>, status: Status, lastSeen: int, rev: int, address: string, apps: seq<App>)
      requires Mirrors(heap) && Is(n, r)
      modifies n
      ensures Mirrors(heap[r := Node(n.nodeId, status, lastSeen, rev, address, apps)])
      ensures n.View() == Node(n.nodeId, status, lastSeen, rev, address, apps)
    {
      n.status, n.lastSeen, n.rev, n.address, n.apps := status, lastSeen, rev, address, apps;
    }

    /** `onAnnouncement` up to its fetch; the answer says whether there is one. */
    method Announced(a: Announcement, now: int) returns (ask: bool)
      requires Valid() && now == view.now
      modifies this, objects
      ensures Valid() && objects == old(objects) && view == Step(old(view), Announce(a))
      ensures ask <==> |view.tasks| > |old(view).tasks|
      ensures ask <==> old(a.id !in inflight && (a.id in nodes ==> nodes[a.id].rev != a.rev || nodes[a.id].address != a.address))
    {
      hide AreMirrored, Inv;
      ghost var s := view;
      StepKeeps(s, Announce(a));
      ghost var existing: Option<nat> := None;
      if a.id in nodes {
        var n := nodes[a.id];
        ghost var r := s.nodes[a.id];
        existing := Some(r);
        MirrorsAt(s.heap, r);
        ghost var was := s.heap[r];
        Assign(n, r, s.heap, ONLINE, now, n.rev, n.address, n.apps);
        view := Put(s, r, was.(lastSeen := s.now, status := ONLINE));
        if n.rev == a.rev && n.address == a.address { return false; }
      }
      if a.id in inflight { return false; }
      inflight := inflight + {a.id};
      view := Ask(view, a, existing);
      return true;
    }

    lemma MirrorsAt(heap: seq<Node>, r: nat)
      requires Mirrors(heap) && r < |objects|
      ensures r < |heap| && objects[r].View() == heap[r]
    {}

    method MarkLost(id: NodeId)
      requires Mirrored()
      modifies `view, objects
      ensures Mirrored() && view == Discovery.MarkLost(old(view), id)
      ensures old(Valid()) ==> Valid()
    {
      hide AreMirrored, Lost, Inv;
      ghost var s := view;
      if Inv(s) { StepKeeps(s, Goodbye(id)); }
      if id !in nodes { return; }
      var n := nodes[id];
      ghost var r := s.nodes[id];
      MirrorsAt(s.heap, r);
      if n.status == OFFLINE { return; }
      Assign(n, r, s.heap, OFFLINE, n.lastSeen, n.rev, n.address, Lost(n.apps));
      view := Discovery.MarkLost(s, id);
    }

    static lemma MirrorsGrow(before: seq<RynkNode>, heap: seq<Node>, node: RynkNode, n: Node)
      requires AreMirrored(before, heap) && node !in before && node.View() == n
      ensures AreMirrored(before + [node], heap + [n])
    {}

    /** The rest of `onAnnouncement`, from the answer to its fetch. */
    method Answered(ghost i: nat, a: Announcement, existing: RynkNode?, ghost ref: Option<nat>, f: Fetched, now: int)
      requires Valid() && now == view.now && i < |view.tasks| && view.tasks[i] == Asking(a, ref)
      requires if ref.Some? then existing != null && Is(existing, ref.value) else existing == null
      modifies this
      ensures Valid() && view == Step(old(view), Answer(i, f))
    {
      hide AreMirrored, Inv;
      StepKeeps(view, Answer(i, f));
      ghost var s := Goto(view, i, Done);
      inflight := inflight - {a.id};
      if f.Refused? {
        nodes := nodes - {a.id};
        view := Told(s, a, ref, f);
        return;
      }
      if ref.Some? { MirrorsAt(s.heap, ref.value); }
      var n := if f.Full? then Node(a.id, ONLINE, now, f.rev, f.address, f.apps)
               else Node(a.id, ONLINE, now, if existing != null then existing.rev else -1, a.address, []);
      view := s.(inflight := s.inflight - {a.id});
      List(n);
      view := Told(s, a, ref, f);
    }

    /** A new object is listed under its node's id. */
    method List(n: Node)
      requires Mirrored()
      modifies `nodes, `objects, `view
      ensures Mirrored() && inflight == old(inflight)
      ensures view == old(view).(heap := old(view).heap + [n], nodes := old(view).nodes[n.id := |old(view).heap|])
    {
      hide AreMirrored;
      ghost var s, before := view, objects;
      var node := new RynkNode(n);
      objects := objects + [node];
      nodes := nodes[n.id := node];
      SameLength(before, s.heap);
      MirrorsGrow(before, s.heap, node, n);
      view := s.(heap := s.heap + [n], nodes := s.nodes[n.id := |s.heap|]);
    }

    static lemma SameLength(objs: seq<RynkNode>, heap: seq<Node>)
      requires AreMirrored(objs, heap)
      ensures |objs| == |heap|
    {}

    /** The end of a node's turn in a sweep, when nothing was fetched. */
    method EndTurn(n: RynkNode, ghost r: nat, age: int)
      requires Mirrored() && Is(n, r)
      modifies `view, objects
      ensures Mirrored() && view == Settle(old(view), r, age)
    {
      hide AreMirrored, Discovery.MarkLost, Inv;
      ghost var s := view;
      MirrorsAt(s.heap, r);
      var next := if age < limits.online then ONLINE else if age < limits.unreachable then UNREACHABLE else OFFLINE;
      if next != n.status {
        if next == OFFLINE {
          MarkLost(n.nodeId);
        } else {
          Assign(n, r, s.heap, next, n.lastSeen, n.rev, n.address, n.apps);
          view := Settle(s, r, age);
        }
      }
    }

    /** A node's turn in sweep `i` up to its fetch, if it comes to one. */
    method BeginTurn(n: RynkNode, ghost r: nat, at: int, ghost i: nat, ghost left: seq<nat>) returns (ping: bool)
      requires Valid() && Is(n, r) && i < |view.tasks| && view.tasks[i] == Sweeping(at, [r] + left)
      modifies this, objects
      ensures Valid() && view == Step(old(view), Proceed(i)) && objects == old(objects)
      ensures i < |view.tasks| && (ping <==> view.tasks[i].Pinging?)
    {
      hide AreMirrored, Settle, Inv;
      ghost var s := view;
      StepKeeps(s, Proceed(i));
      assert ([r] + left)[1..] == left;
      MirrorsAt(s.heap, r);
      var age := at - n.lastSeen;
      view := Goto(s, i, Sweeping(at, left));
      if age > limits.purge {
        nodes := nodes - {n.nodeId};
        view := view.(nodes := view.nodes - {n.nodeId});
        return false;
      }
      if n.status == OFFLINE { return false; }
      if 5 * age > 4 * limits.online && n.nodeId !in inflight {
        inflight := inflight + {n.nodeId};
        view := Turn(s, i, at, r, left);
        return true;
      }
      SettleTasks(view, r, age);
      EndTurn(n, r, age);
      return false;
    }

    lemma SettleTasks(s: Registry, r: nat, age: int)
      ensures Settle(s, r, age).tasks == s.tasks
    {}

    /** A node's turn from the answer to its fetch on. */
    method Pinged(ghost i: nat, n: RynkNode, ghost r: nat, ghost at: int, age: int, ghost left: seq<nat>,
                  f: Fetched, now: int)
      requires Valid() && Is(n, r) && now == view.now && i < |view.tasks| && view.tasks[i] == Pinging(at, age, r, left)
      modifies this, objects
      ensures Valid() && view == Step(old(view), Answer(i, f))
    {
      hide AreMirrored, Settle, Inv;
      StepKeeps(view, Answer(i, f));
      ghost var s := Goto(view, i, Sweeping(at, left));
      MirrorsAt(s.heap, r);
      inflight := inflight - {n.nodeId};
      view := Fetches(s, n.nodeId, f).(inflight := s.inflight - {n.nodeId});
      if f.Full? {
        Assign(n, r, s.heap, ONLINE, now, f.rev, f.address, f.apps);
        view := Discovery.Pinged(s, r, age, f);
        return;
      }
      EndTurn(n, r, age);
    }
  }
}
