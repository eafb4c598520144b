/**
 * The registry of other nodes. Announcements and sweeps stop at their fetches, and anything may happen until the
 * fetch is answered; goodbyes are immediate.
 */
module Discovery {
  import opened Wrappers

  type NodeId = string

  datatype Status = ONLINE | UNREACHABLE | OFFLINE

  datatype App = App(name: string, status: string)

  datatype Node = Node(id: NodeId, status: Status, lastSeen: int, rev: int, address: string, apps: seq<App>)

  datatype Announcement = Announcement(id: NodeId, rev: int, address: string)

  /** What a fetch brings. A description is signed by the key behind the id that was asked for. */
  datatype Fetched = Full(rev: int, address: string, apps: seq<App>) | Nothing | Refused

  datatype Limits = Limits(online: int, unreachable: int, purge: int)

  /** A call that has stopped at an await, or a sweep between two nodes; `at` is when the sweep began. */
  datatype Task =
    | Asking(ann: Announcement, existing: Option<nat>)
    | Sweeping(at: int, left: seq<nat>)
    | Pinging(at: int, age: int, ref: nat, left: seq<nat>)
    | Done

  /** Nodes are objects: `heap` holds them all, `nodes` those that are listed. `fetches` and `lastSweep` are history. */
  datatype Registry = Registry(
    limits: Limits,
    now: int,
    heap: seq<Node>,
    nodes: map<NodeId, nat>,
    inflight: set<NodeId>,
    tasks: seq<Task>,
    fetches: seq<(NodeId, seq<App>)>,
    lastSweep: int)

  datatype Event =
    | Tick(ms: nat)
    | Announce(ann: Announcement)
    | Goodbye(id: NodeId)
    | Sweep(order: seq<NodeId>)
    | Proceed(task: nat)
    | Answer(task: nat, fetched: Fetched)

  // ── pieces ────────────────────────────────────────────────

  function Put(s: Registry, r: nat, n: Node): Registry {
    if r < |s.heap| then s.(heap := s.heap[r := n]) else s
  }

  function Goto(s: Registry, i: nat, t: Task): Registry
    requires i < |s.tasks|
  {
    s.(tasks := s.tasks[i := t])
  }

  function Lost(apps: seq<App>): seq<App> {
    if apps == [] then [] else [apps[0].(status := "OFFLINE")] + Lost(apps[1..])
  }

  function MarkLost(s: Registry, id: NodeId): Registry {
    if id !in s.nodes || s.nodes[id] >= |s.heap| || s.heap[s.nodes[id]].status == OFFLINE then s
    else var r := s.nodes[id]; Put(s, r, s.heap[r].(status := OFFLINE, apps := Lost(s.heap[r].apps)))
  }

  function Fetches(s: Registry, id: NodeId, f: Fetched): Registry {
    if f.Full? then s.(fetches := s.fetches + [(id, f.apps)]) else s
  }

  /** An announcement up to its fetch. */
  function Heard(s: Registry, a: Announcement): Registry {
    if a.id in s.nodes && s.nodes[a.id] < |s.heap| then
      var r := s.nodes[a.id];
      var n := s.heap[r];
      var t := Put(s, r, n.(lastSeen := s.now, status := ONLINE));
      if n.rev == a.rev && n.address == a.address then t else Ask(t, a, Some(r))
    else Ask(s, a, None)
  }

  function Ask(s: Registry, a: Announcement, existing: Option<nat>): Registry {
    if a.id in s.inflight then s
    else s.(inflight := s.inflight + {a.id}, tasks := s.tasks + [Asking(a, existing)])
  }

  /** The rest of an announcement: a new object takes the place of the old one. */
  function Told(s: Registry, a: Announcement, existing: Option<nat>, f: Fetched): Registry {
    if f.Refused? then s.(nodes := s.nodes - {a.id}, inflight := s.inflight - {a.id})
    else
      var before := if existing.Some? && existing.value < |s.heap| then s.heap[existing.value].rev else -1;
      var n := if f.Full? then Node(a.id, ONLINE, s.now, f.rev, f.address, f.apps) else Node(a.id, ONLINE, s.now, before, a.address, []);
      Fetches(s, a.id, f).(heap := s.heap + [n], nodes := s.nodes[a.id := |s.heap|], inflight := s.inflight - {a.id})
  }

  function NextStatus(l: Limits, age: int): Status {
    if age < l.online then ONLINE else if age < l.unreachable then UNREACHABLE else OFFLINE
  }

  /** The end of a node's turn in a sweep, when nothing was fetched. */
  function Settle(s: Registry, r: nat, age: int): Registry {
    if r >= |s.heap| || NextStatus(s.limits, age) == s.heap[r].status then s
    else if NextStatus(s.limits, age) == OFFLINE then MarkLost(s, s.heap[r].id)
    else Put(s, r, s.heap[r].(status := NextStatus(s.limits, age)))
  }

  /** The end of a node's turn after its fetch. */
  function Pinged(s: Registry, r: nat, age: int, f: Fetched): Registry {
    if r >= |s.heap| then s
    else
      var n := s.heap[r];
      var t := Fetches(s, n.id, f).(inflight := s.inflight - {n.id});
      if f.Full? then Put(t, r, n.(rev := f.rev, address := f.address, apps := f.apps, lastSeen := s.now, status := ONLINE))
      else Settle(t, r, age)
  }

  /** Beacons have stopped for four fifths of the time a node counts as online, and nobody is asking it already. */
  predicate WantsPing(s: Registry, r: nat, age: int)
    requires r < |s.heap|
  {
    5 * age > 4 * s.limits.online && s.heap[r].id !in s.inflight
  }

  /** A node's turn in sweep `i`, which began at `at`. */
  function Turn(s: Registry, i: nat, at: int, r: nat, left: seq<nat>): Registry
    requires i < |s.tasks|
  {
    var t := Goto(s, i, Sweeping(at, left));
    if r >= |s.heap| then t
    else
      var n := s.heap[r];
      var age := at - n.lastSeen;
      if age > s.limits.purge then t.(nodes := t.nodes - {n.id})
      else if n.status == OFFLINE then t
      else if WantsPing(s, r, age) then Goto(s, i, Pinging(at, age, r, left)).(inflight := s.inflight + {n.id})
      else Settle(t, r, age)
  }

  function Refs(s: Registry, order: seq<NodeId>): seq<nat> {
    if order == [] then [] else (if order[0] in s.nodes then [s.nodes[order[0]]] else []) + Refs(s, order[1..])
  }

  function Step(s: Registry, e: Event): Registry {
    match e
    case Tick(ms) => s.(now := s.now + ms)
    case Announce(a) => Heard(s, a)
    case Goodbye(id) => MarkLost(s, id)
    case Sweep(order) => s.(tasks := s.tasks + [Sweeping(s.now, Refs(s, order))], lastSweep := s.now)
    case Proceed(i) =>
      if i >= |s.tasks| || !s.tasks[i].Sweeping? then s
      else if s.tasks[i].left == [] then Goto(s, i, Done)
      else Turn(s, i, s.tasks[i].at, s.tasks[i].left[0], s.tasks[i].left[1..])
    case Answer(i, f) =>
      if i >= |s.tasks| then s
      else match s.tasks[i]
        case Asking(a, existing) => Told(Goto(s, i, Done), a, existing, f)
        case Pinging(at, age, r, left) => Pinged(Goto(s, i, Sweeping(at, left)), r, age, f)
        case _ => s
  }

  function Run(s: Registry, es: seq<Event>): Registry
    decreases |es|
  {
    if es == [] then s else Run(Step(s, es[0]), es[1..])
  }

  function Start(limits: Limits, now: int): Registry {
    Registry(limits, now, [], map[], {}, [], [], now)
  }

  // ── invariants ────────────────────────────────────────────

  /** Whom a stopped call is fetching from. */
  function FetchingFrom(s: Registry, i: nat): Option<NodeId>
    requires i < |s.tasks|
  {
    match s.tasks[i]
    case Asking(a, _) => Some(a.id)
    case Pinging(_, _, r, _) => if r < |s.heap| then Some(s.heap[r].id) else None
    case _ => None
  }

  /** The keys of the list are the ids of the nodes behind them. */
  ghost predicate KeysMatch(s: Registry) {
    forall id :: id in s.nodes ==> s.nodes[id] < |s.heap| && s.heap[s.nodes[id]].id == id
  }

  ghost predicate RefsExist(s: Registry) {
    forall i :: 0 <= i < |s.tasks| ==> s.tasks[i].Pinging? ==> s.tasks[i].ref < |s.heap|
  }

  /** `inflight` is exact, and nobody is asked twice at the same time. */
  ghost predicate OneFetchEach(s: Registry) {
    && (forall i :: 0 <= i < |s.tasks| && FetchingFrom(s, i).Some? ==> FetchingFrom(s, i).value in s.inflight)
    && (forall id :: id in s.inflight ==> exists i :: 0 <= i < |s.tasks| && FetchingFrom(s, i) == Some(id))
    && (forall i, j :: 0 <= i < j < |s.tasks| && FetchingFrom(s, i).Some? ==> FetchingFrom(s, i) != FetchingFrom(s, j))
  }

  function Names(apps: seq<App>): seq<string> {
    if apps == [] then [] else [apps[0].name] + Names(apps[1..])
  }

  /** A successful fetch from this very node brought these applications. */
  ghost predicate Genuine(n: Node, fetches: seq<(NodeId, seq<App>)>) {
    n.apps == [] || exists k :: 0 <= k < |fetches| && fetches[k].0 == n.id && Names(fetches[k].1) == Names(n.apps)
  }

  ghost predicate AppsAreGenuine(s: Registry) {
    forall r :: 0 <= r < |s.heap| ==> Genuine(s.heap[r], s.fetches)
  }

  ghost predicate Inv(s: Registry) {
    KeysMatch(s) && RefsExist(s) && OneFetchEach(s) && AppsAreGenuine(s)
  }

  // ── who is being asked ────────────────────────────────────

  /** Objects keep their ids. */
  ghost predicate SameIds(s: Registry, t: Registry) {
    |s.heap| <= |t.heap| && forall r :: 0 <= r < |s.heap| ==> t.heap[r].id == s.heap[r].id
  }

  ghost predicate Shape(s: Registry) {
    KeysMatch(s) && RefsExist(s) && OneFetchEach(s)
  }

  /** Changing what nodes say about themselves, or dropping some from the list. */
  lemma SameShape(s: Registry, t: Registry)
    requires Shape(s) && SameIds(s, t) && t.tasks == s.tasks && t.inflight == s.inflight
    requires forall id :: id in t.nodes ==> id in s.nodes && t.nodes[id] == s.nodes[id]
    ensures Shape(t)
  {
    assert forall i :: 0 <= i < |s.tasks| ==> FetchingFrom(t, i) == FetchingFrom(s, i);
  }

  /** A call that was not fetching moves on without fetching, or a new one begins. */
  lemma NoFetch(s: Registry, i: nat, task: Task)
    requires Shape(s) && (task.Sweeping? || task.Done?)
    requires i < |s.tasks| ==> FetchingFrom(s, i) == None
    ensures i < |s.tasks| ==> Shape(Goto(s, i, task))
    ensures Shape(s.(tasks := s.tasks + [task]))
  {
    var t := s.(tasks := s.tasks + [task]);
    assert forall j :: 0 <= j < |s.tasks| ==> FetchingFrom(t, j) == FetchingFrom(s, j);
    if i < |s.tasks| {
      var u := Goto(s, i, task);
      assert forall j :: 0 <= j < |s.tasks| && j != i ==> FetchingFrom(u, j) == FetchingFrom(s, j);
      assert FetchingFrom(u, i) == None;
    }
  }

  lemma FetchBegins(s: Registry, i: nat, task: Task, id: NodeId, t: Registry)
    requires Shape(s) && id !in s.inflight
    requires task.Asking? ==> task.ann.id == id
    requires task.Pinging? ==> task.ref < |s.heap| && s.heap[task.ref].id == id
    requires task.Asking? || task.Pinging?
    requires i <= |s.tasks| && (i < |s.tasks| ==> FetchingFrom(s, i) == None)
    requires t == s.(inflight := s.inflight + {id}, tasks := if i < |s.tasks| then s.tasks[i := task] else s.tasks + [task])
    ensures Shape(t)
  {
    assert forall j :: 0 <= j < |s.tasks| && j != i ==> FetchingFrom(t, j) == FetchingFrom(s, j);
    assert FetchingFrom(t, i) == Some(id);
    forall x | x in t.inflight ensures exists j :: 0 <= j < |t.tasks| && FetchingFrom(t, j) == Some(x) {
      if x in s.inflight {
        var j :| 0 <= j < |s.tasks| && FetchingFrom(s, j) == Some(x);
        assert FetchingFrom(t, j) == Some(x);
      }
    }
  }

  lemma FetchEnds(s: Registry, i: nat, task: Task, id: NodeId)
    requires Shape(s) && i < |s.tasks| && FetchingFrom(s, i) == Some(id) && (task.Sweeping? || task.Done?)
    ensures Shape(Goto(s, i, task).(inflight := s.inflight - {id}))
  {
    var t := Goto(s, i, task).(inflight := s.inflight - {id});
    assert forall j :: 0 <= j < |s.tasks| && j != i ==> FetchingFrom(t, j) == FetchingFrom(s, j) != Some(id);
    assert FetchingFrom(t, i) == None;
    forall x | x in t.inflight ensures exists j :: 0 <= j < |t.tasks| && FetchingFrom(t, j) == Some(x) {
      var j :| 0 <= j < |s.tasks| && FetchingFrom(s, j) == Some(x);
      assert FetchingFrom(t, j) == Some(x);
    }
  }

  /** A new object is listed. */
  lemma NewNode(s: Registry, n: Node)
    requires Shape(s)
    ensures Shape(s.(heap := s.heap + [n], nodes := s.nodes[n.id := |s.heap|]))
  {
    var t := s.(heap := s.heap + [n], nodes := s.nodes[n.id := |s.heap|]);
    assert forall i :: 0 <= i < |s.tasks| ==> FetchingFrom(t, i) == FetchingFrom(s, i);
  }

  lemma MarkLostKeepsIds(s: Registry, id: NodeId)
    ensures SameIds(s, MarkLost(s, id)) && |MarkLost(s, id).heap| == |s.heap|
    ensures MarkLost(s, id).tasks == s.tasks && MarkLost(s, id).inflight == s.inflight && MarkLost(s, id).nodes == s.nodes
  {}

  lemma SettleKeepsShape(s: Registry, r: nat, age: int)
    requires Shape(s)
    ensures Shape(Settle(s, r, age))
  {
    hide Shape;
    if r < |s.heap| { MarkLostKeepsIds(s, s.heap[r].id); }
    SameShape(s, Settle(s, r, age));
  }

  lemma HeardKeepsShape(s: Registry, a: Announcement)
    requires Shape(s)
    ensures Shape(Heard(s, a))
  {
    hide Shape;
    var known := a.id in s.nodes && s.nodes[a.id] < |s.heap|;
    var r := if known then s.nodes[a.id] else 0;
    var t := if known then Put(s, r, s.heap[r].(lastSeen := s.now, status := ONLINE)) else s;
    SameShape(s, t);
    if a.id !in t.inflight {
      var existing := if known then Some(r) else None;
      FetchBegins(t, |t.tasks|, Asking(a, existing), a.id, Ask(t, a, existing));
    }
  }

  lemma ToldKeepsShape(s: Registry, i: nat, f: Fetched)
    requires Shape(s) && i < |s.tasks| && s.tasks[i].Asking?
    ensures Shape(Step(s, Answer(i, f)))
  {
    hide Shape;
    var a := s.tasks[i].ann;
    FetchEnds(s, i, Done, a.id);
    var t := Goto(s, i, Done).(inflight := s.inflight - {a.id});
    var u := Step(s, Answer(i, f));
    if f.Refused? {
      SameShape(t, u);
    } else {
      NewNode(t, u.heap[|s.heap|]);
      SameShape(t.(heap := u.heap, nodes := u.nodes), u);
    }
  }

  lemma PingedKeepsShape(s: Registry, i: nat, f: Fetched)
    requires Shape(s) && i < |s.tasks| && s.tasks[i].Pinging?
    ensures Shape(Step(s, Answer(i, f)))
  {
    var r := s.tasks[i].ref;
    assert r < |s.heap|;
    hide Shape;
    var id := s.heap[r].id;
    FetchEnds(s, i, Sweeping(s.tasks[i].at, s.tasks[i].left), id);
    var t := Goto(s, i, Sweeping(s.tasks[i].at, s.tasks[i].left)).(inflight := s.inflight - {id});
    SameShape(t, Fetches(t, id, f));
    SettleKeepsShape(t, r, s.tasks[i].age);
    SameShape(Fetches(t, id, f), Put(Fetches(t, id, f), r, s.heap[r]));
    if f.Full? { SameShape(t, Step(s, Answer(i, f))); }
  }

  lemma TurnKeepsShape(s: Registry, i: nat, at: int, r: nat, left: seq<nat>)
    requires Shape(s) && i < |s.tasks| && s.tasks[i].Sweeping?
    ensures Shape(Turn(s, i, at, r, left))
  {
    hide Shape;
    assert FetchingFrom(s, i) == None;
    NoFetch(s, i, Sweeping(at, left));
    var t := Goto(s, i, Sweeping(at, left));
    if r < |s.heap| {
      var n := s.heap[r];
      var age := at - n.lastSeen;
      if age > s.limits.purge {
        SameShape(t, Turn(s, i, at, r, left));
      } else if n.status != OFFLINE && WantsPing(s, r, age) {
        FetchBegins(s, i, Pinging(at, age, r, left), n.id, Turn(s, i, at, r, left));
      } else {
        SettleKeepsShape(t, r, age);
      }
    }
  }

  lemma StepKeepsShape(s: Registry, e: Event)
    requires Shape(s)
    ensures Shape(Step(s, e))
  {
    hide Shape, Heard, Told, Pinged, Turn, Refs, FetchingFrom;
    match e
    case Tick(ms) => SameShape(s, Step(s, e));
    case Announce(a) => HeardKeepsShape(s, a);
    case Goodbye(id) => MarkLostKeepsIds(s, id); SameShape(s, MarkLost(s, id));
    case Sweep(order) =>
      NoFetch(s, |s.tasks|, Sweeping(s.now, Refs(s, order)));
      SameShape(s.(tasks := s.tasks + [Sweeping(s.now, Refs(s, order))]), Step(s, e));
    case Proceed(i) =>
      if i < |s.tasks| && s.tasks[i].Sweeping? {
        NotFetching(s, i);
        if s.tasks[i].left == [] { NoFetch(s, i, Done); }
        else { TurnKeepsShape(s, i, s.tasks[i].at, s.tasks[i].left[0], s.tasks[i].left[1..]); }
      }
    case Answer(i, f) =>
      if i < |s.tasks| && s.tasks[i].Asking? { ToldKeepsShape(s, i, f); }
      else if i < |s.tasks| && s.tasks[i].Pinging? { PingedKeepsShape(s, i, f); }
  }

  lemma NotFetching(s: Registry, i: nat)
    requires i < |s.tasks| && s.tasks[i].Sweeping?
    ensures FetchingFrom(s, i) == None
  {}

  // ── where applications come from ──────────────────────────

  lemma {:induction false} LostKeepsNames(apps: seq<App>)
    ensures Names(Lost(apps)) == Names(apps) && (Lost(apps) == [] <==> apps == [])
  {
    if apps != [] {
      LostKeepsNames(apps[1..]);
      assert Lost(apps)[1..] == Lost(apps[1..]);
    }
  }

  lemma GenuineGrows(n: Node, fetches: seq<(NodeId, seq<App>)>, more: seq<(NodeId, seq<App>)>)
    requires Genuine(n, fetches)
    ensures Genuine(n, fetches + more)
  {
    if n.apps != [] {
      var k :| 0 <= k < |fetches| && fetches[k].0 == n.id && Names(fetches[k].1) == Names(n.apps);
      assert (fetches + more)[k] == fetches[k];
    }
  }

  lemma SameNames(n: Node, m: Node, fetches: seq<(NodeId, seq<App>)>)
    requires Genuine(n, fetches) && m.id == n.id && Names(m.apps) == Names(n.apps) && (m.apps == [] <==> n.apps == [])
    ensures Genuine(m, fetches)
  {}

  /** Each object is as before, or lost, or has just been fetched. */
  ghost predicate AppsMove(s: Registry, t: Registry, more: seq<(NodeId, seq<App>)>) {
    && t.fetches == s.fetches + more
    && forall r :: 0 <= r < |t.heap| ==>
      || (r < |s.heap| && t.heap[r].id == s.heap[r].id && (t.heap[r].apps == s.heap[r].apps || t.heap[r].apps == Lost(s.heap[r].apps)))
      || t.heap[r].apps == []
      || (more == [(t.heap[r].id, t.heap[r].apps)])
  }

  lemma AppsMoveIsGenuine(s: Registry, t: Registry, more: seq<(NodeId, seq<App>)>)
    requires AppsAreGenuine(s) && AppsMove(s, t, more)
    ensures AppsAreGenuine(t)
  {
    hide Names;
    forall r | 0 <= r < |t.heap| ensures Genuine(t.heap[r], t.fetches) {
      if r < |s.heap| && t.heap[r].id == s.heap[r].id && (t.heap[r].apps == s.heap[r].apps || t.heap[r].apps == Lost(s.heap[r].apps)) {
        LostKeepsNames(s.heap[r].apps);
        SameNames(s.heap[r], t.heap[r], s.fetches);
        GenuineGrows(t.heap[r], s.fetches, more);
      } else if t.heap[r].apps != [] {
        assert t.fetches[|s.fetches|] == (t.heap[r].id, t.heap[r].apps);
      }
    }
  }

  lemma SettleMovesApps(s: Registry, r: nat, age: int)
    ensures AppsMove(s, Settle(s, r, age), [])
  {}

  lemma StepMovesApps(s: Registry, e: Event)
    ensures exists more :: AppsMove(s, Step(s, e), more)
  {
    hide Lost, AppsMove, Refs;
    match e
    case Tick(_) => NothingMoves(s, Step(s, e));
    case Announce(a) => HeardMovesApps(s, a); assert AppsMove(s, Step(s, e), []);
    case Goodbye(id) => MarkLostMovesApps(s, id); assert AppsMove(s, Step(s, e), []);
    case Sweep(_) => NothingMoves(s, Step(s, e));
    case Proceed(i) =>
      if i < |s.tasks| && s.tasks[i].Sweeping? {
        if s.tasks[i].left == [] { NothingMoves(s, Step(s, e)); }
        else { TurnMovesApps(s, i, s.tasks[i].at, s.tasks[i].left[0], s.tasks[i].left[1..]); assert AppsMove(s, Step(s, e), []); }
      } else { NothingMoves(s, Step(s, e)); }
    case Answer(i, f) =>
      if i < |s.tasks| && s.tasks[i].Asking? { ToldMovesApps(s, i, f); }
      else if i < |s.tasks| && s.tasks[i].Pinging? { PingedMovesApps(s, i, f); }
      else { NothingMoves(s, Step(s, e)); }
  }

  lemma NothingMoves(s: Registry, t: Registry)
    requires t.heap == s.heap && t.fetches == s.fetches
    ensures AppsMove(s, t, [])
  {}

  lemma MarkLostMovesApps(s: Registry, id: NodeId)
    ensures AppsMove(s, MarkLost(s, id), [])
  {}

  lemma HeardMovesApps(s: Registry, a: Announcement)
    ensures AppsMove(s, Heard(s, a), [])
  {}

  lemma TurnMovesApps(s: Registry, i: nat, at: int, r: nat, left: seq<nat>)
    requires i < |s.tasks|
    ensures AppsMove(s, Turn(s, i, at, r, left), [])
  {}

  lemma ToldMovesApps(s: Registry, i: nat, f: Fetched)
    requires i < |s.tasks| && s.tasks[i].Asking?
    ensures exists more :: AppsMove(s, Step(s, Answer(i, f)), more)
  {
    hide Lost;
    assert AppsMove(s, Step(s, Answer(i, f)), if f.Full? then [(s.tasks[i].ann.id, f.apps)] else []);
  }

  lemma PingedMovesApps(s: Registry, i: nat, f: Fetched)
    requires i < |s.tasks| && s.tasks[i].Pinging?
    ensures exists more :: AppsMove(s, Step(s, Answer(i, f)), more)
  {
    hide Lost, Settle;
    var r, t := s.tasks[i].ref, Step(s, Answer(i, f));
    if r < |s.heap| {
      if f.Full? {
        assert AppsMove(s, t, [(s.heap[r].id, f.apps)]);
      } else {
        SettleMovesApps(Goto(s, i, Sweeping(s.tasks[i].at, s.tasks[i].left)).(inflight := s.inflight - {s.heap[r].id}), r, s.tasks[i].age);
        assert AppsMove(s, t, []);
      }
    } else {
      NothingMoves(s, t);
    }
  }

  lemma StepKeeps(s: Registry, e: Event)
    requires Inv(s)
    ensures Inv(Step(s, e))
  {
    hide Step, KeysMatch, RefsExist, OneFetchEach, AppsMove, AppsAreGenuine;
    StepKeepsShape(s, e);
    StepMovesApps(s, e);
    var more :| AppsMove(s, Step(s, e), more);
    AppsMoveIsGenuine(s, Step(s, e), more);
  }

  lemma {:induction false} RunKeeps(s: Registry, es: seq<Event>)
    requires Inv(s)
    ensures Inv(Run(s, es))
    decreases |es|
  {
    hide Step, Inv;
    if es != [] {
      StepKeeps(s, es[0]);
      RunKeeps(Step(s, es[0]), es[1..]);
    }
  }

  /**
   * Whatever announcements, goodbyes and overlapping sweeps do: nobody is asked twice at the same time, the list is
   * keyed by the nodes' own ids, and a listed node's applications came from a successful fetch from that node.
   */
  lemma EveryInterleaving(limits: Limits, now: int, es: seq<Event>)
    ensures var s := Run(Start(limits, now), es);
      && OneFetchEach(s) && KeysMatch(s)
      && forall id :: id in s.nodes ==> s.heap[s.nodes[id]].id == id && Genuine(s.heap[s.nodes[id]], s.fetches)
  {
    hide Run;
    RunKeeps(Start(limits, now), es);
  }
}
