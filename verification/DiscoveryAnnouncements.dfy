/** When the registry asks a node, and what it knows of a node at any time. */
module DiscoveryAnnouncements {
  import opened Wrappers
  import opened Discovery
  import opened DiscoveryLiveness

  // ── asking ────────────────────────────────────────────────

  /** What the announcement says is not what the registry has. */
  predicate IsNews(s: Registry, a: Announcement) {
    !Listed(s, a.id) || Entry(s, a.id).rev != a.rev || Entry(s, a.id).address != a.address
  }

  /** One more call has begun, a fetch from the node that announced itself. */
  predicate BeginsAsking(s: Registry, t: Registry, a: Announcement) {
    |t.tasks| == |s.tasks| + 1 && t.tasks[..|s.tasks|] == s.tasks && t.tasks[|s.tasks|].Asking? && t.tasks[|s.tasks|].ann == a
  }

  /** An announcement is followed by a fetch if and only if it is news and nobody is asking its node already. */
  lemma AsksIff(s: Registry, a: Announcement)
    requires KeysMatch(s)
    ensures var t := Step(s, Announce(a));
      && (BeginsAsking(s, t, a) <==> a.id !in s.inflight && IsNews(s, a))
      && ((a.id !in s.inflight && IsNews(s, a)) || (t.tasks == s.tasks && t.inflight == s.inflight))
  {
    assert Listed(s, a.id) <==> a.id in s.nodes;
  }

  /** Either way a listed node is online from then on, and nothing else about it or about anyone else changes. */
  lemma AnnouncementShows(s: Registry, a: Announcement, id: NodeId)
    requires KeysMatch(s)
    ensures var t := Step(s, Announce(a));
      && (Listed(t, id) <==> Listed(s, id)) && t.nodes == s.nodes
      && (Listed(s, id) ==> Entry(t, id) == if id == a.id then Entry(s, id).(status := ONLINE, lastSeen := s.now) else Entry(s, id))
  {}

  // ── being answered ────────────────────────────────────────

  /** A description replaces all that was known; a refusal removes the node; without an answer only the address is new. */
  lemma AnswerShows(s: Registry, i: nat, f: Fetched)
    requires Shape(s) && i < |s.tasks| && s.tasks[i].Asking?
    ensures var (t, a) := (Step(s, Answer(i, f)), s.tasks[i].ann);
      && (Listed(t, a.id) <==> !f.Refused?) && a.id !in t.inflight
      && (f.Full? ==> Entry(t, a.id) == Node(a.id, ONLINE, s.now, f.rev, f.address, f.apps))
      && (f.Nothing? ==> var n := Entry(t, a.id); n.id == a.id && n.status == ONLINE && n.lastSeen == s.now && n.address == a.address && n.apps == [])
      && (forall id :: id != a.id ==> (Listed(t, id) <==> Listed(s, id)) && (Listed(s, id) ==> Entry(t, id) == Entry(s, id)))
  {
    hide OneFetchEach;
  }

  // ── what is known ─────────────────────────────────────────

  /** The revision known of a node after the event: that of its last description, or -1 if it came back without one. */
  function NextRev(s: Registry, e: Event, id: NodeId, known: int): int {
    if !e.Answer? || e.task >= |s.tasks| then known
    else
      match s.tasks[e.task]
      case Asking(a, existing) =>
        if a.id != id then known
        else if e.fetched.Full? then e.fetched.rev
        else if e.fetched.Nothing? && existing.None? then -1
        else known
      case Pinging(_, _, r, _) => if Listed(s, id) && s.nodes[id] == r && e.fetched.Full? then e.fetched.rev else known
      case _ => known
  }

  function KnownRev(s: Registry, es: seq<Event>, id: NodeId, known: int): int
    decreases |es|
  {
    if es == [] then known else KnownRev(Step(s, es[0]), es[1..], id, NextRev(s, es[0], id, known))
  }

  predicate AsksAbout(s: Registry, i: nat, id: NodeId) {
    i < |s.tasks| && s.tasks[i].Asking? && s.tasks[i].ann.id == id && s.tasks[i].existing.Some?
  }

  /** The list has this revision, and so have the objects that calls from this node still hold. */
  ghost predicate Knows(s: Registry, id: NodeId, known: int) {
    && (Listed(s, id) ==> Entry(s, id).rev == known)
    && forall i: nat :: AsksAbout(s, i, id) ==>
         var r := s.tasks[i].existing.value; r < |s.heap| && s.heap[r].id == id && s.heap[r].rev == known
  }

  /** No object of this node changes its revision, and no call about it begins but from the list. */
  lemma SameKnowledge(s: Registry, t: Registry, id: NodeId, known: int)
    requires Knows(s, id, known)
    requires |s.heap| <= |t.heap|
    requires forall r :: 0 <= r < |s.heap| && s.heap[r].id == id ==> t.heap[r].id == id && t.heap[r].rev == s.heap[r].rev
    requires id in t.nodes ==> id in s.nodes && t.nodes[id] == s.nodes[id]
    requires KeysMatch(s) && |t.tasks| >= |s.tasks|
    requires forall i: nat :: AsksAbout(t, i, id) ==>
      (AsksAbout(s, i, id) && t.tasks[i] == s.tasks[i]) || (Listed(s, id) && t.tasks[i].existing == Some(s.nodes[id]))
    ensures Knows(t, id, known)
  {}

  lemma SettleKeepsRevs(s: Registry, r: nat, age: int)
    ensures var t := Settle(s, r, age);
      && |t.heap| == |s.heap| && t.tasks == s.tasks && t.nodes == s.nodes
      && forall q :: 0 <= q < |s.heap| ==> t.heap[q].id == s.heap[q].id && t.heap[q].rev == s.heap[q].rev
  {
    hide Lost, NextStatus;
  }

  lemma TurnKnows(s: Registry, i: nat, id: NodeId, known: int)
    requires KeysMatch(s) && Knows(s, id, known) && i < |s.tasks| && s.tasks[i].Sweeping? && s.tasks[i].left != []
    ensures Knows(Step(s, Proceed(i)), id, known)
  {
    hide Settle, KeysMatch, Knows, NextStatus;
    var (at, r, left) := (s.tasks[i].at, s.tasks[i].left[0], s.tasks[i].left[1..]);
    var t := Step(s, Proceed(i));
    if r < |s.heap| { SettleKeepsRevs(Goto(s, i, Sweeping(at, left)), r, at - s.heap[r].lastSeen); }
    assert forall j: nat :: AsksAbout(t, j, id) ==> AsksAbout(s, j, id) && t.tasks[j] == s.tasks[j];
    SameKnowledge(s, t, id, known);
  }

  lemma PingKnows(s: Registry, i: nat, f: Fetched, id: NodeId, known: int)
    requires Shape(s) && Knows(s, id, known) && i < |s.tasks| && s.tasks[i].Pinging?
    ensures Knows(Step(s, Answer(i, f)), id, NextRev(s, Answer(i, f), id, known))
  {
    hide Settle;
    var (r, t) := (s.tasks[i].ref, Step(s, Answer(i, f)));
    assert r < |s.heap|;
    var u := Fetches(Goto(s, i, Sweeping(s.tasks[i].at, s.tasks[i].left)), s.heap[r].id, f).(inflight := s.inflight - {s.heap[r].id});
    SettleKeepsRevs(u, r, s.tasks[i].age);
    if s.heap[r].id == id { NobodyElseAsks(s, i, id); }
    hide OneFetchEach;
    assert forall j: nat :: AsksAbout(t, j, id) ==> AsksAbout(s, j, id) && t.tasks[j] == s.tasks[j];
  }

  lemma NobodyElseAsks(s: Registry, i: nat, id: NodeId)
    requires OneFetchEach(s) && i < |s.tasks| && FetchingFrom(s, i) == Some(id)
    ensures forall j: nat :: AsksAbout(s, j, id) ==> j == i
  {
    forall j: nat | AsksAbout(s, j, id) ensures j == i { assert FetchingFrom(s, j) == Some(id); }
  }

  lemma ToldKnows(s: Registry, i: nat, f: Fetched, id: NodeId, known: int)
    requires Shape(s) && Knows(s, id, known) && i < |s.tasks| && s.tasks[i].Asking?
    ensures Knows(Step(s, Answer(i, f)), id, NextRev(s, Answer(i, f), id, known))
  {
    var (a, t) := (s.tasks[i].ann, Step(s, Answer(i, f)));
    if a.id == id {
      assert FetchingFrom(s, i) == Some(id);
      NobodyElseAsks(s, i, id);
      assert s.tasks[i].existing.Some? ==> AsksAbout(s, i, id);
    }
    hide OneFetchEach;
    assert forall j: nat :: AsksAbout(t, j, id) ==> AsksAbout(s, j, id) && t.tasks[j] == s.tasks[j] && j != i;
  }

  lemma HeardKnows(s: Registry, a: Announcement, id: NodeId, known: int)
    requires KeysMatch(s) && Knows(s, id, known)
    ensures Knows(Step(s, Announce(a)), id, known)
  {}

  lemma MarkLostKnows(s: Registry, other: NodeId, id: NodeId, known: int)
    requires KeysMatch(s) && Knows(s, id, known)
    ensures Knows(MarkLost(s, other), id, known)
  {
    hide Lost;
  }

  lemma SweepKnows(s: Registry, order: seq<NodeId>, id: NodeId, known: int)
    requires Knows(s, id, known)
    ensures Knows(Step(s, Sweep(order)), id, known)
  {
    hide Refs;
    var t := Step(s, Sweep(order));
    assert forall j: nat :: AsksAbout(t, j, id) ==> AsksAbout(s, j, id) && t.tasks[j] == s.tasks[j];
  }

  lemma TickKnows(s: Registry, ms: nat, id: NodeId, known: int)
    requires Knows(s, id, known)
    ensures Knows(Step(s, Tick(ms)), id, known)
  {
    var t := Step(s, Tick(ms));
    assert forall j: nat :: AsksAbout(t, j, id) ==> AsksAbout(s, j, id);
  }

  lemma EndOfSweepKnows(s: Registry, i: nat, id: NodeId, known: int)
    requires Knows(s, id, known) && i < |s.tasks| && s.tasks[i].Sweeping?
    ensures Knows(Goto(s, i, Done), id, known)
  {
    var t := Goto(s, i, Done);
    assert forall j: nat :: AsksAbout(t, j, id) ==> AsksAbout(s, j, id) && t.tasks[j] == s.tasks[j];
  }

  lemma StepKnows(s: Registry, e: Event, id: NodeId, known: int)
    requires Shape(s) && Knows(s, id, known)
    ensures Knows(Step(s, e), id, NextRev(s, e, id, known))
  {
    assert KeysMatch(s);
    hide Knows, Shape, Heard, Told, Pinged, Turn, MarkLost, KeysMatch;
    match e
    case Tick(ms) => TickKnows(s, ms, id, known);
    case Announce(a) => HeardKnows(s, a, id, known);
    case Goodbye(other) => MarkLostKnows(s, other, id, known);
    case Sweep(order) => SweepKnows(s, order, id, known);
    case Proceed(i) =>
      if i < |s.tasks| && s.tasks[i].Sweeping? {
        if s.tasks[i].left == [] { EndOfSweepKnows(s, i, id, known); } else { TurnKnows(s, i, id, known); }
      }
    case Answer(i, f) =>
      if i < |s.tasks| && s.tasks[i].Asking? {
        ToldKnows(s, i, f, id, known);
      } else if i < |s.tasks| && s.tasks[i].Pinging? {
        PingKnows(s, i, f, id, known);
      }
  }

  lemma {:induction false} RunKnows(s: Registry, es: seq<Event>, id: NodeId, known: int)
    requires Inv(s) && Knows(s, id, known)
    ensures Knows(Run(s, es), id, KnownRev(s, es, id, known))
    decreases |es|
  {
    hide Step, Shape, Knows, NextRev;
    if es != [] {
      InvHasShape(s);
      StepKeeps(s, es[0]);
      StepKnows(s, es[0], id, known);
      RunKnows(Step(s, es[0]), es[1..], id, NextRev(s, es[0], id, known));
    }
  }

  lemma NothingKnown(limits: Limits, now: int, id: NodeId)
    ensures Inv(Start(limits, now)) && Knows(Start(limits, now), id, -1)
  {}

  /**
   * In every run the revision listed for a node is the one of its last description, or -1 if it was listed again without
   * one; so an announcement of another revision makes the registry ask, until a fetch has brought it.
   */
  lemma NewRevisionsAreFetched(limits: Limits, now: int, es: seq<Event>, a: Announcement)
    requires Listed(Run(Start(limits, now), es), a.id)
    ensures var (s, known) := (Run(Start(limits, now), es), KnownRev(Start(limits, now), es, a.id, -1));
      && Entry(s, a.id).rev == known
      && (a.rev != known && a.id !in s.inflight ==> BeginsAsking(s, Step(s, Announce(a)), a))
  {
    hide Run, Step, Start, KnownRev, Inv, BeginsAsking;
    NothingKnown(limits, now, a.id);
    RunKnows(Start(limits, now), es, a.id, -1);
    RunKeeps(Start(limits, now), es);
    InvHasShape(Run(Start(limits, now), es));
    AsksIff(Run(Start(limits, now), es), a);
  }

  // ── a node's turn in a sweep ──────────────────────────────

  /** How a node that is not asked, or does not answer, is shown: by the time since it was heard of. */
  predicate ShownByAge(s: Registry, t: Registry, id: NodeId, age: int)
    requires Listed(s, id)
  {
    Listed(t, id)
    && var (n, m) := (Entry(s, id), Entry(t, id));
       && m.lastSeen == n.lastSeen && m.rev == n.rev && m.address == n.address
       && (age < s.limits.online ==> m == n.(status := ONLINE))
       && (s.limits.online <= age < s.limits.unreachable ==> m == n.(status := UNREACHABLE))
       && (s.limits.online <= age && s.limits.unreachable <= age ==> m.status == OFFLINE)
  }

  /** A fetch from this node has begun. */
  predicate BeginsPinging(s: Registry, t: Registry, i: nat, id: NodeId)
    requires Listed(s, id)
  {
    i < |t.tasks| && t.tasks[i].Pinging? && t.tasks[i].ref == s.nodes[id] && t.inflight == s.inflight + {id} && t.heap == s.heap && t.nodes == s.nodes
  }

  /**
   * The turn of a listed node: forgotten when it has been silent for too long, left alone when it is offline, asked when
   * four fifths of its time online have passed and nobody is asking it, and otherwise shown by its age.
   */
  lemma TurnDecides(s: Registry, i: nat, id: NodeId)
    requires KeysMatch(s) && Listed(s, id) && i < |s.tasks| && s.tasks[i].Sweeping?
    requires s.tasks[i].left != [] && s.tasks[i].left[0] == s.nodes[id]
    ensures var (t, age) := (Step(s, Proceed(i)), s.tasks[i].at - Entry(s, id).lastSeen);
      if age > s.limits.purge then !Listed(t, id) && t.inflight == s.inflight
      else if Entry(s, id).status == OFFLINE then t.heap == s.heap && t.nodes == s.nodes && t.inflight == s.inflight
      else if age * 5 > s.limits.online * 4 && id !in s.inflight then BeginsPinging(s, t, i, id)
      else ShownByAge(s, t, id, age) && t.inflight == s.inflight
  {
    hide Lost;
  }

  /** The answer to a sweep's fetch: a description is taken over, and without one the age at the turn decides. */
  lemma PingDecides(s: Registry, i: nat, f: Fetched, id: NodeId)
    requires Shape(s) && Listed(s, id) && i < |s.tasks| && s.tasks[i].Pinging? && s.tasks[i].ref == s.nodes[id]
    ensures var t := Step(s, Answer(i, f));
      && id !in t.inflight
      && (if f.Full? then Listed(t, id) && Entry(t, id) == Node(id, ONLINE, s.now, f.rev, f.address, f.apps)
          else ShownByAge(s, t, id, s.tasks[i].age))
  {
    hide OneFetchEach, Lost;
  }

  /** A goodbye takes a node and its applications offline, and nobody else. */
  lemma GoodbyeShows(s: Registry, id: NodeId)
    requires KeysMatch(s) && Listed(s, id)
    ensures var t := Step(s, Goodbye(id));
      && t.nodes == s.nodes && Listed(t, id) && Entry(t, id).status == OFFLINE
      && (Entry(s, id).status != OFFLINE ==>
            |Entry(t, id).apps| == |Entry(s, id).apps|
            && forall k :: 0 <= k < |Entry(s, id).apps| ==> Entry(t, id).apps[k] == Entry(s, id).apps[k].(status := "OFFLINE"))
      && forall other :: other != id && Listed(s, other) ==> Listed(t, other) && Entry(t, other) == Entry(s, other)
  {
    LostIsOffline(Entry(s, id).apps);
    hide Lost;
  }

  lemma {:induction false} LostIsOffline(apps: seq<App>)
    ensures |Lost(apps)| == |apps| && forall k :: 0 <= k < |apps| ==> Lost(apps)[k] == apps[k].(status := "OFFLINE")
  {
    if apps != [] {
      LostIsOffline(apps[1..]);
      assert forall k :: 1 <= k < |apps| ==> Lost(apps)[k] == Lost(apps[1..])[k - 1];
    }
  }
}
