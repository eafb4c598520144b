/** Liveness of nodes: what sweeps do to a node that has gone silent, and when they go wrong. */
module DiscoveryLiveness {
  import opened Wrappers
  import opened Discovery

  /** How alive a node looks; not listed is the least. */
  function Rank(s: Registry, id: NodeId): int {
    if id !in s.nodes || s.nodes[id] >= |s.heap| then 0
    else match s.heap[s.nodes[id]].status
      case OFFLINE => 1
      case UNREACHABLE => 2
      case ONLINE => 3
  }

  predicate Active(t: Task) {
    t.Sweeping? || t.Pinging?
  }

  /** No sweep begins before the last one has ended, and no goodbye arrives from a node that is being fetched from. */
  predicate Calm(s: Registry, e: Event) {
    && (e.Sweep? ==> forall i :: 0 <= i < |s.tasks| ==> !Active(s.tasks[i]))
    && (e.Goodbye? ==> e.id !in s.inflight)
  }

  /** One sweep at a time, the one that began last, and whoever it is fetching from is not offline. */
  ghost predicate CalmInv(s: Registry) {
    && Shape(s) && s.lastSweep <= s.now
    && (forall i :: 0 <= i < |s.tasks| && s.tasks[i].Sweeping? ==> s.tasks[i].at == s.lastSweep)
    && (forall i :: 0 <= i < |s.tasks| && s.tasks[i].Pinging? ==> s.tasks[i].at == s.lastSweep && Up(s, s.tasks[i].ref))
    && (forall i, j :: 0 <= i < j < |s.tasks| && Active(s.tasks[i]) ==> !Active(s.tasks[j]))
  }

  predicate Up(s: Registry, r: nat) {
    r < |s.heap| && s.heap[r].status != OFFLINE
  }

  // ── offline nodes come back by announcing themselves ──────

  lemma MarkLostSpares(s: Registry, id: NodeId, r: nat)
    requires KeysMatch(s) && Up(s, r) && s.heap[r].id != id
    ensures Up(MarkLost(s, id), r)
  {}

  lemma PingedIsInFlight(s: Registry, i: nat)
    requires Shape(s) && i < |s.tasks| && s.tasks[i].Pinging?
    ensures s.tasks[i].ref < |s.heap| && s.heap[s.tasks[i].ref].id in s.inflight
  {
    assert FetchingFrom(s, i).Some?;
  }

  /** Only the list of calls moves on. */
  lemma CalmTasks(s: Registry, t: Registry, i: nat)
    requires CalmInv(s) && Shape(t) && i < |s.tasks| == |t.tasks| && t.lastSweep == s.lastSweep && t.now == s.now
    requires forall j :: 0 <= j < |s.tasks| && j != i ==> t.tasks[j] == s.tasks[j]
    requires Active(t.tasks[i]) ==> Active(s.tasks[i]) && t.tasks[i].at == s.lastSweep
    requires t.tasks[i].Pinging? ==> Up(t, t.tasks[i].ref)
    requires forall j :: 0 <= j < |s.tasks| && j != i && s.tasks[j].Pinging? ==> Up(t, s.tasks[j].ref)
    ensures CalmInv(t)
  {}

  lemma CalmHeap(s: Registry, t: Registry)
    requires CalmInv(s) && Shape(t) && t.tasks == s.tasks && t.lastSweep == s.lastSweep && s.now <= t.now
    requires forall j :: 0 <= j < |s.tasks| && s.tasks[j].Pinging? ==> Up(t, s.tasks[j].ref)
    ensures CalmInv(t)
  {}

  lemma HeardIsCalm(s: Registry, a: Announcement)
    requires CalmInv(s)
    ensures CalmInv(Heard(s, a))
  {
    hide Shape;
    HeardKeepsShape(s, a);
  }

  lemma GoodbyeIsCalm(s: Registry, id: NodeId)
    requires CalmInv(s) && id !in s.inflight
    ensures CalmInv(MarkLost(s, id))
  {
    hide Shape, MarkLost;
    StepKeepsShape(s, Goodbye(id));
    MarkLostKeepsIds(s, id);
    assert KeysMatch(s) by { ShapeParts(s); }
    forall j | 0 <= j < |s.tasks| && s.tasks[j].Pinging? ensures Up(MarkLost(s, id), s.tasks[j].ref) {
      PingedIsInFlight(s, j);
      MarkLostSpares(s, id, s.tasks[j].ref);
    }
    SameClock(s, id);
    CalmHeap(s, MarkLost(s, id));
  }

  lemma ShapeParts(s: Registry)
    requires Shape(s)
    ensures KeysMatch(s)
  {}

  lemma SameClock(s: Registry, id: NodeId)
    ensures MarkLost(s, id).now == s.now && MarkLost(s, id).lastSweep == s.lastSweep
  {}

  lemma OthersAreIdle(s: Registry, i: nat)
    requires CalmInv(s) && i < |s.tasks| && Active(s.tasks[i])
    ensures forall j :: 0 <= j < |s.tasks| && j != i ==> !Active(s.tasks[j])
  {}

  lemma SettleFrame(s: Registry, r: nat, age: int)
    ensures var t := Settle(s, r, age);
      t.tasks == s.tasks && t.now == s.now && t.lastSweep == s.lastSweep && t.nodes == s.nodes && t.inflight == s.inflight
      && t.limits == s.limits && |t.heap| == |s.heap|
  {}

  lemma TurnIsCalm(s: Registry, i: nat, r: nat, left: seq<nat>)
    requires CalmInv(s) && i < |s.tasks| && s.tasks[i].Sweeping?
    ensures CalmInv(Turn(s, i, s.tasks[i].at, r, left))
  {
    hide Shape, Settle;
    var at := s.tasks[i].at;
    TurnKeepsShape(s, i, at, r, left);
    OthersAreIdle(s, i);
    if r < |s.heap| { SettleFrame(Goto(s, i, Sweeping(at, left)), r, at - s.heap[r].lastSeen); }
    CalmTasks(s, Turn(s, i, at, r, left), i);
  }

  lemma AnswerIsCalm(s: Registry, i: nat, f: Fetched)
    requires CalmInv(s) && i < |s.tasks|
    ensures CalmInv(Step(s, Answer(i, f)))
  {
    hide Shape, Settle;
    StepKeepsShape(s, Answer(i, f));
    var t := Step(s, Answer(i, f));
    if s.tasks[i].Pinging? {
      OthersAreIdle(s, i);
      var r := s.tasks[i].ref;
      if r < |s.heap| {
        SettleFrame(Fetches(Goto(s, i, Sweeping(s.tasks[i].at, s.tasks[i].left)), s.heap[r].id, f)
                    .(inflight := s.inflight - {s.heap[r].id}), r, s.tasks[i].age);
      }
      CalmTasks(s, t, i);
    } else if s.tasks[i].Asking? {
      CalmTasks(s, t, i);
    }
  }

  lemma CalmStep(s: Registry, e: Event)
    requires CalmInv(s) && Calm(s, e)
    ensures CalmInv(Step(s, e))
  {
    hide Shape, Heard, MarkLost, Turn, Refs, Told, Pinged;
    match e
    case Tick(ms) => StepKeepsShape(s, e); CalmHeap(s, Step(s, e));
    case Announce(a) => HeardIsCalm(s, a);
    case Goodbye(id) => GoodbyeIsCalm(s, id);
    case Sweep(order) => StepKeepsShape(s, e);
    case Proceed(i) =>
      if i < |s.tasks| && s.tasks[i].Sweeping? {
        if s.tasks[i].left == [] {
          StepKeepsShape(s, e);
          CalmTasks(s, Step(s, e), i);
        } else {
          TurnIsCalm(s, i, s.tasks[i].left[0], s.tasks[i].left[1..]);
        }
      }
    case Answer(i, f) => if i < |s.tasks| { AnswerIsCalm(s, i, f); }
  }

  predicate AnnouncementOf(s: Registry, e: Event, id: NodeId) {
    || (e.Announce? && e.ann.id == id)
    || (e.Answer? && e.task < |s.tasks| && s.tasks[e.task].Asking? && s.tasks[e.task].ann.id == id)
  }

  predicate Listed(s: Registry, id: NodeId) {
    id in s.nodes && s.nodes[id] < |s.heap|
  }

  function Entry(s: Registry, id: NodeId): Node
    requires Listed(s, id)
  {
    s.heap[s.nodes[id]]
  }

  /** Not listed any more, lost, or just as before. */
  predicate SameOrLess(s: Registry, t: Registry, id: NodeId)
    requires Listed(s, id)
  {
    id in t.nodes ==>
      && Listed(t, id) && t.nodes[id] == s.nodes[id]
      && (Entry(t, id) == Entry(s, id) || Entry(t, id) == Entry(s, id).(status := OFFLINE, apps := Lost(Entry(s, id).apps)))
  }

  /** What happens to a listed node in a step that is not an announcement of it. */
  predicate Fate(s: Registry, e: Event, id: NodeId)
    requires Listed(s, id)
  {
    var t, r := Step(s, e), s.nodes[id];
    || SameOrLess(s, t, id)
    || (Listed(t, id) && t.nodes[id] == r && Entry(t, id).lastSeen == Entry(s, id).lastSeen
        && (|| (e.Proceed? && e.task < |s.tasks| && s.tasks[e.task].Sweeping? && Entry(s, id).status != OFFLINE
                && Entry(t, id).status == NextStatus(s.limits, s.tasks[e.task].at - Entry(s, id).lastSeen))
            || (e.Answer? && e.task < |s.tasks| && s.tasks[e.task].Pinging? && s.tasks[e.task].ref == r
                && Entry(t, id).status == NextStatus(s.limits, s.tasks[e.task].age))))
    || (e.Answer? && e.fetched.Full? && e.task < |s.tasks| && s.tasks[e.task].Pinging? && s.tasks[e.task].ref == r)
  }

  lemma HeardElsewhere(s: Registry, a: Announcement, id: NodeId)
    requires KeysMatch(s) && Listed(s, id) && a.id != id
    ensures SameOrLess(s, Heard(s, a), id)
  {}

  lemma ToldElsewhere(s: Registry, a: Announcement, existing: Option<nat>, f: Fetched, id: NodeId)
    requires Listed(s, id) && a.id != id
    ensures SameOrLess(s, Told(s, a, existing, f), id)
  {}

  lemma MarkLostAnyone(s: Registry, other: NodeId, id: NodeId)
    requires KeysMatch(s) && Listed(s, id)
    ensures SameOrLess(s, MarkLost(s, other), id)
  {}

  lemma TurnFate(s: Registry, i: nat, id: NodeId)
    requires KeysMatch(s) && Listed(s, id) && i < |s.tasks| && s.tasks[i].Sweeping? && s.tasks[i].left != []
    ensures Fate(s, Proceed(i), id)
  {}

  lemma PingedFate(s: Registry, i: nat, f: Fetched, id: NodeId)
    requires CalmInv(s) && Listed(s, id) && i < |s.tasks| && s.tasks[i].Pinging?
    ensures Fate(s, Answer(i, f), id)
  {}

  lemma StepFate(s: Registry, e: Event, id: NodeId)
    requires CalmInv(s) && Listed(s, id) && !AnnouncementOf(s, e, id)
    ensures Fate(s, e, id)
  {
    hide Heard, MarkLost, Turn, Refs, Told, Pinged, OneFetchEach, NextStatus, Lost;
    match e
    case Tick(_) =>
    case Announce(a) => HeardElsewhere(s, a, id);
    case Goodbye(other) => MarkLostAnyone(s, other, id);
    case Sweep(_) =>
    case Proceed(i) =>
      if i < |s.tasks| && s.tasks[i].Sweeping? && s.tasks[i].left != [] { TurnFate(s, i, id); }
    case Answer(i, f) =>
      if i < |s.tasks| && s.tasks[i].Asking? {
        ToldElsewhere(Goto(s, i, Done), s.tasks[i].ann, s.tasks[i].existing, f, id);
      } else if i < |s.tasks| && s.tasks[i].Pinging? { PingedFate(s, i, f, id); }
  }

  /** One step of a calm run: only an announcement of an offline node makes it look alive. */
  lemma OfflineStep(s: Registry, e: Event, id: NodeId)
    requires CalmInv(s) && Calm(s, e) && Listed(s, id) && Entry(s, id).status == OFFLINE
    ensures Rank(Step(s, e), id) > Rank(s, id) ==> AnnouncementOf(s, e, id)
  {
    hide Step, Shape, Lost;
    if !AnnouncementOf(s, e, id) { StepFate(s, e, id); }
  }

  /** Every step of the run is calm. */
  ghost predicate AllCalm(s: Registry, es: seq<Event>)
    decreases |es|
  {
    es == [] || (Calm(s, es[0]) && AllCalm(Step(s, es[0]), es[1..]))
  }

  lemma StartIsCalm(limits: Limits, now: int)
    ensures CalmInv(Start(limits, now))
  {}

  lemma {:induction false} CalmRun(s: Registry, es: seq<Event>)
    requires CalmInv(s) && AllCalm(s, es)
    ensures CalmInv(Run(s, es))
    decreases |es|
  {
    hide CalmInv, Step, Calm;
    if es != [] {
      CalmStep(s, es[0]);
      CalmRun(Step(s, es[0]), es[1..]);
    }
  }

  /**
   * In every calm run a node that is offline stays so until it announces itself: whatever comes next, only an
   * announcement of it makes it look alive.
   */
  lemma OfflineUntilAnnounced(limits: Limits, now: int, es: seq<Event>, e: Event, id: NodeId)
    requires AllCalm(Start(limits, now), es) && Calm(Run(Start(limits, now), es), e)
    requires var s := Run(Start(limits, now), es); Listed(s, id) && Entry(s, id).status == OFFLINE
    ensures var s := Run(Start(limits, now), es); Rank(Step(s, e), id) > Rank(s, id) ==> AnnouncementOf(s, e, id)
  {
    hide Run, Step, Start, AllCalm, CalmInv, Rank, AnnouncementOf;
    StartIsCalm(limits, now);
    CalmRun(Start(limits, now), es);
    OfflineStep(Run(Start(limits, now), es), e, id);
  }

  // ── silent nodes only sink ────────────────────────────────

  /** The step brings no sign of life: no announcement, and a fetch from the node fails. */
  predicate Silent(s: Registry, e: Event, id: NodeId) {
    && !AnnouncementOf(s, e, id)
    && !(e.Answer? && e.fetched.Full? && e.task < |s.tasks| && s.tasks[e.task].Pinging?
         && s.tasks[e.task].ref < |s.heap| && s.heap[s.tasks[e.task].ref].id == id)
  }

  /** Nothing was heard from the node since the sweeps last looked at it. */
  ghost predicate Steady(s: Registry, id: NodeId) {
    && CalmInv(s)
    && (forall i :: 0 <= i < |s.tasks| && s.tasks[i].Asking? ==> s.tasks[i].ann.id != id)
    && (Listed(s, id) ==>
          && (Entry(s, id).status == UNREACHABLE ==> s.lastSweep - Entry(s, id).lastSeen >= s.limits.online)
          && (forall i :: 0 <= i < |s.tasks| && s.tasks[i].Pinging? && s.tasks[i].ref == s.nodes[id] ==>
                s.tasks[i].age == s.tasks[i].at - Entry(s, id).lastSeen))
  }

  /** Whoever is not being fetched from, and is not unreachable by an age that the last sweep no longer finds. */
  lemma QuietIsSteady(s: Registry, id: NodeId)
    requires CalmInv(s) && id !in s.inflight
    requires Listed(s, id) && Entry(s, id).status == UNREACHABLE ==> s.lastSweep - Entry(s, id).lastSeen >= s.limits.online
    ensures Steady(s, id)
  {
    assert KeysMatch(s);
    forall i | 0 <= i < |s.tasks| ensures FetchingFrom(s, i) != Some(id) {}
    assert forall i :: 0 <= i < |s.tasks| && s.tasks[i].Asking? ==> FetchingFrom(s, i) == Some(s.tasks[i].ann.id);
    if Listed(s, id) {
      assert forall i :: 0 <= i < |s.tasks| && s.tasks[i].Pinging? && s.tasks[i].ref == s.nodes[id] ==> FetchingFrom(s, i) == Some(id);
    }
  }

  /** What becomes of the calls in one step. */
  ghost predicate TasksMove(s: Registry, e: Event, t: Registry) {
    && t.limits == s.limits && t.lastSweep == (if e.Sweep? then s.now else s.lastSweep)
    && forall j :: 0 <= j < |t.tasks| ==>
      || (j < |s.tasks| && t.tasks[j] == s.tasks[j])
      || t.tasks[j].Done? || t.tasks[j].Sweeping?
      || (t.tasks[j].Asking? && e.Announce? && t.tasks[j].ann == e.ann)
      || (t.tasks[j].Pinging? && e.Proceed? && t.heap == s.heap && t.tasks[j].ref < |s.heap|
          && t.tasks[j].age == t.tasks[j].at - s.heap[t.tasks[j].ref].lastSeen)
  }

  lemma TurnTasks(s: Registry, i: nat, at: int, r: nat, left: seq<nat>)
    requires i < |s.tasks| && s.tasks[i].Sweeping? && s.tasks[i] == Sweeping(at, [r] + left)
    ensures TasksMove(s, Proceed(i), Turn(s, i, at, r, left))
  {}

  lemma AnswerTasks(s: Registry, i: nat, f: Fetched)
    ensures TasksMove(s, Answer(i, f), Step(s, Answer(i, f)))
  {}

  lemma StepTasks(s: Registry, e: Event)
    ensures TasksMove(s, e, Step(s, e))
  {
    hide Turn, Told, Pinged, Refs, Settle, Lost;
    match e
    case Tick(_) =>
    case Announce(a) =>
    case Goodbye(id) =>
    case Sweep(_) =>
    case Proceed(i) =>
      if i < |s.tasks| && s.tasks[i].Sweeping? && s.tasks[i].left != [] {
        assert s.tasks[i].left == [s.tasks[i].left[0]] + s.tasks[i].left[1..];
        TurnTasks(s, i, s.tasks[i].at, s.tasks[i].left[0], s.tasks[i].left[1..]);
      }
    case Answer(i, f) => AnswerTasks(s, i, f);
  }

  lemma SilentStep(s: Registry, e: Event, id: NodeId)
    requires Steady(s, id) && Calm(s, e) && Silent(s, e, id)
    ensures Steady(Step(s, e), id) && Rank(Step(s, e), id) <= Rank(s, id)
  {
    hide Step, Shape, Lost;
    var t := Step(s, e);
    CalmStep(s, e);
    StepTasks(s, e);
    if Listed(s, id) {
      assert s.heap[s.nodes[id]].id == id by { ShapeParts(s); }
      StepFate(s, e, id);
    } else {
      StaysUnlisted(s, e, id);
    }
  }

  lemma StaysUnlisted(s: Registry, e: Event, id: NodeId)
    requires Shape(s) && !Listed(s, id) && !AnnouncementOf(s, e, id)
    ensures !Listed(Step(s, e), id)
  {}

  ghost predicate AllSilent(s: Registry, es: seq<Event>, id: NodeId)
    decreases |es|
  {
    es == [] || (Calm(s, es[0]) && Silent(s, es[0], id) && AllSilent(Step(s, es[0]), es[1..], id))
  }

  /** From a steady state on, in steps. */
  lemma {:induction false} SilentSteps(s: Registry, es: seq<Event>, id: NodeId)
    requires Steady(s, id) && AllSilent(s, es, id)
    ensures Rank(Run(s, es), id) <= Rank(s, id)
    decreases |es|
  {
    hide Steady, Step, Rank;
    if es != [] {
      SilentStep(s, es[0], id);
      SilentSteps(Step(s, es[0]), es[1..], id);
    }
  }

  /**
   * In every calm run, from any point at which the node is not being fetched from and is shown as the last sweep found
   * it: while it is silent and out of reach it never looks more alive than before.
   */
  lemma SilentNodesSink(limits: Limits, now: int, es: seq<Event>, more: seq<Event>, id: NodeId)
    requires AllCalm(Start(limits, now), es) && id !in Run(Start(limits, now), es).inflight
    requires var s := Run(Start(limits, now), es);
      Listed(s, id) && Entry(s, id).status == UNREACHABLE ==> s.lastSweep - Entry(s, id).lastSeen >= limits.online
    requires AllSilent(Run(Start(limits, now), es), more, id)
    ensures var s := Run(Start(limits, now), es); Rank(Run(s, more), id) <= Rank(s, id)
  {
    hide Run, AllCalm, CalmInv, AllSilent, Rank, Steady;
    StartIsCalm(limits, now);
    CalmRun(Start(limits, now), es);
    LimitsStay(Start(limits, now), es);
    QuietIsSteady(Run(Start(limits, now), es), id);
    SilentSteps(Run(Start(limits, now), es), more, id);
  }

  lemma {:induction false} LimitsStay(s: Registry, es: seq<Event>)
    ensures Run(s, es).limits == s.limits
    decreases |es|
  {
    hide Step;
    if es != [] {
      StepTasks(s, es[0]);
      LimitsStay(Step(s, es[0]), es[1..]);
    }
  }

  // ── where it goes wrong ───────────────────────────────────

  /** An age by which the node would look more alive than it does. */
  predicate Lifting(s: Registry, id: NodeId, age: int)
    requires Listed(s, id)
  {
    || (Entry(s, id).status == UNREACHABLE && age < s.limits.online)
    || (Entry(s, id).status == OFFLINE && NextStatus(s.limits, age) != OFFLINE)
  }

  /** A turn's end lifts a node exactly when it judges by an age that is younger than what the node already shows. */
  lemma SettleLiftsIff(s: Registry, id: NodeId, age: int)
    requires KeysMatch(s) && Listed(s, id)
    ensures Rank(Settle(s, s.nodes[id], age), id) > Rank(s, id) <==> Lifting(s, id, age)
  {}

  /** The event ends the turn of object `r` in a sweep, without a description of it, and judges it by this age. */
  predicate EndsTurn(s: Registry, e: Event, r: nat, age: int) {
    r < |s.heap|
    && match e
       case Proceed(i) =>
         && i < |s.tasks| && s.tasks[i].Sweeping? && s.tasks[i].left != [] && s.tasks[i].left[0] == r
         && age == s.tasks[i].at - s.heap[r].lastSeen
         && age <= s.limits.purge && s.heap[r].status != OFFLINE && !WantsPing(s, r, age)
       case Answer(i, f) =>
         i < |s.tasks| && s.tasks[i].Pinging? && s.tasks[i].ref == r && s.tasks[i].age == age && !f.Full?
       case _ => false
  }

  lemma LessNeverLifts(s: Registry, t: Registry, id: NodeId)
    requires Listed(s, id) && SameOrLess(s, t, id)
    ensures Rank(t, id) <= Rank(s, id)
  {
    hide Lost;
  }

  lemma ProceedLiftsIff(s: Registry, i: nat, id: NodeId)
    requires KeysMatch(s) && Listed(s, id)
    ensures Rank(Step(s, Proceed(i)), id) > Rank(s, id) <==>
      exists age :: EndsTurn(s, Proceed(i), s.nodes[id], age) && Lifting(s, id, age)
  {
    hide Settle, Lost;
    var r := s.nodes[id];
    if i < |s.tasks| && s.tasks[i].Sweeping? && s.tasks[i].left != [] {
      var (at, left) := (s.tasks[i].at, s.tasks[i].left[1..]);
      var (u, q) := (Goto(s, i, Sweeping(at, left)), s.tasks[i].left[0]);
      if q == r {
        SettleLiftsIff(u, id, at - s.heap[r].lastSeen);
        assert EndsTurn(s, Proceed(i), r, at - s.heap[r].lastSeen) ==> Turn(s, i, at, q, left) == Settle(u, r, at - s.heap[r].lastSeen);
      } else if q < |s.heap| {
        SettleElsewhere(u, q, at - s.heap[q].lastSeen, id);
        LessNeverLifts(u, Settle(u, q, at - s.heap[q].lastSeen), id);
      }
    }
  }

  lemma SettleElsewhere(s: Registry, q: nat, age: int, id: NodeId)
    requires KeysMatch(s) && Listed(s, id) && s.nodes[id] != q
    ensures SameOrLess(s, Settle(s, q, age), id)
  {
    hide MarkLost;
    if q < |s.heap| { MarkLostAnyone(s, s.heap[q].id, id); }
  }

  lemma AnswerLiftsIff(s: Registry, i: nat, f: Fetched, id: NodeId)
    requires KeysMatch(s) && Listed(s, id) && Silent(s, Answer(i, f), id) && i < |s.tasks| && s.tasks[i].Pinging?
    ensures Rank(Step(s, Answer(i, f)), id) > Rank(s, id) <==>
      exists age :: EndsTurn(s, Answer(i, f), s.nodes[id], age) && Lifting(s, id, age)
  {
    hide Settle, Lost;
    var (r, q, age) := (s.nodes[id], s.tasks[i].ref, s.tasks[i].age);
    if q < |s.heap| {
      var u := Fetches(Goto(s, i, Sweeping(s.tasks[i].at, s.tasks[i].left)), s.heap[q].id, f).(inflight := s.inflight - {s.heap[q].id});
      if q == r {
        SettleLiftsIff(u, id, age);
        assert EndsTurn(s, Answer(i, f), r, age);
      } else if !f.Full? {
        SettleElsewhere(u, q, age, id);
        LessNeverLifts(u, Settle(u, q, age), id);
      }
    }
  }

  /**
   * Exactly when a step that brings no sign of life makes a node look more alive: it ends a turn of this node and judges
   * by an age that is younger than what the node already shows.
   */
  lemma SilentStepLiftsIff(s: Registry, e: Event, id: NodeId)
    requires Shape(s) && Listed(s, id) && Silent(s, e, id)
    ensures Rank(Step(s, e), id) > Rank(s, id) <==> exists age :: EndsTurn(s, e, s.nodes[id], age) && Lifting(s, id, age)
  {
    hide Heard, MarkLost, Turn, Refs, Told, Pinged, OneFetchEach, NextStatus, Lost, Rank;
    match e
    case Tick(_) => LessNeverLifts(s, Step(s, e), id);
    case Announce(a) => HeardElsewhere(s, a, id); LessNeverLifts(s, Step(s, e), id);
    case Goodbye(other) => MarkLostAnyone(s, other, id); LessNeverLifts(s, Step(s, e), id);
    case Sweep(_) => LessNeverLifts(s, Step(s, e), id);
    case Proceed(i) => ProceedLiftsIff(s, i, id);
    case Answer(i, f) =>
      if i < |s.tasks| && s.tasks[i].Pinging? {
        AnswerLiftsIff(s, i, f, id);
      } else {
        if i < |s.tasks| && s.tasks[i].Asking? {
          ToldElsewhere(Goto(s, i, Done), s.tasks[i].ann, s.tasks[i].existing, f, id);
        }
        LessNeverLifts(s, Step(s, e), id);
      }
  }

  /** The step lifts a node that it brings no sign of life from. */
  ghost predicate Lifts(s: Registry, e: Event, id: NodeId) {
    Listed(s, id) && exists age :: EndsTurn(s, e, s.nodes[id], age) && Lifting(s, id, age)
  }

  /** No event of the stretch brings a sign of life. */
  ghost predicate Unheard(s: Registry, es: seq<Event>, id: NodeId)
    decreases |es|
  {
    es == [] || (Silent(s, es[0], id) && Unheard(Step(s, es[0]), es[1..], id))
  }

  ghost predicate NothingLifts(s: Registry, es: seq<Event>, id: NodeId)
    decreases |es|
  {
    es == [] || (!Lifts(s, es[0], id) && NothingLifts(Step(s, es[0]), es[1..], id))
  }

  /** The node never looks more alive than one step before. */
  ghost predicate OnlySinks(s: Registry, es: seq<Event>, id: NodeId)
    decreases |es|
  {
    es == [] || (Rank(Step(s, es[0]), id) <= Rank(s, id) && OnlySinks(Step(s, es[0]), es[1..], id))
  }

  lemma SilentRises(s: Registry, e: Event, id: NodeId)
    requires Shape(s) && Silent(s, e, id)
    ensures Rank(Step(s, e), id) > Rank(s, id) <==> Lifts(s, e, id)
  {
    hide Step, Shape, EndsTurn, Lifting;
    if Listed(s, id) { SilentStepLiftsIff(s, e, id); } else { StaysUnlisted(s, e, id); }
  }

  lemma {:induction false} UnheardSinks(s: Registry, es: seq<Event>, id: NodeId)
    requires Inv(s) && Unheard(s, es, id)
    ensures OnlySinks(s, es, id) <==> NothingLifts(s, es, id)
    decreases |es|
  {
    hide Step, Rank, Lifts, Silent, Shape;
    if es != [] {
      assert Shape(s) by { InvHasShape(s); }
      SilentRises(s, es[0], id);
      StepKeeps(s, es[0]);
      UnheardSinks(Step(s, es[0]), es[1..], id);
    }
  }

  lemma InvHasShape(s: Registry)
    requires Inv(s)
    ensures Shape(s)
  {}

  /**
   * And so in every run, whether sweeps overlap or not: in a stretch without a sign of life from it a node only sinks,
   * if and only if no step of the stretch ends a turn of it by an age that is too young.
   */
  lemma UnheardSinksIff(limits: Limits, now: int, es: seq<Event>, more: seq<Event>, id: NodeId)
    requires Unheard(Run(Start(limits, now), es), more, id)
    ensures var s := Run(Start(limits, now), es); OnlySinks(s, more, id) <==> NothingLifts(s, more, id)
  {
    hide Run, Unheard, OnlySinks, NothingLifts;
    RunKeeps(Start(limits, now), es);
    UnheardSinks(Run(Start(limits, now), es), more, id);
  }
}
