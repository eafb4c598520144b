/** Runs of the registry, with its default limits and from its start, in which a sweep puts a node back that was not heard of. */
module DiscoveryOverlap {
  import opened Wrappers
  import opened Discovery
  import opened DiscoveryLiveness

  const LIMITS: Limits := Limits(15_000, 60_000, 3_600_000)
  const START: Registry := Start(LIMITS, 0)

  /** Three nodes; `x` and `y` are slow to answer, `n` falls silent after its announcement. */
  const ALL: seq<NodeId> := ["x", "y", "n"]
  const REFS: seq<nat> := [0, 1, 2]

  function Hello(id: NodeId): Announcement {
    Announcement(id, 1, "a")
  }

  const DETAILS: Fetched := Full(1, "a", [])

  function Seen(id: NodeId, status: Status, lastSeen: int): Node {
    Node(id, status, lastSeen, 1, "a", [])
  }

  const LISTED: map<NodeId, nat> := map["x" := 0, "y" := 1, "n" := 2]

  /** All three nodes, last heard of at these times. */
  function Scene(now: int, x: int, y: int, n: Status, tasks: seq<Task>, inflight: set<NodeId>,
                 fetches: seq<(NodeId, seq<App>)>, lastSweep: int): Registry {
    Registry(LIMITS, now, [Seen("x", ONLINE, x), Seen("y", ONLINE, y), Seen("n", n, 1_000)], LISTED, inflight, tasks, fetches,
             lastSweep)
  }

  // ── runs in pieces ────────────────────────────────────────

  lemma {:induction false} RunConcat(s: Registry, a: seq<Event>, b: seq<Event>)
    ensures Run(s, a + b) == Run(Run(s, a), b)
    decreases |a|
  {
    hide Step;
    if a == [] {
      assert a + b == b;
    } else {
      assert (a + b)[1..] == a[1..] + b;
      RunConcat(Step(s, a[0]), a[1..], b);
    }
  }

  lemma RunOne(s: Registry, e: Event)
    ensures Run(s, [e]) == Step(s, e)
  {
    assert [e][1..] == [];
  }

  lemma RunThree(s: Registry, a: Event, b: Event, c: Event)
    ensures Run(s, [a, b, c]) == Step(Step(Step(s, a), b), c)
  {
    hide Step, Run;
    assert [a, b, c] == [a] + [b] + [c];
    RunConcat(s, [a] + [b], [c]);
    RunConcat(s, [a], [b]);
    RunOne(s, a);
    RunOne(Step(s, a), b);
    RunOne(Step(Step(s, a), b), c);
  }

  // ── the pieces ────────────────────────────────────────────

  const FETCHES: seq<(NodeId, seq<App>)> := [("x", []), ("y", []), ("n", [])]

  /** One node announces itself and is described. */
  function Introduced(s: Registry, id: NodeId): Registry {
    s.(heap := s.heap + [Seen(id, ONLINE, s.now)], nodes := s.nodes[id := |s.heap|], tasks := s.tasks + [Done],
       fetches := s.fetches + [(id, [])])
  }

  lemma Introduces(s: Registry, id: NodeId)
    requires id !in s.nodes && s.inflight == {}
    ensures Step(Step(s, Announce(Hello(id))), Answer(|s.tasks|, DETAILS)) == Introduced(s, id)
  {
    var t := Step(s, Announce(Hello(id)));
    assert t == s.(inflight := {id}, tasks := s.tasks + [Asking(Hello(id), None)]);
    assert {id} - {id} == {};
    assert t.tasks[|s.tasks| := Done] == s.tasks + [Done];
  }

  /** At one second all three are listed. */
  const INTRO: seq<Event> :=
    [Tick(1_000)] + [Announce(Hello("x")), Answer(0, DETAILS)] + [Announce(Hello("y")), Answer(1, DETAILS)]
    + [Announce(Hello("n")), Answer(2, DETAILS)]

  lemma RunIntroduces(s: Registry, id: NodeId, i: nat)
    requires id !in s.nodes && s.inflight == {} && i == |s.tasks|
    ensures Run(s, [Announce(Hello(id)), Answer(i, DETAILS)]) == Introduced(s, id)
  {
    hide Step;
    assert [Announce(Hello(id)), Answer(i, DETAILS)] == [Announce(Hello(id))] + [Answer(i, DETAILS)];
    RunConcat(s, [Announce(Hello(id))], [Answer(i, DETAILS)]);
    RunOne(s, Announce(Hello(id)));
    RunOne(Step(s, Announce(Hello(id))), Answer(i, DETAILS));
    Introduces(s, id);
  }

  lemma AllIntroduced()
    ensures Run(START, INTRO) == Scene(1_000, 1_000, 1_000, ONLINE, [Done, Done, Done], {}, FETCHES, 0)
  {
    hide Step, Run;
    var t := START.(now := 1_000);
    var (a, b, c) := ([Announce(Hello("x")), Answer(0, DETAILS)], [Announce(Hello("y")), Answer(1, DETAILS)],
                      [Announce(Hello("n")), Answer(2, DETAILS)]);
    RunConcat(START, [Tick(1_000)] + a + b, c);
    RunConcat(START, [Tick(1_000)] + a, b);
    RunConcat(START, [Tick(1_000)], a);
    RunOne(START, Tick(1_000));
    Ticks(START, 1_000);
    RunIntroduces(t, "x", 0);
    RunIntroduces(Introduced(t, "x"), "y", 1);
    RunIntroduces(Introduced(Introduced(t, "x"), "y"), "n", 2);
    var u := Introduced(Introduced(Introduced(t, "x"), "y"), "n");
    assert u.heap == Scene(1_000, 1_000, 1_000, ONLINE, [], {}, [], 0).heap;
    assert u.nodes == LISTED && u.tasks == [Done, Done, Done] && u.fetches == FETCHES;
    assert INTRO == [Tick(1_000)] + a + b + c;
    assert Run(START, INTRO) == u;
  }

  lemma Ticks(s: Registry, ms: nat)
    ensures Step(s, Tick(ms)) == s.(now := s.now + ms)
  {}

  lemma Sweeps(s: Registry)
    requires s.nodes == LISTED
    ensures Step(s, Sweep(ALL)) == s.(tasks := s.tasks + [Sweeping(s.now, REFS)], lastSweep := s.now)
  {
    assert ALL[1..] == ["y", "n"] && ["y", "n"][1..] == ["n"] && ["n"][1..] == [];
    assert Refs(s, ["n"]) == [2] + Refs(s, []);
    assert Refs(s, ["y", "n"]) == [1] + Refs(s, ["n"]);
    assert Refs(s, ALL) == [0] + Refs(s, ["y", "n"]);
    assert [0] + ([1] + ([2] + [])) == REFS;
  }

  predicate SweepsNext(s: Registry, i: nat, at: int, r: nat, left: seq<nat>) {
    i < |s.tasks| && r < |s.heap| && s.tasks[i] == Sweeping(at, [r] + left)
  }

  /** A turn of a node that was heard of lately. */
  lemma QuickTurn(s: Registry, i: nat, at: int, r: nat, left: seq<nat>)
    requires SweepsNext(s, i, at, r, left) && s.limits == LIMITS
    requires s.heap[r].status == ONLINE && at - s.heap[r].lastSeen <= 12_000
    ensures Step(s, Proceed(i)) == Goto(s, i, Sweeping(at, left))
  {
    assert ([r] + left)[1..] == left;
  }

  lemma LastTurn(s: Registry, i: nat, at: int)
    requires i < |s.tasks| && s.tasks[i] == Sweeping(at, [])
    ensures Step(s, Proceed(i)) == Goto(s, i, Done)
  {}

  /** A turn of a node whose beacons have stopped. */
  lemma PingTurn(s: Registry, i: nat, at: int, r: nat, left: seq<nat>)
    requires SweepsNext(s, i, at, r, left) && s.limits == LIMITS
    requires s.heap[r].status == ONLINE && 12_000 < at - s.heap[r].lastSeen < 3_600_000 && s.heap[r].id !in s.inflight
    ensures Step(s, Proceed(i)) == Goto(s, i, Pinging(at, at - s.heap[r].lastSeen, r, left)).(inflight := s.inflight + {s.heap[r].id})
  {
    assert ([r] + left)[1..] == left;
  }

  /** A turn of a node that another sweep is asking already. */
  lemma BusyTurn(s: Registry, i: nat, at: int, r: nat, left: seq<nat>)
    requires SweepsNext(s, i, at, r, left) && s.limits == LIMITS
    requires s.heap[r].status == ONLINE && 15_000 <= at - s.heap[r].lastSeen < 60_000 && s.heap[r].id in s.inflight
    ensures Step(s, Proceed(i)) == Goto(s, i, Sweeping(at, left)).(heap := s.heap[r := s.heap[r].(status := UNREACHABLE)])
  {
    assert ([r] + left)[1..] == left;
  }

  /** A sweep that finds nothing to do. */
  function IdleSweep(i: nat): seq<Event> {
    [Sweep(ALL)] + [Proceed(i), Proceed(i), Proceed(i)] + [Proceed(i)]
  }

  lemma IdleSweeps(s: Registry)
    requires s.nodes == LISTED && s.limits == LIMITS && |s.heap| == 3
    requires forall r :: 0 <= r < 3 ==> s.heap[r].status == ONLINE && s.now - s.heap[r].lastSeen <= 12_000
    ensures Run(s, IdleSweep(|s.tasks|)) == s.(tasks := s.tasks + [Done], lastSweep := s.now)
  {
    hide Step, Run;
    var i, at := |s.tasks|, s.now;
    var t := s.(tasks := s.tasks + [Sweeping(at, REFS)], lastSweep := at);
    RunConcat(s, [Sweep(ALL)] + [Proceed(i), Proceed(i), Proceed(i)], [Proceed(i)]);
    RunConcat(s, [Sweep(ALL)], [Proceed(i), Proceed(i), Proceed(i)]);
    RunOne(s, Sweep(ALL));
    Sweeps(s);
    RunThree(t, Proceed(i), Proceed(i), Proceed(i));
    QuickTurn(t, i, at, 0, [1, 2]);
    QuickTurn(Goto(t, i, Sweeping(at, [1, 2])), i, at, 1, [2]);
    QuickTurn(Goto(Goto(t, i, Sweeping(at, [1, 2])), i, Sweeping(at, [2])), i, at, 2, []);
    var u := Goto(Goto(Goto(t, i, Sweeping(at, [1, 2])), i, Sweeping(at, [2])), i, Sweeping(at, []));
    RunOne(u, Proceed(i));
    LastTurn(u, i, at);
    assert Goto(u, i, Done).tasks == s.tasks + [Done];
  }

  // ── the run ───────────────────────────────────────────────

  const FIVE: seq<Task> := [Done, Done, Done, Done, Done]
  const MORE: seq<(NodeId, seq<App>)> := FETCHES + [("x", [])]
  const MOST: seq<(NodeId, seq<App>)> := MORE + [("y", [])]

  /** At fifteen seconds a sweep asks `x`, at twenty the next one is due. */
  function Asks(now: int): Registry {
    Scene(now, 1_000, 1_000, ONLINE, FIVE + [Pinging(15_000, 14_000, 0, [1, 2])], {"x"}, FETCHES, 15_000)
  }

  const ASKS_Y: Registry := Scene(17_400, 17_400, 1_000, ONLINE, FIVE + [Pinging(15_000, 14_000, 1, [2])], {"y"}, MORE, 15_000)
  const ASKS_N: Registry := Scene(19_800, 17_400, 19_800, ONLINE, FIVE + [Pinging(15_000, 14_000, 2, [])], {"n"}, MOST, 15_000)
  const DEMOTED: Registry :=
    Scene(20_000, 17_400, 19_800, UNREACHABLE, FIVE + [Pinging(15_000, 14_000, 2, []), Done], {"n"}, MOST, 20_000)

  lemma QuietSweeps(s: Registry, i: nat, ms: nat)
    requires i == |s.tasks| && s.nodes == LISTED && s.limits == LIMITS && |s.heap| == 3
    requires forall r :: 0 <= r < 3 ==> s.heap[r].status == ONLINE && s.now + ms - s.heap[r].lastSeen <= 12_000
    ensures Run(s, [Tick(ms)] + IdleSweep(i)) == s.(now := s.now + ms, tasks := s.tasks + [Done], lastSweep := s.now + ms)
  {
    hide Step, Run, IdleSweep;
    RunConcat(s, [Tick(ms)], IdleSweep(i));
    RunOne(s, Tick(ms));
    Ticks(s, ms);
    IdleSweeps(s.(now := s.now + ms));
  }

  lemma BeginsAsking()
    ensures Run(Scene(10_000, 1_000, 1_000, ONLINE, FIVE, {}, FETCHES, 10_000), [Tick(5_000), Sweep(ALL), Proceed(5)]) == Asks(15_000)
  {
    hide Step, Run;
    var s := Scene(10_000, 1_000, 1_000, ONLINE, FIVE, {}, FETCHES, 10_000);
    RunThree(s, Tick(5_000), Sweep(ALL), Proceed(5));
    Ticks(s, 5_000);
    Sweeps(s.(now := 15_000));
    var t := s.(now := 15_000, tasks := FIVE + [Sweeping(15_000, REFS)], lastSweep := 15_000);
    PingTurn(t, 5, 15_000, 0, [1, 2]);
    assert Goto(t, 5, Pinging(15_000, 14_000, 0, [1, 2])).tasks == Asks(15_000).tasks;
  }

  /** The answer to the first fetch of a sweep that goes on at once. */
  lemma AnswersSlowly(s: Registry, r: nat, left: seq<nat>)
    requires |s.tasks| == 6 && s.tasks[5] == Pinging(15_000, 14_000, r, left) && r < |s.heap|
    ensures Step(s, Answer(5, DETAILS)) ==
      s.(tasks := s.tasks[5 := Sweeping(15_000, left)], fetches := s.fetches + [(s.heap[r].id, [])],
         inflight := s.inflight - {s.heap[r].id},
         heap := s.heap[r := Node(s.heap[r].id, ONLINE, s.now, 1, "a", [])])
  {}

  lemma AsksYNext()
    ensures Run(Asks(15_000), [Tick(2_400), Answer(5, DETAILS), Proceed(5)]) == ASKS_Y
  {
    hide Step, Run;
    RunThree(Asks(15_000), Tick(2_400), Answer(5, DETAILS), Proceed(5));
    Ticks(Asks(15_000), 2_400);
    AnswersSlowly(Asks(17_400), 0, [1, 2]);
    var t := Scene(17_400, 17_400, 1_000, ONLINE, FIVE + [Sweeping(15_000, [1, 2])], {}, MORE, 15_000);
    assert {"x"} - {"x"} == {};
    assert Asks(17_400).heap[0 := Seen("x", ONLINE, 17_400)] == t.heap;
    assert Asks(17_400).tasks[5 := Sweeping(15_000, [1, 2])] == t.tasks;
    PingTurn(t, 5, 15_000, 1, [2]);
    assert Goto(t, 5, Pinging(15_000, 14_000, 1, [2])).tasks == ASKS_Y.tasks;
  }

  lemma AsksNNext()
    ensures Run(ASKS_Y, [Tick(2_400), Answer(5, DETAILS), Proceed(5)]) == ASKS_N
  {
    hide Step, Run;
    RunThree(ASKS_Y, Tick(2_400), Answer(5, DETAILS), Proceed(5));
    Ticks(ASKS_Y, 2_400);
    var s := ASKS_Y.(now := 19_800);
    AnswersSlowly(s, 1, [2]);
    var t := Scene(19_800, 17_400, 19_800, ONLINE, FIVE + [Sweeping(15_000, [2])], {}, MOST, 15_000);
    assert {"y"} - {"y"} == {};
    assert s.heap[1 := Seen("y", ONLINE, 19_800)] == t.heap && s.tasks[5 := Sweeping(15_000, [2])] == t.tasks;
    assert [2] + [] == [2];
    PingTurn(t, 5, 15_000, 2, []);
    assert Goto(t, 5, Pinging(15_000, 14_000, 2, [])).tasks == ASKS_N.tasks;
  }

  lemma SecondSweepDemotes()
    ensures Run(ASKS_N, [Tick(200), Sweep(ALL), Proceed(6)] + [Proceed(6), Proceed(6), Proceed(6)]) == DEMOTED
  {
    hide Step, Run;
    RunConcat(ASKS_N, [Tick(200), Sweep(ALL), Proceed(6)], [Proceed(6), Proceed(6), Proceed(6)]);
    RunThree(ASKS_N, Tick(200), Sweep(ALL), Proceed(6));
    Ticks(ASKS_N, 200);
    Sweeps(ASKS_N.(now := 20_000));
    var s := ASKS_N.(now := 20_000, tasks := ASKS_N.tasks + [Sweeping(20_000, REFS)], lastSweep := 20_000);
    QuickTurn(s, 6, 20_000, 0, [1, 2]);
    var t := Goto(s, 6, Sweeping(20_000, [1, 2]));
    RunThree(t, Proceed(6), Proceed(6), Proceed(6));
    QuickTurn(t, 6, 20_000, 1, [2]);
    var u := Goto(t, 6, Sweeping(20_000, [2]));
    assert [2] + [] == [2];
    BusyTurn(u, 6, 20_000, 2, []);
    var v := Goto(u, 6, Sweeping(20_000, [])).(heap := u.heap[2 := u.heap[2].(status := UNREACHABLE)]);
    LastTurn(v, 6, 20_000);
    assert Goto(v, 6, Done).tasks == DEMOTED.tasks && v.heap == DEMOTED.heap;
  }

  /** Until the sweep at fifteen seconds asks `x`. */
  const OPENING: seq<Event> :=
    INTRO + ([Tick(4_000)] + IdleSweep(3)) + ([Tick(5_000)] + IdleSweep(4)) + [Tick(5_000), Sweep(ALL), Proceed(5)]

  /** Until the second sweep has ended. */
  const STORY: seq<Event> :=
    OPENING + [Tick(2_400), Answer(5, DETAILS), Proceed(5)] + [Tick(2_400), Answer(5, DETAILS), Proceed(5)]
    + ([Tick(200), Sweep(ALL), Proceed(6)] + [Proceed(6), Proceed(6), Proceed(6)])

  lemma Opens()
    ensures Run(START, OPENING) == Asks(15_000)
  {
    hide Step, Run, IdleSweep;
    var (a, b, c) := (INTRO, [Tick(4_000)] + IdleSweep(3), [Tick(5_000)] + IdleSweep(4));
    RunConcat(START, a + b + c, [Tick(5_000), Sweep(ALL), Proceed(5)]);
    RunConcat(START, a + b, c);
    RunConcat(START, a, b);
    AllIntroduced();
    var s := Scene(1_000, 1_000, 1_000, ONLINE, [Done, Done, Done], {}, FETCHES, 0);
    QuietSweeps(s, 3, 4_000);
    var t := s.(now := 5_000, tasks := s.tasks + [Done], lastSweep := 5_000);
    QuietSweeps(t, 4, 5_000);
    assert t.tasks + [Done] == FIVE;
    BeginsAsking();
  }

  lemma StoryDemotes()
    ensures Run(START, STORY) == DEMOTED
  {
    hide Step, Run;
    var e := [Tick(2_400), Answer(5, DETAILS), Proceed(5)];
    RunConcat(START, OPENING + e + e, [Tick(200), Sweep(ALL), Proceed(6)] + [Proceed(6), Proceed(6), Proceed(6)]);
    RunConcat(START, OPENING + e, e);
    RunConcat(START, OPENING, e);
    Opens();
    AsksYNext();
    AsksNNext();
    SecondSweepDemotes();
  }

  /**
   * Three nodes announce themselves at one second and are not heard of again. The sweep at fifteen seconds asks them one
   * after the other; `x` and `y` take their time to answer, so it is still waiting for `n` when the sweep at twenty
   * seconds finds `n` unreachable. The fetch from `n` fails after two and a half seconds, and the first sweep puts `n`
   * back online. Nothing was ever heard from it.
   */
  lemma OverlappingSweepsLift()
    ensures Rank(Run(START, STORY), "n") == 2
    ensures Rank(Run(START, STORY + [Tick(2_300), Answer(5, Nothing)]), "n") == 3
  {
    hide Run;
    StoryDemotes();
    assert [Tick(2_300), Answer(5, Nothing)] == [Tick(2_300)] + [Answer(5, Nothing)];
    RunConcat(START, STORY, [Tick(2_300)] + [Answer(5, Nothing)]);
    RunConcat(DEMOTED, [Tick(2_300)], [Answer(5, Nothing)]);
    RunOne(DEMOTED, Tick(2_300));
    RunOne(DEMOTED.(now := 22_300), Answer(5, Nothing));
  }

  /**
   * The same beginning, without a second sweep. While it is being asked `x` says goodbye and is offline; then the fetch
   * fails, and the sweep puts it back online by the age it had before.
   */
  lemma GoodbyeDuringFetchLifts()
    ensures Rank(Run(START, OPENING + [Goodbye("x")]), "x") == 1
    ensures Rank(Run(START, OPENING + [Goodbye("x"), Answer(5, Nothing)]), "x") == 3
  {
    hide Run;
    Opens();
    RunConcat(START, OPENING, [Goodbye("x")]);
    assert OPENING + [Goodbye("x"), Answer(5, Nothing)] == OPENING + [Goodbye("x")] + [Answer(5, Nothing)];
    RunConcat(START, OPENING + [Goodbye("x")], [Answer(5, Nothing)]);
    RunOne(Asks(15_000), Goodbye("x"));
    RunOne(Step(Asks(15_000), Goodbye("x")), Answer(5, Nothing));
  }
}
