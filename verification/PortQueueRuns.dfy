/** What the queue of port calls promises over whole runs. */
module PortQueueRuns {
  import opened Wrappers
  import opened Ports
  import opened PortQueue

  lemma StartIsGood(saved: map<ProjectId, nat>, range: Range)
    ensures Inv(Start(saved, range))
  {}

  /**
   * In every run no project holds two ports, the reservations are what the log of changes says, and the calls took
   * effect one at a time, in the order in which they were made: each call but a `peek` that answered a port has
   * exactly one entry, for that port.
   */
  lemma RunsAreSerial(saved: map<ProjectId, nat>, range: Range, es: seq<Event>)
    ensures var s := Run(Start(saved, range), es);
      && OnePort(s.reserved) && s.reserved == Replay(s.log) && CallOrder(s)
      && (forall i, p :: 0 <= i < |s.tasks| && s.tasks[i].phase == Settled(Ok(p)) && !s.tasks[i].job.Peek? ==>
            Took(i, Of(s, i), p) in s.log)
      && (forall a, b :: 0 <= a < b < |s.log| && s.log[a].Took? && s.log[b].Took? ==> s.log[a].task != s.log[b].task)
  {
    hide Replay, Step, Run;
    StartIsGood(saved, range);
    RunKeeps(Start(saved, range), es);
    var s := Run(Start(saved, range), es);
    forall i, p | 0 <= i < |s.tasks| && s.tasks[i].phase == Settled(Ok(p)) && !s.tasks[i].job.Peek?
      ensures Took(i, Of(s, i), p) in s.log
    {
      assert Answers(s, i, Of(s, i), p);
    }
  }

  /** Memory and store agree on every sticky port whenever no call is waiting for the store. */
  lemma RestartsFindThePorts(saved: map<ProjectId, nat>, range: Range, es: seq<Event>)
    requires var s := Run(Start(saved, range), es); forall i :: 0 <= i < |s.tasks| ==> !s.tasks[i].phase.Saving?
    ensures var s := Run(Start(saved, range), es);
      if s.loaded then s.saved == s.sticky else forall k :: k in s.sticky ==> k in s.saved && s.saved[k] == s.sticky[k]
  {
    hide Replay, Step, Run;
    StartIsGood(saved, range);
    RunKeeps(Start(saved, range), es);
  }

  /** At any moment of any run: no step of an `allocate` or a `peek` takes or gives another project's reservation. */
  lemma OthersKeepTheirs(s: Sys, i: nat, free: bool, other: ProjectId, p: nat)
    requires Inv(s) && Runnable(s, i) && !s.tasks[i].job.Adopt? && other != Of(s, i)
    ensures Holds(Advance(s, i, free).reserved, other, p) <==> Holds(s.reserved, other, p)
  {
    hide Replay, Commit, AfterLoad;
    if s.tasks[i].phase.Chosen? {
      CommitHolds(s.reserved, Of(s, i), s.tasks[i].phase.port);
    }
  }

  /** `adopt` does not look who holds the port: another project loses its reservation exactly when it held that port. */
  lemma AdoptEvictsTheHolder(s: Sys, i: nat, free: bool, other: ProjectId, p: nat)
    requires Inv(s) && Runnable(s, i) && s.tasks[i].job.Adopt? && s.tasks[i].phase.Waiting? && other != Of(s, i)
    requires Holds(s.reserved, other, p)
    ensures Holds(Advance(s, i, free).reserved, other, p) <==> p != s.tasks[i].job.port
  {}

  // ── strict calls ──────────────────────────────────────────

  ghost predicate Strict(j: Job) {
    j.Allocate? && j.wish.strict && j.wish.preferred.Some?
  }

  ghost predicate OnlyPreferred(t: Task) {
    Strict(t.job) ==>
      match t.phase
      case Trying(rest) => forall k :: 0 <= k < |rest| ==> rest[k] == t.job.wish.preferred.value
      case Probing(rest) => forall k :: 0 <= k < |rest| ==> rest[k] == t.job.wish.preferred.value
      case Chosen(p) => p == t.job.wish.preferred.value
      case Saving(p) => p == t.job.wish.preferred.value
      case Settled(r) => r.Ok? ==> r.value == t.job.wish.preferred.value
      case _ => true
  }

  lemma RepeatRepeats(p: int, n: nat)
    ensures forall k :: 0 <= k < |Repeat(p, n)| ==> Repeat(p, n)[k] == p
  {}

  lemma StrictPlan(last: Option<int>, w: Wish, range: Range)
    requires w.strict && w.preferred.Some?
    ensures forall k :: 0 <= k < |Plan(last, w, range)| ==> Plan(last, w, range)[k] == w.preferred.value
  {
    RepeatRepeats(w.preferred.value, if last == w.preferred then 5 else 1);
  }

  lemma StrictAdvance(s: Sys, i: nat, free: bool)
    requires Runnable(s, i) && OnlyPreferred(s.tasks[i])
    ensures OnlyPreferred(Advance(s, i, free).tasks[i])
  {
    hide Commit, Plan, Grantable;
    var w, last := WishOf(s.tasks[i].job), Last(Load(s), Of(s, i));
    if Strict(s.tasks[i].job) { StrictPlan(last, w, s.range); }
  }

  ghost predicate AllOnlyPreferred(s: Sys) {
    forall i :: 0 <= i < |s.tasks| ==> OnlyPreferred(s.tasks[i])
  }

  lemma StrictStep(s: Sys, e: Event)
    requires AllOnlyPreferred(s)
    ensures AllOnlyPreferred(Step(s, e))
  {
    hide OnlyPreferred, Advance, Without;
    match e
    case Call(job) => NewIsFine(job);
    case Proceed(i, free) => if Runnable(s, i) { StrictAdvance(s, i, free); }
    case Release(_) =>
  }

  /** Whatever else happens, a strict call answers the preferred port or fails. */
  lemma {:induction false} StrictIsStrict(s: Sys, es: seq<Event>)
    requires AllOnlyPreferred(s)
    ensures AllOnlyPreferred(Run(s, es))
    decreases |es|
  {
    hide AllOnlyPreferred, Step;
    if es != [] {
      StrictStep(s, es[0]);
      StrictIsStrict(Step(s, es[0]), es[1..]);
    }
  }

  lemma NewIsFine(j: Job)
    ensures OnlyPreferred(Task(j, Waiting))
  {}

  // ── a call that nobody disturbs ───────────────────────────

  /** The probe answers as `probe` says, and nothing is released meanwhile. */
  ghost predicate Undisturbed(s: Sys, es: seq<Event>, probe: int -> bool)
    decreases |es|
  {
    es == [] ||
    (&& !es[0].Release?
     && (es[0].Proceed? && es[0].task < |s.tasks| && s.tasks[es[0].task].phase.Probing? ==>
           s.tasks[es[0].task].phase.rest != [] && es[0].free == probe(s.tasks[es[0].task].phase.rest[0]))
     && Undisturbed(Step(s, es[0]), es[1..], probe))
  }

  /** What a call under way is going to answer. */
  ghost function Outcome(s: Sys, i: nat, probe: int -> bool): Result<int, PortError>
    requires i < |s.tasks|
  {
    var w := WishOf(s.tasks[i].job);
    match s.tasks[i].phase
    case Waiting => Err(PORT_UNAVAILABLE)
    case Loading =>
      var ph := AfterLoad(s.reserved, Last(Load(s), w.project), w, s.range);
      if ph.Chosen? then Ok(ph.port) else FirstAcceptable(Plan(Last(Load(s), w.project), w, s.range), s.reserved, w.project, probe)
    case Trying(rest) => FirstAcceptable(rest, s.reserved, w.project, probe)
    case Probing(rest) => FirstAcceptable(rest, s.reserved, w.project, probe)
    case Chosen(p) => Ok(p)
    case Saving(p) => Ok(p)
    case Settled(Ok(p)) => Ok(p)
    case Settled(Err(e)) => Err(e)
  }

  lemma AdvanceKeepsOutcome(s: Sys, i: nat, free: bool, probe: int -> bool)
    requires Runnable(s, i) && !s.tasks[i].phase.Waiting?
    requires s.tasks[i].phase.Probing? ==>
      var rest := s.tasks[i].phase.rest; rest != [] && Grantable(s.reserved, Of(s, i), rest[0]) && free == probe(rest[0])
    ensures !Advance(s, i, free).tasks[i].phase.Waiting? && Outcome(Advance(s, i, free), i, probe) == Outcome(s, i, probe)
  {
    hide Commit, Plan, KeepsOwn, Holds;
    var t := Advance(s, i, free);
    match s.tasks[i].phase
    case Loading => assert Outcome(t, i, probe) == Outcome(s, i, probe);
    case Trying(rest) => assert Outcome(t, i, probe) == Outcome(s, i, probe);
    case Probing(rest) => assert Outcome(t, i, probe) == Outcome(s, i, probe);
    case Chosen(p) => assert t.tasks[i].phase == Saving(p) || t.tasks[i].phase == Settled(Ok(p));
    case Saving(p) => assert t.tasks[i].phase == Settled(Ok(p));
  }

  lemma OutcomeStays(s: Sys, i: nat, e: Event, probe: int -> bool)
    requires Inv(s) && i < |s.tasks| && !s.tasks[i].phase.Waiting? && Undisturbed(s, [e], probe)
    ensures var t := Step(s, e);
      i < |t.tasks| && t.tasks[i].job == s.tasks[i].job && !t.tasks[i].phase.Waiting? && Outcome(t, i, probe) == Outcome(s, i, probe)
  {
    hide Replay, Commit, Plan, StickyKept, SavingKept, LogTrue, CallOrder, OnePort, FirstAcceptable, AfterLoad;
    if e.Proceed? && Runnable(s, e.task) {
      RunnableIsAlone(s, e.task);
      if e.task == i {
        AdvanceKeepsOutcome(s, i, e.free, probe);
      } else {
        assert i < e.task;
      }
    }
  }

  /**
   * A call that starts on the stored reservations and is not disturbed by a `release` answers what the documented
   * order of preference says for the moment it started, however many calls queue up behind it meanwhile.
   */
  lemma {:induction false} UndisturbedMeetsChoice(s: Sys, es: seq<Event>, i: nat, probe: int -> bool)
    requires Inv(s) && i < |s.tasks| && s.tasks[i].phase.Loading? && !s.tasks[i].job.Adopt?
    requires Undisturbed(s, es, probe)
    ensures var w, t := WishOf(s.tasks[i].job), Run(s, es);
      i < |t.tasks| && (t.tasks[i].phase.Settled? ==>
        Choice(s.reserved, Last(Load(s), w.project), w, s.range, probe, Outcome(t, i, probe))
        && (t.tasks[i].phase.result.Ok? ==> Outcome(t, i, probe) == Ok(t.tasks[i].phase.result.value))
        && (t.tasks[i].phase.result.Err? ==> Outcome(t, i, probe).Err?))
  {
    hide Choice, Step, Inv, Plan, FirstAcceptable;
    var w := WishOf(s.tasks[i].job);
    OutcomeSurvives(s, es, i, probe);
    assert Choice(s.reserved, Last(Load(s), w.project), w, s.range, probe, Outcome(s, i, probe)) by {
      if KeepsOwn(s.reserved, w) { KeptIsChoice(s, i, probe); } else { PlanMeetsChoice(s.reserved, Last(Load(s), w.project), w, s.range, probe); }
    }
  }

  lemma KeptIsChoice(s: Sys, i: nat, probe: int -> bool)
    requires i < |s.tasks| && s.tasks[i].phase.Loading? && KeepsOwn(s.reserved, WishOf(s.tasks[i].job))
    ensures var w := WishOf(s.tasks[i].job);
      Choice(s.reserved, Last(Load(s), w.project), w, s.range, probe, Outcome(s, i, probe))
  {}

  lemma {:induction false} OutcomeSurvives(s: Sys, es: seq<Event>, i: nat, probe: int -> bool)
    requires Inv(s) && i < |s.tasks| && !s.tasks[i].phase.Waiting? && Undisturbed(s, es, probe)
    ensures i < |Run(s, es).tasks| && Outcome(Run(s, es), i, probe) == Outcome(s, i, probe)
    decreases |es|
  {
    hide Inv, Step, Outcome;
    if es != [] {
      StepKeeps(s, es[0]);
      OutcomeStays(s, i, es[0], probe);
      OutcomeSurvives(Step(s, es[0]), es[1..], i, probe);
    }
  }

  // ── every call gets its turn and settles ──────────────────

  function Size(range: Range): nat {
    if range.lo <= range.hi then range.hi - range.lo + 1 else 0
  }

  /** No plan is longer than this. */
  function Longest(range: Range): nat {
    110 + Size(range)
  }

  lemma {:induction false} ScanIsShort(lo: int, hi: int)
    ensures |Scan(lo, hi)| <= if lo <= hi then hi - lo + 1 else 0
    decreases hi - lo
  {
    if lo <= hi { ScanIsShort(lo + 1, hi); }
  }

  lemma RepeatLength(p: int, n: nat)
    ensures |Repeat(p, n)| == n
  {}

  lemma PlanIsShort(last: Option<int>, w: Wish, range: Range)
    ensures |Plan(last, w, range)| <= Longest(range)
  {
    hide Scan, Repeat;
    var start := if w.preferred.Some? then w.preferred.value else range.lo;
    ScanIsShort(start + 1, Min(start + 100, range.hi));
    ScanIsShort(range.lo, range.hi);
    if w.preferred.Some? { RepeatLength(w.preferred.value, if last == w.preferred then 5 else 1); }
    if last.Some? { RepeatLength(last.value, 5); }
  }

  /** How many steps a call may still need. */
  function Left(ph: Phase, range: Range): nat {
    match ph
    case Waiting => 2 * Longest(range) + 5
    case Loading => 2 * Longest(range) + 4
    case Trying(rest) => 2 * |rest| + 3
    case Probing(rest) => 2 * |rest| + 2
    case Chosen(_) => 2
    case Saving(_) => 1
    case Settled(_) => 0
  }

  lemma TurnsShrink(s: Sys, i: nat, free: bool)
    requires Inv(s) && Runnable(s, i)
    ensures Left(Advance(s, i, free).tasks[i].phase, s.range) < Left(s.tasks[i].phase, s.range)
  {
    hide Inv, Advance, Left;
    assert NeverTaken(s) by { InvParts(s); }
    if s.tasks[i].phase.Loading? { LoadedShrinks(s, i, free); } else { OthersShrink(s, i, free); }
  }

  lemma LoadedShrinks(s: Sys, i: nat, free: bool)
    requires Runnable(s, i) && s.tasks[i].phase.Loading?
    ensures Left(Advance(s, i, free).tasks[i].phase, s.range) < Left(s.tasks[i].phase, s.range)
  {
    hide Plan, KeepsOwn, Holds, Longest, Commit;
    PlanIsShort(Last(Load(s), Of(s, i)), WishOf(s.tasks[i].job), s.range);
  }

  lemma OthersShrink(s: Sys, i: nat, free: bool)
    requires Runnable(s, i) && !s.tasks[i].phase.Loading?
    requires s.tasks[i].phase.Probing? ==> s.tasks[i].phase.rest != []
    ensures Left(Advance(s, i, free).tasks[i].phase, s.range) < Left(s.tasks[i].phase, s.range)
  {
    hide AfterLoad, Commit, Grantable;
    var next := Advance(s, i, free).tasks[i].phase;
    match s.tasks[i].phase
    case Waiting => assert next.Saving? || next.Loading?;
    case Trying(rest) => assert next.Settled? || next == Probing(rest) || next == Trying(rest[1..]);
    case Probing(rest) => assert next.Chosen? || next == Trying(rest[1..]);
    case Chosen(p) => assert next.Settled? || next.Saving?;
    case Saving(p) => assert next.Settled?;
  }

  function Backlog(ts: seq<Task>, range: Range): nat {
    if ts == [] then 0 else Left(ts[0].phase, range) + Backlog(ts[1..], range)
  }

  lemma {:induction false} BacklogOfUpdate(ts: seq<Task>, i: nat, t: Task, range: Range)
    requires i < |ts|
    ensures Backlog(ts[i := t], range) + Left(ts[i].phase, range) == Backlog(ts, range) + Left(t.phase, range)
  {
    hide Left;
    if i == 0 {
      assert ts[i := t][1..] == ts[1..];
    } else {
      assert ts[i := t][1..] == ts[1..][i - 1 := t];
      BacklogOfUpdate(ts[1..], i - 1, t, range);
    }
  }

  /** The queue cannot get stuck: a call is always able to go on, and each of its steps shrinks the backlog. */
  lemma QueueDrains(s: Sys, free: bool) returns (i: nat)
    requires Inv(s) && exists j :: 0 <= j < |s.tasks| && !s.tasks[j].phase.Settled?
    ensures Runnable(s, i)
    ensures Backlog(Advance(s, i, free).tasks, s.range) < Backlog(s.tasks, s.range)
  {
    hide Inv, Left, AfterLoad, Backlog, Commit;
    i := 0;
    while s.tasks[i].phase.Settled?
      invariant i < |s.tasks|
      invariant forall k :: 0 <= k < i ==> s.tasks[k].phase.Settled?
      decreases |s.tasks| - i
    {
      i := i + 1;
    }
    TurnsShrink(s, i, free);
    var t := Advance(s, i, free);
    assert t.tasks == s.tasks[i := t.tasks[i]];
    BacklogOfUpdate(s.tasks, i, t.tasks[i], s.range);
  }
}
