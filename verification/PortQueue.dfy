/**
 * The allocator under concurrency. Calls queue behind one another on a promise chain; between any two awaits of the
 * running call a `release` may land, because `release` does not take part in the chain.
 */
module PortQueue {
  import opened Wrappers
  import opened Ports

  datatype Job =
    | Allocate(wish: Wish)
    | Peek(who: ProjectId, hint: Option<int>)
    | Adopt(who: ProjectId, port: nat)

  /** Where a call is; `rest` are the attempts not yet made, the first of them under way when `Probing`. */
  datatype Phase =
    | Waiting
    | Loading
    | Trying(rest: seq<int>)
    | Probing(rest: seq<int>)
    | Chosen(port: nat)
    | Saving(port: nat)
    | Settled(result: Result<nat, PortError>)

  datatype Task = Task(job: Job, phase: Phase)

  datatype Change = Took(task: nat, project: ProjectId, port: nat) | GaveUp(project: ProjectId)

  /** `log` is history: every change of the reservations, in order. */
  datatype Sys = Sys(
    reserved: Reservations,
    sticky: map<ProjectId, nat>,
    saved: map<ProjectId, nat>,
    loaded: bool,
    tasks: seq<Task>,
    range: Range,
    log: seq<Change>
  )

  datatype Event = Call(job: Job) | Proceed(task: nat, free: bool) | Release(project: ProjectId)

  function WishOf(j: Job): Wish {
    match j
    case Allocate(w) => w
    case Peek(who, hint) => Wish(who, hint, false)
    case Adopt(who, port) => Wish(who, Some(port), false)
  }

  function Of(s: Sys, i: nat): ProjectId
    requires i < |s.tasks|
  {
    WishOf(s.tasks[i].job).project
  }

  function Last(s: Sys, project: ProjectId): Option<int> {
    if project in s.sticky then Some(s.sticky[project]) else None
  }

  // ── steps ─────────────────────────────────────────────────

  /** A call runs as soon as the call queued just before it has settled. */
  predicate Runnable(s: Sys, i: nat) {
    i < |s.tasks| && !s.tasks[i].phase.Settled? && (i == 0 || s.tasks[i - 1].phase.Settled?)
  }

  function Goto(s: Sys, i: nat, ph: Phase): Sys
    requires i < |s.tasks|
  {
    s.(tasks := s.tasks[i := s.tasks[i].(phase := ph)])
  }

  /** The synchronous part of `commit`: memory changes now, the store later. */
  function Take(s: Sys, i: nat, port: nat): Sys
    requires i < |s.tasks|
  {
    var project := Of(s, i);
    Goto(s, i, Saving(port)).(
      reserved := Commit(s.reserved, project, port),
      sticky := s.sticky[project := port],
      log := s.log + [Took(i, project, port)])
  }

  ghost function AfterLoad(r: Reservations, last: Option<int>, w: Wish, range: Range): Phase {
    if KeepsOwn(r, w) then
      var p: nat :| Holds(r, w.project, p) && (w.preferred == None || w.preferred == Some(p));
      Chosen(p)
    else Trying(Plan(last, w, range))
  }

  function Load(s: Sys): Sys {
    if s.loaded then s else s.(sticky := s.saved, loaded := true)
  }

  ghost function Advance(s: Sys, i: nat, free: bool): (t: Sys)
    requires Runnable(s, i)
    ensures |t.tasks| == |s.tasks| && t.tasks[i].job == s.tasks[i].job && t.range == s.range
    ensures forall j :: 0 <= j < |s.tasks| && j != i ==> t.tasks[j] == s.tasks[j]
  {
    var t := s.tasks[i];
    var w := WishOf(t.job);
    match t.phase
    case Waiting => if t.job.Adopt? then Take(s, i, t.job.port) else Goto(s, i, Loading)
    case Loading => var l := Load(s); Goto(l, i, AfterLoad(l.reserved, Last(l, w.project), w, l.range))
    case Trying(rest) =>
      if rest == [] then Goto(s, i, Settled(Err(PORT_UNAVAILABLE)))
      else Goto(s, i, if Grantable(s.reserved, w.project, rest[0]) then Probing(rest) else Trying(rest[1..]))
    case Probing(rest) =>
      if rest == [] then s
      else Goto(s, i, if free && rest[0] >= 0 then Chosen(rest[0]) else Trying(rest[1..]))
    case Chosen(p) =>
      if t.job.Peek? then Goto(s, i, Settled(Ok(p)))
      else if Holds(s.reserved, w.project, p) && Last(s, w.project) == Some(p) then
        Goto(s, i, Settled(Ok(p))).(log := s.log + [Took(i, w.project, p)])
      else Take(s, i, p)
    case Saving(p) => Goto(s, i, Settled(Ok(p))).(saved := s.saved[w.project := p])
    case Settled(_) => s
  }

  ghost function Step(s: Sys, e: Event): Sys {
    match e
    case Call(job) => s.(tasks := s.tasks + [Task(job, Waiting)])
    case Proceed(i, free) => if Runnable(s, i) then Advance(s, i, free) else s
    case Release(project) =>
      if exists p :: Holds(s.reserved, project, p)
      then s.(reserved := Without(s.reserved, project), log := s.log + [GaveUp(project)])
      else s
  }

  ghost function Run(s: Sys, es: seq<Event>): Sys
    decreases |es|
  {
    if es == [] then s else Run(Step(s, es[0]), es[1..])
  }

  function Start(saved: map<ProjectId, nat>, range: Range): Sys {
    Sys(map[], map[], saved, false, [], range, [])
  }

  // ── invariants ────────────────────────────────────────────

  /** Everything before the running call has settled, everything behind it has not begun. */
  ghost predicate OneAtATime(s: Sys) {
    forall i, j :: 0 <= i < j < |s.tasks| && !s.tasks[j].phase.Waiting? ==> s.tasks[i].phase.Settled?
  }

  predicate FreeFor(r: Reservations, project: ProjectId, p: int) {
    p in r ==> r[p] == project
  }

  ghost predicate NeverTaken(s: Sys) {
    forall i :: 0 <= i < |s.tasks| ==>
      match s.tasks[i].phase
      case Probing(rest) => rest != [] && Grantable(s.reserved, Of(s, i), rest[0])
      case Chosen(p) => FreeFor(s.reserved, Of(s, i), p)
      case _ => true
  }

  /** Between calls memory and store agree on every sticky port. */
  ghost predicate StickyKept(s: Sys) {
    (forall i :: 0 <= i < |s.tasks| ==> !s.tasks[i].phase.Saving?) ==>
      if s.loaded then s.sticky == s.saved else forall k :: k in s.sticky ==> k in s.saved && s.saved[k] == s.sticky[k]
  }

  /** The call being saved is the only difference. */
  ghost predicate SavingKept(s: Sys) {
    forall i :: 0 <= i < |s.tasks| && s.tasks[i].phase.Saving? ==>
      var now := s.saved[Of(s, i) := s.tasks[i].phase.port];
      if s.loaded then s.sticky == now else forall k :: k in s.sticky ==> k in now && now[k] == s.sticky[k]
  }

  function Apply(r: Reservations, c: Change): Reservations {
    match c
    case Took(_, project, port) => Commit(r, project, port)
    case GaveUp(project) => Without(r, project)
  }

  function Replay(log: seq<Change>): Reservations {
    if log == [] then map[] else Apply(Replay(log[..|log| - 1]), log[|log| - 1])
  }

  /** What a call is in the log for: it took exactly the port it answers. */
  predicate Answers(s: Sys, i: nat, project: ProjectId, port: nat) {
    && i < |s.tasks| && Of(s, i) == project && !s.tasks[i].job.Peek?
    && (s.tasks[i].phase == Saving(port) || s.tasks[i].phase == Settled(Ok(port)))
  }

  ghost predicate LogTrue(s: Sys) {
    && (forall k :: 0 <= k < |s.log| && s.log[k].Took? ==> Answers(s, s.log[k].task, s.log[k].project, s.log[k].port))
    && (forall i, port :: 0 <= i < |s.tasks| && Answers(s, i, Of(s, i), port) ==> Took(i, Of(s, i), port) in s.log)
  }

  /** Calls take effect in the order in which they were made, each at most once. */
  ghost predicate CallOrder(s: Sys) {
    forall a, b :: 0 <= a < b < |s.log| && s.log[a].Took? && s.log[b].Took? ==> s.log[a].task < s.log[b].task
  }

  ghost predicate Inv(s: Sys) {
    && OnePort(s.reserved) && OneAtATime(s) && NeverTaken(s) && StickyKept(s) && SavingKept(s)
    && s.reserved == Replay(s.log) && LogTrue(s) && CallOrder(s)
  }

  // ── every step keeps them ─────────────────────────────────

  /** The chain alone makes the runnable call the only one that can be under way. */
  lemma RunnableIsAlone(s: Sys, i: nat)
    requires OneAtATime(s) && Runnable(s, i)
    ensures forall j :: 0 <= j < i ==> s.tasks[j].phase.Settled?
    ensures forall j :: i < j < |s.tasks| ==> s.tasks[j].phase.Waiting?
  {}

  lemma ReplayAppends(log: seq<Change>, c: Change)
    ensures Replay(log + [c]) == Apply(Replay(log), c)
  {}

  /** The new entry of the log is the running call's own, and it is the last one. */
  lemma LogGrows(s: Sys, t: Sys, i: nat, c: Change)
    requires LogTrue(s) && CallOrder(s) && OneAtATime(s) && Runnable(s, i)
    requires s.tasks[i].phase.Waiting? || s.tasks[i].phase.Chosen?
    requires |s.tasks| == |t.tasks| && t.log == s.log + [c]
    requires c.Took? && c.task == i && Answers(t, i, c.project, c.port)
    requires forall j :: 0 <= j < |s.tasks| && j != i ==> t.tasks[j] == s.tasks[j]
    ensures LogTrue(t) && CallOrder(t)
  {
    RunnableIsAlone(s, i);
    forall k | 0 <= k < |s.log| && s.log[k].Took?
      ensures Answers(t, s.log[k].task, s.log[k].project, s.log[k].port) && s.log[k].task < i
    {
      assert Answers(s, s.log[k].task, s.log[k].project, s.log[k].port);
    }
    forall j, port | 0 <= j < |t.tasks| && Answers(t, j, Of(t, j), port)
      ensures Took(j, Of(t, j), port) in t.log
    {
      if j != i { assert Answers(s, j, Of(s, j), port); } else { assert t.log[|s.log|] == c; }
    }
  }

  /** Moving the running call without touching the reservations. */
  lemma GotoKeeps(s: Sys, i: nat, ph: Phase)
    requires Inv(s) && Runnable(s, i) && !s.tasks[i].phase.Saving? && !ph.Saving? && !ph.Waiting?
    requires ph.Probing? ==> ph.rest != [] && Grantable(s.reserved, Of(s, i), ph.rest[0])
    requires ph.Chosen? ==> FreeFor(s.reserved, Of(s, i), ph.port)
    requires ph.Settled? && ph.result.Ok? ==> s.tasks[i].job.Peek?
    ensures Inv(Goto(s, i, ph))
  {
    hide Replay, OnePort, Grantable, FreeFor;
    RunnableIsAlone(s, i);
    var t := Goto(s, i, ph);
    assert forall j :: 0 <= j < |s.tasks| ==> Of(t, j) == Of(s, j) && t.tasks[j].job == s.tasks[j].job;
    assert forall j :: 0 <= j < |s.tasks| && j != i ==> t.tasks[j] == s.tasks[j];
    assert forall j: nat, q, p :: Answers(t, j, q, p) <==> Answers(s, j, q, p);
  }

  /** Committing: nobody else held the port unless the call is an `adopt`. */
  lemma TakeKeeps(s: Sys, i: nat, port: nat)
    requires Inv(s) && Runnable(s, i) && !s.tasks[i].job.Peek?
    requires s.tasks[i].phase == Waiting || s.tasks[i].phase == Chosen(port)
    ensures Inv(Take(s, i, port))
  {
    hide Replay, Holds, Commit, Grantable, FreeFor, LogTrue, CallOrder, OnePort;
    RunnableIsAlone(s, i);
    var t, c := Take(s, i, port), Took(i, Of(s, i), port);
    CommitHolds(s.reserved, Of(s, i), port);
    ReplayAppends(s.log, c);
    assert forall j :: 0 <= j < |s.tasks| && j != i ==> t.tasks[j] == s.tasks[j];
    LogGrows(s, t, i, c);
  }

  /** A call that finds its choice already committed answers at once. */
  lemma AlreadyMineKeeps(s: Sys, i: nat, p: nat)
    requires Inv(s) && Runnable(s, i) && !s.tasks[i].job.Peek? && s.tasks[i].phase == Chosen(p)
    requires Holds(s.reserved, Of(s, i), p)
    ensures Inv(Goto(s, i, Settled(Ok(p))).(log := s.log + [Took(i, Of(s, i), p)]))
  {
    hide Replay, Grantable, FreeFor, LogTrue, CallOrder;
    RunnableIsAlone(s, i);
    var c := Took(i, Of(s, i), p);
    var t := Goto(s, i, Settled(Ok(p))).(log := s.log + [c]);
    ReplayAppends(s.log, c);
    assert Commit(s.reserved, Of(s, i), p) == s.reserved;
    assert forall j :: 0 <= j < |s.tasks| && j != i ==> t.tasks[j] == s.tasks[j];
    LogGrows(s, t, i, c);
  }

  lemma SaveKeeps(s: Sys, i: nat)
    requires Inv(s) && Runnable(s, i) && s.tasks[i].phase.Saving?
    ensures Inv(Advance(s, i, true)) && Advance(s, i, true) == Advance(s, i, false)
  {
    hide Replay, OnePort, Grantable, FreeFor;
    RunnableIsAlone(s, i);
    var t := Advance(s, i, true);
    assert forall j :: 0 <= j < |s.tasks| ==> Of(t, j) == Of(s, j) && t.tasks[j].job == s.tasks[j].job;
    assert forall j: nat, q, p :: Answers(t, j, q, p) <==> Answers(s, j, q, p);
  }

  lemma LoadKeeps(s: Sys, i: nat)
    requires Inv(s) && Runnable(s, i) && s.tasks[i].phase.Loading?
    ensures Inv(Load(s))
  {
    hide Replay, OnePort, Grantable, FreeFor;
    RunnableIsAlone(s, i);
    assert forall j: nat, q, p :: Answers(Load(s), j, q, p) <==> Answers(s, j, q, p);
  }

  lemma CallKeeps(s: Sys, job: Job)
    requires Inv(s)
    ensures Inv(Step(s, Call(job)))
  {
    hide Replay, OnePort, Grantable, FreeFor;
    var t := Step(s, Call(job));
    assert forall j :: 0 <= j < |s.tasks| ==> t.tasks[j] == s.tasks[j] && Of(t, j) == Of(s, j);
    assert forall j: nat, q, p :: Answers(t, j, q, p) <==> Answers(s, j, q, p);
  }

  lemma ReleaseKeeps(s: Sys, project: ProjectId)
    requires Inv(s)
    ensures Inv(Step(s, Release(project)))
  {
    hide Replay, AfterLoad;
    var t := Step(s, Release(project));
    if t != s {
      ReplayAppends(s.log, GaveUp(project));
      assert forall j :: 0 <= j < |s.tasks| ==> Of(t, j) == Of(s, j);
      assert forall j: nat, q, p :: Answers(t, j, q, p) <==> Answers(s, j, q, p);
      assert forall c :: c in s.log ==> c in t.log;
    }
  }

  lemma AdvanceKeeps(s: Sys, i: nat, free: bool)
    requires Inv(s) && Runnable(s, i)
    ensures Inv(Advance(s, i, free))
  {
    hide Inv, Replay, OneAtATime, StickyKept, SavingKept, LogTrue, CallOrder, OnePort, Commit, Plan;
    var t := s.tasks[i];
    match t.phase
    case Waiting => if t.job.Adopt? { TakeKeeps(s, i, t.job.port); } else { GotoKeeps(s, i, Loading); }
    case Loading =>
      LoadKeeps(s, i);
      GotoKeeps(Load(s), i, Advance(s, i, free).tasks[i].phase);
    case Trying(rest) =>
      GotoKeeps(s, i, Advance(s, i, free).tasks[i].phase);
    case Probing(rest) =>
      InvParts(s);
      GotoKeeps(s, i, Advance(s, i, free).tasks[i].phase);
    case Chosen(p) =>
      if t.job.Peek? { GotoKeeps(s, i, Settled(Ok(p))); }
      else if Holds(s.reserved, Of(s, i), p) && Last(s, Of(s, i)) == Some(p) { AlreadyMineKeeps(s, i, p); }
      else { TakeKeeps(s, i, p); }
    case Saving(_) => SaveKeeps(s, i);
  }

  lemma InvParts(s: Sys)
    requires Inv(s)
    ensures OneAtATime(s) && NeverTaken(s) && OnePort(s.reserved) && LogTrue(s) && CallOrder(s)
  {}

  lemma StepKeeps(s: Sys, e: Event)
    requires Inv(s)
    ensures Inv(Step(s, e))
  {
    hide Inv, AfterLoad;
    match e
    case Call(job) => CallKeeps(s, job);
    case Proceed(i, free) => if Runnable(s, i) { AdvanceKeeps(s, i, free); }
    case Release(project) => ReleaseKeeps(s, project);
  }

  lemma {:induction false} RunKeeps(s: Sys, es: seq<Event>)
    requires Inv(s)
    ensures Inv(Run(s, es))
    decreases |es|
  {
    if es != [] {
      StepKeeps(s, es[0]);
      RunKeeps(Step(s, es[0]), es[1..]);
    }
  }
}
