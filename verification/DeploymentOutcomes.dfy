/** What becomes of a deployment: by policy when its process exits, by request, and by its configuration on the way to LIVE. */
module DeploymentOutcomes {
  import opened Wrappers
  import opened DeploymentStates
  import opened DeploymentProtocol
  import opened DeploymentSteps
  import opened Runs = DeploymentRuns
  import DeploymentInvariants

  // ── when the process exits ────────────────────────────────

  /** The engine acts on this exit: the deployment is serving, and it is its current process that ends by itself. */
  predicate ServingExit(d: Dep, i: InstanceId) {
    d.state == LIVE && i in d.hooked && d.instance == Some(i) && !d.stopping && !d.relaunching
  }

  /** What the policy asks for: always, or on any code but zero; as long as retries are left. */
  predicate Retries(cfg: Config, attempts: nat, code: Option<int>) {
    match cfg.policy
    case Always => attempts < cfg.maxRetries
    case OnFailure => code != Some(0) && attempts < cfg.maxRetries
    case Never => false
  }

  /** A clean end that the policy does not restart. */
  predicate Finishes(cfg: Config, code: Option<int>) {
    code == Some(0) && cfg.policy != Always
  }

  /** The new method and the state after the exit; nothing else of the deployment is decided by it. */
  ghost predicate ExitDecides(d: Dep, code: Option<int>, r: Dep) {
    var t := d.nextTask;
    && t in r.tasks && r.nextTask == t + 1 && r.tasks == d.tasks[t := r.tasks[t]] && r.cfg == d.cfg
    && (r.state == RESTARTING <==> Retries(d.cfg, d.attempts, code))
    && (r.stopping <==> Finishes(d.cfg, code))
    && (if Retries(d.cfg, d.attempts, code) then
          r.tasks[t] == Task(Crash, Backoff) && r.attempts == d.attempts + 1 && r.restarts == d.restarts + 1
        else if Finishes(d.cfg, code) then
          r.tasks[t] == Task(Request, Aborting) && r.state == STOPPING && r.attempts == d.attempts
        else
          r.tasks[t] == Task(Crash, Failing) && r.state == LIVE && r.attempts == d.attempts)
  }

  /** The timers that are armed once the latest one has been cleared. */
  function Cleared(d: Dep): set<nat> {
    if d.stableTimer.Some? then d.armed - {d.stableTimer.value} else d.armed
  }

  lemma LiveMayEnd()
    ensures CanTransition(LIVE, RESTARTING) && CanTransition(LIVE, STOPPING)
  {}

  lemma LiveExitDecides(d: Dep, code: Option<int>)
    requires d.state == LIVE && !d.stopping
    ensures ExitDecides(d, code, OnLiveExit(d, code))
  {
    hide CanTransition;
    LiveMayEnd();
  }

  lemma ServingExitDecides(d: Dep, i: InstanceId, code: Option<int>)
    requires ServingExit(d, i)
    ensures ExitDecides(d, code, DepStep(d, Exited(i, code))) && DepStep(d, Exited(i, code)).armed == Cleared(d)
  {
    hide OnLiveExit, Retries, Finishes;
    LiveExitDecides(ClearTimer(d.(hooked := d.hooked - {i})), code);
    LiveExitTimer(ClearTimer(d.(hooked := d.hooked - {i})), code);
  }

  lemma LiveExitTimer(d: Dep, code: Option<int>)
    ensures OnLiveExit(d, code).armed == d.armed || (d.stopping || IsTerminal(d.state))
  {
    hide MayTransition;
  }

  /** Any other exit starts no method and changes neither the state nor the attempts; that of the current process clears the timer. */
  lemma OtherExitsDecideNothing(d: Dep, i: InstanceId, code: Option<int>)
    requires !ServingExit(d, i)
    ensures var ours := i in d.hooked && d.instance == Some(i) && !d.stopping && !d.relaunching;
      DepStep(d, Exited(i, code)) == d.(hooked := d.hooked - {i}, armed := if ours then Cleared(d) else d.armed)
  {}

  /**
   * In every run the policy decides what the exit of a process leads to: another launch after a pause, the end of the
   * deployment, or its failure.
   */
  lemma PolicyDecides(events: seq<Event>, id: DepId, i: InstanceId, code: Option<int>)
    requires id in Runs.Run(INIT, events).deps
    ensures var d, all := Runs.Run(INIT, events).deps[id], events + [On(id, Exited(i, code))];
      && id in Runs.Run(INIT, all).deps
      && var r := Runs.Run(INIT, all).deps[id];
         if ServingExit(d, i) then ExitDecides(d, code, r) && r.armed == Cleared(d)
         else r.state == d.state && r.tasks == d.tasks && r.attempts == d.attempts && r.stopping == d.stopping
  {
    hide DepStep, ExitDecides;
    var d := Runs.Run(INIT, events).deps[id];
    assert (events + [On(id, Exited(i, code))])[..|events|] == events;
    if ServingExit(d, i) { ServingExitDecides(d, i, code); } else { OtherExitsDecideNothing(d, i, code); }
  }

  // ── what a request leads to ───────────────────────────────

  /** A stop counts once; on a deployment that has failed it still frees what is left. */
  ghost predicate StopDecides(d: Dep, r: Dep) {
    var t := d.nextTask;
    && r.stopping && r.nextTask == t + 1 && r.cfg == d.cfg && r.attempts == d.attempts
    && (if d.stopping then r.state == d.state && r.tasks == d.tasks - {t}
        else if d.state == FAILED || d.state == STOPPED then r.state == d.state && r.tasks == d.tasks[t := Task(Request, Tearing)]
        else r.state == STOPPING && r.tasks == d.tasks[t := Task(Request, Aborting)])
  }

  lemma RequestsDecide(d: Dep)
    requires DepInv(d)
    ensures StopDecides(d, DepStep(d, StopRequested))
    ensures var (t, r) := (d.nextTask, DepStep(d, RestartRequested));
      if d.state == LIVE then
        r.state == RESTARTING && r.relaunching && !r.stopping && r.armed == Cleared(d) && r.tasks == d.tasks[t := Task(Relaunch, Relaunching)]
      else if d.state == RESTARTING then
        r.state == RESTARTING && !r.relaunching && !r.stopping && r.armed == Cleared(d) && r.tasks == d.tasks[t := Task(Relaunch, Failing)]
      else StopDecides(d, r)
  {
    hide TasksOk, Driven, HealthOk, BudgetOk;
    StopRequestDecides(d);
    RestartRequestDecides(d);
  }

  lemma StopRequestDecides(d: Dep)
    requires StopOk(d)
    ensures StopDecides(d, DepStep(d, StopRequested))
  {}

  lemma RestartRequestDecides(d: Dep)
    requires StopOk(d)
    ensures var (t, r) := (d.nextTask, DepStep(d, RestartRequested));
      if d.state == LIVE then
        r.state == RESTARTING && r.relaunching && !r.stopping && r.armed == Cleared(d) && r.tasks == d.tasks[t := Task(Relaunch, Relaunching)]
      else if d.state == RESTARTING then
        r.state == RESTARTING && !r.relaunching && !r.stopping && r.armed == Cleared(d) && r.tasks == d.tasks[t := Task(Relaunch, Failing)]
      else StopDecides(d, r)
  {}

  // ── the way to LIVE ───────────────────────────────────────

  predicate Ending(s: DeploymentState) {
    s == STOPPING || s == STOPPED || s == FAILED
  }

  /** Every stage of a deployment of this configuration, from its creation to LIVE. */
  function Course(cfg: Config): seq<DeploymentState> {
    [DISCOVERING, RESOLVING, PREPARING]
    + (if cfg.install then [INSTALLING] else []) + (if cfg.build then [BUILDING] else [])
    + [ALLOCATING, STARTING, HEALTH_CHECKING, REGISTERING, EXPOSING, LIVE]
  }

  /** The next stage, or around again from LIVE. */
  predicate Follows(cfg: Config, a: DeploymentState, b: DeploymentState) {
    || (exists k :: 0 <= k < |Course(cfg)| - 1 && Course(cfg)[k] == a && Course(cfg)[k + 1] == b)
    || (a == LIVE && b == RESTARTING) || (a == RESTARTING && b == STARTING)
  }

  predicate OnCourse(cfg: Config, a: DeploymentState, b: DeploymentState) {
    b == a || Ending(b) || Follows(cfg, a, b)
  }

  lemma CourseAt(cfg: Config)
    ensures Follows(cfg, DISCOVERING, RESOLVING) && Follows(cfg, RESOLVING, PREPARING)
    ensures Follows(cfg, PREPARING, if cfg.install then INSTALLING else if cfg.build then BUILDING else ALLOCATING)
    ensures cfg.install ==> Follows(cfg, INSTALLING, if cfg.build then BUILDING else ALLOCATING)
    ensures cfg.build ==> Follows(cfg, BUILDING, ALLOCATING)
    ensures Follows(cfg, ALLOCATING, STARTING) && Follows(cfg, STARTING, HEALTH_CHECKING)
    ensures Follows(cfg, HEALTH_CHECKING, REGISTERING) && Follows(cfg, REGISTERING, EXPOSING) && Follows(cfg, EXPOSING, LIVE)
    ensures Follows(cfg, RESTARTING, STARTING) && Follows(cfg, LIVE, RESTARTING)
  {
    var c := Course(cfg);
    var m := |c| - 6;
    assert m == 3 + (if cfg.install then 1 else 0) + (if cfg.build then 1 else 0);
    assert c[0] == DISCOVERING && c[1] == RESOLVING && c[2] == PREPARING;
    assert c[3] == if cfg.install then INSTALLING else if cfg.build then BUILDING else ALLOCATING;
    assert cfg.install ==> c[3] == INSTALLING && c[4] == if cfg.build then BUILDING else ALLOCATING;
    assert cfg.build ==> c[m - 1] == BUILDING;
    assert c[m] == ALLOCATING && c[m + 1] == STARTING && c[m + 2] == HEALTH_CHECKING;
    assert c[m + 3] == REGISTERING && c[m + 4] == EXPOSING && c[m + 5] == LIVE;
  }

  lemma CatchKeepsState(d: Dep, t: TaskId, owner: Owner)
    ensures Catch(d, t, owner).state == d.state && Finish(d, t).state == d.state
  {}

  lemma AdvanceWrites(d: Dep, t: TaskId, owner: Owner, to: DeploymentState, pc: Pc)
    ensures var r := Advance(d, t, owner, to, pc); r.state == to || r.state == d.state
  {
    hide MayTransition, Write, Catch, Finish;
    WriteWrites(d, to);
    CatchKeepsState(d, t, owner);
  }

  lemma WriteWrites(d: Dep, to: DeploymentState)
    ensures Write(d, to).state == to
  {}

  lemma AdvanceOnCourse(d: Dep, t: TaskId, owner: Owner, to: DeploymentState, pc: Pc)
    requires Follows(d.cfg, d.state, to)
    ensures OnCourse(d.cfg, d.state, Advance(d, t, owner, to, pc).state)
  {
    hide Follows, Advance, Ending;
    AdvanceWrites(d, t, owner, to, pc);
  }

  lemma PipelineOnCourse(d: Dep, t: TaskId, owner: Owner)
    requires EarlyStage(d.state) && (d.state == INSTALLING ==> d.cfg.install) && (d.state == BUILDING ==> d.cfg.build)
    ensures OnCourse(d.cfg, d.state, ResumePipeline(d, t, owner, d.state).state)
  {
    hide Advance, Follows;
    CourseAt(d.cfg);
    if d.state == ALLOCATING {
      AdvanceOnCourse(d, t, owner, STARTING, Starting(d.tally.epoch + 1));
    } else {
      AdvanceOnCourse(d, t, owner, NextStage(d.cfg, d.state), Pipeline(NextStage(d.cfg, d.state)));
    }
  }

  lemma StartOnCourse(d: Dep, t: TaskId, o: Outcome)
    requires t in d.tasks && StartingUp(d.tasks[t].pc) && d.state == StateOf(d.tasks[t].pc)
    requires d.tasks[t].pc.Pipeline? ==> EarlyStage(d.state)
    requires (d.state == INSTALLING ==> d.cfg.install) && (d.state == BUILDING ==> d.cfg.build)
    ensures OnCourse(d.cfg, d.state, ResumeTask(d, t, o).state)
  {
    hide Advance, Catch, Follows, ResumePipeline, Finish, Ending, Course;
    var owner, pc := d.tasks[t].owner, d.tasks[t].pc;
    CatchKeepsState(d, t, owner);
    match pc
    case Pipeline(_) => PipelineOnCourse(d, t, owner);
    case Starting(_) =>
    case Started(e, i) =>
      CourseAt(d.cfg);
      AdvanceOnCourse(d.(hooked := d.hooked + {i}), t, owner, HEALTH_CHECKING, Polling(e));
    case Polling(e) =>
      CourseAt(d.cfg);
      AdvanceOnCourse(d.(tally := d.tally.(okEpoch := e)), t, owner, REGISTERING, Registering(e));
  }

  lemma LaunchOnCourse(d: Dep, t: TaskId, o: Outcome)
    requires t in d.tasks && Launching(d.tasks[t].pc) && !StartingUp(d.tasks[t].pc) && d.state == StateOf(d.tasks[t].pc)
    ensures OnCourse(d.cfg, d.state, ResumeTask(d, t, o).state)
  {
    hide Advance, Catch, Follows, Finish, Ending, Course;
    var owner, pc := d.tasks[t].owner, d.tasks[t].pc;
    CatchKeepsState(d, t, owner);
    CourseAt(d.cfg);
    match pc
    case Adopting(e) => AdvanceOnCourse(d, t, owner, REGISTERING, Registering(e));
    case Registering(e) => AdvanceOnCourse(d, t, owner, EXPOSING, Exposing(e));
    case Exposing(_) => AdvanceOnCourse(d, t, owner, LIVE, LiveTail);
    case Relaunching =>
      AdvanceOnCourse(d.(relaunching := false, restarts := d.restarts + 1), t, owner, STARTING, Starting(d.tally.epoch + 1));
    case Backoff => AdvanceOnCourse(d, t, owner, STARTING, Starting(d.tally.epoch + 1));
  }

  lemma OthersOnCourse(d: Dep, t: TaskId, o: Outcome)
    requires t in d.tasks && !Launching(d.tasks[t].pc)
    ensures ResumeTask(d, t, o).state == d.state || Ending(ResumeTask(d, t, o).state)
  {}

  /** The configuration allows the optional stages that the deployment is in. */
  predicate StageAllowed(d: Dep) {
    (d.state == INSTALLING ==> d.cfg.install) && (d.state == BUILDING ==> d.cfg.build)
  }

  lemma StepOnCourse(d: Dep, e: DepEvent)
    requires DepInv(d) && StageAllowed(d)
    ensures OnCourse(d.cfg, d.state, DepStep(d, e).state) && StageAllowed(DepStep(d, e))
  {
    hide DepStep, Driven, StopOk, HealthOk, BudgetOk, Follows;
    if Ended(d) {
      EndingStays(d, e);
    } else {
      match e
      case Resume(t, o) => ResumeOnCourse(d, t, o);
      case _ => RequestsOnCourse(d, e);
    }
    FollowsAllowed(d.cfg, d.state, DepStep(d, e).state);
  }

  lemma EndingStays(d: Dep, e: DepEvent)
    requires DepInv(d) && Ended(d)
    ensures Ending(DepStep(d, e).state)
  {
    hide DepStep, Driven, HealthOk, BudgetOk;
    StepPromise(d, e);
    DeploymentInvariants.StepKeeps(d, e);
  }

  lemma ResumeOnCourse(d: Dep, t: TaskId, o: Outcome)
    requires TasksOk(d) && !Ended(d) && StageAllowed(d)
    ensures OnCourse(d.cfg, d.state, DepStep(d, Resume(t, o)).state)
  {
    hide ResumeTask, Follows;
    if t in d.tasks {
      assert TaskOk(d, d.tasks[t].pc);
      if StartingUp(d.tasks[t].pc) {
        StartOnCourse(d, t, o);
      } else if Launching(d.tasks[t].pc) {
        LaunchOnCourse(d, t, o);
      } else {
        OthersOnCourse(d, t, o);
      }
    }
  }

  lemma RequestsOnCourse(d: Dep, e: DepEvent)
    requires DepInv(d) && !e.Resume?
    ensures OnCourse(d.cfg, d.state, DepStep(d, e).state)
  {
    hide DepStep, Driven, HealthOk, BudgetOk, TasksOk, Follows;
    CourseAt(d.cfg);
    match e
    case Exited(i, code) =>
      if ServingExit(d, i) { ServingExitDecides(d, i, code); } else { OtherExitsDecideNothing(d, i, code); }
    case RestartRequested => RestartRequestDecides(d);
    case StopRequested => StopRequestDecides(d);
    case StableTimerFired(_) => TimerKeepsState(d, e);
  }

  lemma TimerKeepsState(d: Dep, e: DepEvent)
    requires e.StableTimerFired?
    ensures DepStep(d, e).state == d.state
  {}

  lemma OnlyConfigured(cfg: Config, s: DeploymentState)
    requires s in Course(cfg)
    ensures (s == INSTALLING ==> cfg.install) && (s == BUILDING ==> cfg.build)
  {}

  lemma FollowsAllowed(cfg: Config, a: DeploymentState, b: DeploymentState)
    requires OnCourse(cfg, a, b) && (a == INSTALLING ==> cfg.install) && (a == BUILDING ==> cfg.build)
    ensures (b == INSTALLING ==> cfg.install) && (b == BUILDING ==> cfg.build)
  {
    hide Course;
    if k :| 0 <= k < |Course(cfg)| - 1 && Course(cfg)[k] == a && Course(cfg)[k + 1] == b { OnlyConfigured(cfg, b); }
  }

  // ── over runs ─────────────────────────────────────────────

  /** The states that a deployment has been through, in order. */
  function Trail(events: seq<Event>, id: DepId): seq<DeploymentState> {
    if events == [] then []
    else
      var before, now := events[..|events| - 1], Runs.Run(INIT, events).deps;
      if id !in now then []
      else if id in Runs.Run(INIT, before).deps && Runs.Run(INIT, before).deps[id].state == now[id].state then Trail(before, id)
      else Trail(before, id) + [now[id].state]
  }

  /** From the first stage on, every state is an end or the one that follows. */
  ghost predicate Travelled(cfg: Config, trail: seq<DeploymentState>) {
    && trail != [] && trail[0] == DISCOVERING
    && forall k :: 0 < k < |trail| ==> Ending(trail[k]) || Follows(cfg, trail[k - 1], trail[k])
  }

  lemma OneMoreEvent(events: seq<Event>, id: DepId)
    requires events != [] && id in Runs.Run(INIT, events).deps
    ensures var n := |events| - 1; var (before, e) := (events[..n], events[n]);
      var (a, d) := (Runs.Run(INIT, before).deps, Runs.Run(INIT, events).deps[id]);
      if id in a then d == (if e.On? && e.id == id then DepStep(a[id], e.event) else a[id])
      else e.Deploy? && d == NewDep(e.project, e.cfg)
  {
    hide DepStep, NewDep, Leaves;
  }

  lemma {:induction false} EveryRunTravels(events: seq<Event>, id: DepId)
    requires id in Runs.Run(INIT, events).deps
    ensures var (d, trail) := (Runs.Run(INIT, events).deps[id], Trail(events, id));
      Travelled(d.cfg, trail) && trail[|trail| - 1] == d.state && StageAllowed(d)
  {
    hide DepStep, Runs.Run, Follows, DepInv;
    if events == [] {
      NobodyThere(id);
      assert false;
    }
    var n := |events| - 1;
    var (before, e) := (events[..n], events[n]);
    OneMoreEvent(events, id);
    if id in Runs.Run(INIT, before).deps {
      var d := Runs.Run(INIT, before).deps[id];
      EveryRunTravels(before, id);
      RunInv(before);
      if e.On? && e.id == id { StepOnCourse(d, e.event); }
    } else {
      NobodyTrailed(before, id);
    }
  }

  lemma NobodyThere(id: DepId)
    ensures id !in Runs.Run(INIT, []).deps
  {}

  lemma NobodyTrailed(events: seq<Event>, id: DepId)
    requires id !in Runs.Run(INIT, events).deps
    ensures Trail(events, id) == []
  {}

  /** Where a stage stands on the course. */
  function Place(cfg: Config, s: DeploymentState): int {
    var allocating := 3 + (if cfg.install then 1 else 0) + (if cfg.build then 1 else 0);
    match s
    case DISCOVERING => 0
    case RESOLVING => 1
    case PREPARING => 2
    case INSTALLING => 3
    case BUILDING => allocating - 1
    case ALLOCATING => allocating
    case STARTING => allocating + 1
    case HEALTH_CHECKING => allocating + 2
    case REGISTERING => allocating + 3
    case EXPOSING => allocating + 4
    case LIVE => allocating + 5
    case _ => -1
  }

  lemma PlaceIsRight(cfg: Config, k: nat)
    requires k < |Course(cfg)|
    ensures Place(cfg, Course(cfg)[k]) == k && (Course(cfg)[k] == LIVE ==> k == |Course(cfg)| - 1)
  {}

  lemma CourseTurnsOnce(cfg: Config, k: nat, b: DeploymentState)
    requires k < |Course(cfg)| - 1 && Follows(cfg, Course(cfg)[k], b)
    ensures b == Course(cfg)[k + 1]
  {
    PlaceIsRight(cfg, k);
    hide Course;
    if j :| 0 <= j < |Course(cfg)| - 1 && Course(cfg)[j] == Course(cfg)[k] && Course(cfg)[j + 1] == b { PlaceIsRight(cfg, j); }
  }

  /**
   * In every run a deployment goes through exactly the stages of its configuration: installing and building when it is
   * configured and never otherwise, and no stage is left out on the way to LIVE, unless it ends before.
   */
  lemma {:induction false} TrailIsCourse(events: seq<Event>, id: DepId, k: nat)
    requires id in Runs.Run(INIT, events).deps
    requires k < |Trail(events, id)| && k < |Course(Runs.Run(INIT, events).deps[id].cfg)|
    requires forall j :: 0 <= j <= k ==> !Ending(Trail(events, id)[j])
    ensures Trail(events, id)[k] == Course(Runs.Run(INIT, events).deps[id].cfg)[k]
  {
    hide Runs.Run, Trail, Follows, Ending;
    EveryRunTravels(events, id);
    if k > 0 {
      TrailIsCourse(events, id, k - 1);
      CourseTurnsOnce(Runs.Run(INIT, events).deps[id].cfg, k - 1, Trail(events, id)[k]);
    }
  }

  // ── a launch that nobody disturbs ─────────────────────────

  /** Resumptions until LIVE is written, one more for the adoption of another port. */
  function ToGo(cfg: Config, pc: Pc): int
    requires Launching(pc)
  {
    match pc
    case Pipeline(stage) => 7 + Place(cfg, ALLOCATING) - Place(cfg, stage)
    case Relaunching => 7
    case Backoff => 7
    case Starting(_) => 6
    case Started(_, _) => 5
    case Polling(_) => 4
    case Adopting(_) => 3
    case Registering(_) => 2
    case Exposing(_) => 1
  }

  /** The awaited call failed: its position is inside a `try`, and the others swallow their errors. */
  predicate CallFails(pc: Pc, o: Outcome) {
    o.Threw? && !pc.Started? && !pc.Registering? && !pc.Relaunching?
  }

  /** Nearer to LIVE, or there. */
  predicate Nearer(d: Dep, t: TaskId, r: Dep)
    requires t in d.tasks && Launching(d.tasks[t].pc)
  {
    && !Ended(r) && t in r.tasks && r.cfg == d.cfg
    && (if ToGo(d.cfg, d.tasks[t].pc) == 1 then r.state == LIVE && r.tasks[t].pc == LiveTail
        else Launching(r.tasks[t].pc) && 0 < ToGo(d.cfg, r.tasks[t].pc) < ToGo(d.cfg, d.tasks[t].pc))
  }

  /** The place after a poll that was answered: another port is adopted first. And a relaunch counts once its process is gone. */
  predicate Remembers(d: Dep, t: TaskId, o: Outcome, r: Dep)
    requires t in d.tasks && t in r.tasks
  {
    && (d.tasks[t].pc.Polling? && o.Done? ==> if o.adopts then r.tasks[t].pc.Adopting? else r.tasks[t].pc.Registering?)
    && r.relaunching == (d.relaunching && !d.tasks[t].pc.Relaunching?)
    && r.restarts == d.restarts + (if d.tasks[t].pc.Relaunching? then 1 else 0) && r.attempts == d.attempts
    && (d.tasks[t].pc.Starting? ==> r.instance == Some(d.instances) && r.instances == d.instances + 1)
    && (!d.tasks[t].pc.Starting? ==> r.instance == d.instance && r.instances == d.instances)
    && r.hooked == d.hooked + (if d.tasks[t].pc.Started? then {d.tasks[t].pc.instance} else {})
  }

  /** What the end of an awaited call does to a launch of a deployment that has not ended. */
  ghost predicate LaunchDecides(d: Dep, t: TaskId, o: Outcome, r: Dep)
    requires t in d.tasks && Launching(d.tasks[t].pc)
  {
    if CallFails(d.tasks[t].pc, o) then t in r.tasks && r.tasks[t].pc == Failing && r.state == d.state
    else if d.tasks[t].pc.Polling? && !o.ok then t in r.tasks && r.tasks[t].pc == GivingUp && r.state == d.state
    else Nearer(d, t, r) && Remembers(d, t, o, r)
  }

  lemma AdvanceGoesOn(d: Dep, t: TaskId, owner: Owner, to: DeploymentState, pc: Pc)
    requires !d.stopping && CanTransition(d.state, to) && !IsTerminal(to)
    ensures var r := Advance(d, t, owner, to, pc);
      && r.state == to && !r.stopping && t in r.tasks && r.tasks[t].pc == pc && r.cfg == d.cfg
      && r.relaunching == d.relaunching && r.restarts == d.restarts && r.attempts == d.attempts && r.hooked == d.hooked
      && r.instance == d.instance && r.instances == d.instances
  {
    hide CanTransition;
  }

  lemma StagesGoOn(cfg: Config)
    ensures CanTransition(DISCOVERING, RESOLVING) && CanTransition(RESOLVING, PREPARING)
    ensures forall s :: s == INSTALLING || s == BUILDING || s == ALLOCATING ==> CanTransition(PREPARING, s)
    ensures forall s :: s == BUILDING || s == ALLOCATING ==> CanTransition(INSTALLING, s)
    ensures CanTransition(BUILDING, ALLOCATING) && CanTransition(ALLOCATING, STARTING) && CanTransition(RESTARTING, STARTING)
    ensures CanTransition(STARTING, HEALTH_CHECKING) && CanTransition(HEALTH_CHECKING, REGISTERING)
    ensures CanTransition(REGISTERING, EXPOSING) && CanTransition(EXPOSING, LIVE)
  {}

  lemma PipelineGoesOn(d: Dep, t: TaskId, owner: Owner, stage: DeploymentState)
    requires !Ended(d) && d.state == stage && EarlyStage(stage) && StageAllowed(d)
    requires t in d.tasks && d.tasks[t].pc == Pipeline(stage)
    ensures Nearer(d, t, ResumePipeline(d, t, owner, stage)) && Remembers(d, t, Threw, ResumePipeline(d, t, owner, stage))
  {
    StagesGoOn(d.cfg);
    hide CanTransition, Advance;
    if stage == ALLOCATING {
      AdvanceGoesOn(d, t, owner, STARTING, Starting(d.tally.epoch + 1));
    } else {
      AdvanceGoesOn(d, t, owner, NextStage(d.cfg, stage), Pipeline(NextStage(d.cfg, stage)));
    }
  }

  lemma CatchFails(d: Dep, t: TaskId, owner: Owner)
    requires !d.stopping
    ensures var r := Catch(d, t, owner); t in r.tasks && r.tasks[t].pc == Failing && r.state == d.state
  {}

  lemma ThrowDecides(d: Dep, t: TaskId, o: Outcome)
    requires !d.stopping && t in d.tasks && Launching(d.tasks[t].pc) && CallFails(d.tasks[t].pc, o)
    ensures LaunchDecides(d, t, o, ResumeTask(d, t, o))
  {
    hide Catch;
    CatchFails(d, t, d.tasks[t].owner);
  }

  lemma StartDecides(d: Dep, t: TaskId, o: Outcome)
    requires !Ended(d) && StageAllowed(d) && t in d.tasks && StartingUp(d.tasks[t].pc) && !CallFails(d.tasks[t].pc, o)
    requires d.state == StateOf(d.tasks[t].pc) && (d.tasks[t].pc.Pipeline? ==> EarlyStage(d.state))
    ensures LaunchDecides(d, t, o, ResumeTask(d, t, o))
  {
    StagesGoOn(d.cfg);
    hide CanTransition, Advance, Catch, ResumePipeline, Place;
    var owner, pc := d.tasks[t].owner, d.tasks[t].pc;
    match pc
    case Pipeline(stage) => PipelineGoesOn(d, t, owner, stage);
    case Starting(_) =>
    case Started(e, i) => AdvanceGoesOn(d.(hooked := d.hooked + {i}), t, owner, HEALTH_CHECKING, Polling(e));
    case Polling(e) => AdvanceGoesOn(d.(tally := d.tally.(okEpoch := e)), t, owner, REGISTERING, Registering(e));
  }

  lemma ServingDecides(d: Dep, t: TaskId, o: Outcome)
    requires !Ended(d) && t in d.tasks && (d.tasks[t].pc.Adopting? || d.tasks[t].pc.Registering? || d.tasks[t].pc.Exposing?)
    requires d.state == StateOf(d.tasks[t].pc) && !CallFails(d.tasks[t].pc, o)
    ensures LaunchDecides(d, t, o, ResumeTask(d, t, o))
  {
    StagesGoOn(d.cfg);
    hide CanTransition, Advance, Catch, Place;
    var owner := d.tasks[t].owner;
    match d.tasks[t].pc
    case Adopting(e) => AdvanceGoesOn(d, t, owner, REGISTERING, Registering(e));
    case Registering(e) => AdvanceGoesOn(d, t, owner, EXPOSING, Exposing(e));
    case Exposing(_) => AdvanceGoesOn(d, t, owner, LIVE, LiveTail);
  }

  lemma AgainDecides(d: Dep, t: TaskId, o: Outcome)
    requires !Ended(d) && t in d.tasks && (d.tasks[t].pc.Relaunching? || d.tasks[t].pc.Backoff?)
    requires d.state == RESTARTING && !CallFails(d.tasks[t].pc, o)
    ensures LaunchDecides(d, t, o, ResumeTask(d, t, o))
  {
    StagesGoOn(d.cfg);
    hide CanTransition, Advance, Catch, Place;
    var (owner, pc) := (d.tasks[t].owner, Starting(d.tally.epoch + 1));
    if d.tasks[t].pc.Relaunching? {
      AdvanceGoesOn(d.(relaunching := false, restarts := d.restarts + 1), t, owner, STARTING, pc);
    } else {
      AdvanceGoesOn(d, t, owner, STARTING, pc);
    }
  }

  lemma ResumptionDecides(d: Dep, t: TaskId, o: Outcome)
    requires DepInv(d) && StageAllowed(d) && !Ended(d) && t in d.tasks && Launching(d.tasks[t].pc)
    ensures LaunchDecides(d, t, o, DepStep(d, Resume(t, o)))
  {
    hide ResumeTask, LaunchDecides, Driven, HealthOk, BudgetOk, StopOk;
    assert TaskOk(d, d.tasks[t].pc);
    if CallFails(d.tasks[t].pc, o) {
      ThrowDecides(d, t, o);
    } else if StartingUp(d.tasks[t].pc) {
      StartDecides(d, t, o);
    } else if d.tasks[t].pc.Relaunching? || d.tasks[t].pc.Backoff? {
      AgainDecides(d, t, o);
    } else {
      ServingDecides(d, t, o);
    }
  }

  /** The deployment after these ends of the calls that method `t` awaits, with nothing in between. */
  function Resumed(d: Dep, t: TaskId, os: seq<Outcome>): Dep
    decreases |os|
  {
    if os == [] then d else Resumed(DepStep(d, Resume(t, os[0])), t, os[1..])
  }

  /** A launch whose calls all succeed goes LIVE, from wherever it is. */
  lemma {:induction false} LaunchGoesLive(d: Dep, t: TaskId, os: seq<Outcome>) returns (n: nat)
    requires DepInv(d) && StageAllowed(d) && !Ended(d) && t in d.tasks && Launching(d.tasks[t].pc)
    requires |os| >= ToGo(d.cfg, d.tasks[t].pc) && forall k :: 0 <= k < |os| ==> os[k].Done? && os[k].ok
    ensures n <= |os| && Resumed(d, t, os[..n]).state == LIVE
    decreases |os|
  {
    hide DepStep, DepInv, StageAllowed;
    var r := DepStep(d, Resume(t, os[0]));
    ResumptionDecides(d, t, os[0]);
    DeploymentInvariants.StepKeeps(d, Resume(t, os[0]));
    StepOnCourse(d, Resume(t, os[0]));
    if ToGo(d.cfg, d.tasks[t].pc) == 1 {
      n := 1;
      assert os[..1] == [os[0]] && [os[0]][1..] == [];
    } else {
      var m := LaunchGoesLive(r, t, os[1..]);
      n := m + 1;
      assert os[..n][0] == os[0] && os[..n][1..] == os[1..][..m];
    }
  }

  /** How the other methods end, resumption by resumption; whether their call failed makes no difference. */
  lemma CleanupDecides(d: Dep, t: TaskId, o: Outcome)
    requires DepInv(d) && t in d.tasks && !Launching(d.tasks[t].pc)
    ensures var (r, pc) := (DepStep(d, Resume(t, o)), d.tasks[t].pc);
      match pc
      case GivingUp => r.state == d.state && (if d.stopping then t !in r.tasks else t in r.tasks && r.tasks[t].pc == Failing)
      case Failing => r.state == FAILED && t in r.tasks && r.tasks[t].pc == Lingering
      case Aborting =>
        && r.state == d.state && t in r.tasks && r.tasks[t].pc == Tearing
        && (d.stableTimer.Some? ==> r.armed == d.armed - {d.stableTimer.value})
      case Tearing => r.state == (if d.state == FAILED then FAILED else STOPPED) && t in r.tasks && r.tasks[t].pc == TornDown
      case LiveTail => r.state == d.state && t !in r.tasks && r.stableTimer == Some(d.timers) && d.timers in r.armed
      case _ => r.state == d.state && t !in r.tasks
  {
    assert TaskOk(d, d.tasks[t].pc);
    hide Driven, TasksOk, HealthOk, BudgetOk;
  }

  // ── a stop ends in STOPPED ────────────────────────────────

  /** It has been stopped, and no failure that began before is still being cleaned up. */
  ghost predicate CleanStop(d: Dep) {
    && d.stopping && (d.state == STOPPING || d.state == STOPPED)
    && forall t :: t in d.tasks ==> !d.tasks[t].pc.Failing?
  }

  lemma StoppedNeverFails(d: Dep, t: TaskId, owner: Owner, to: DeploymentState, pc: Pc)
    requires CleanStop(d) && to != STOPPING && to != STOPPED
    ensures CleanStop(Advance(d, t, owner, to, pc)) && CleanStop(Catch(d, t, owner)) && CleanStop(Finish(d, t))
  {}

  lemma CleanPipeline(d: Dep, t: TaskId, owner: Owner, stage: DeploymentState)
    requires CleanStop(d)
    ensures CleanStop(ResumePipeline(d, t, owner, stage))
  {
    hide Advance, Catch, Finish;
    StoppedNeverFails(d, t, owner, STARTING, Starting(d.tally.epoch + 1));
    StoppedNeverFails(d, t, owner, NextStage(d.cfg, stage), Pipeline(NextStage(d.cfg, stage)));
  }

  lemma CleanStart(d: Dep, t: TaskId, o: Outcome)
    requires CleanStop(d) && t in d.tasks && StartingUp(d.tasks[t].pc)
    ensures CleanStop(ResumeTask(d, t, o))
  {
    hide Advance, Catch, ResumePipeline;
    var owner, pc := d.tasks[t].owner, d.tasks[t].pc;
    StoppedNeverFails(d, t, owner, LIVE, LiveTail);
    match pc
    case Pipeline(stage) => CleanPipeline(d, t, owner, stage);
    case Starting(_) =>
    case Started(e, i) => StoppedNeverFails(d.(hooked := d.hooked + {i}), t, owner, HEALTH_CHECKING, Polling(e));
    case Polling(e) =>
  }

  lemma CleanLaunch(d: Dep, t: TaskId, o: Outcome)
    requires CleanStop(d) && t in d.tasks && Launching(d.tasks[t].pc) && !StartingUp(d.tasks[t].pc)
    ensures CleanStop(ResumeTask(d, t, o))
  {
    hide Advance, Catch, Finish;
    var owner, pc := d.tasks[t].owner, d.tasks[t].pc;
    StoppedNeverFails(d, t, owner, LIVE, LiveTail);
    match pc
    case Adopting(e) => StoppedNeverFails(d, t, owner, REGISTERING, Registering(e));
    case Registering(e) => StoppedNeverFails(d, t, owner, EXPOSING, Exposing(e));
    case Exposing(_) =>
    case Relaunching =>
      StoppedNeverFails(d.(relaunching := false, restarts := d.restarts + 1), t, owner, STARTING, Starting(d.tally.epoch + 1));
    case Backoff =>
  }

  lemma CleanEnd(d: Dep, t: TaskId, o: Outcome)
    requires CleanStop(d) && t in d.tasks && !Launching(d.tasks[t].pc)
    ensures CleanStop(ResumeTask(d, t, o))
  {
    hide Catch;
    StoppedNeverFails(d, t, d.tasks[t].owner, LIVE, LiveTail);
  }

  lemma CleanStep(d: Dep, e: DepEvent)
    requires CleanStop(d)
    ensures CleanStop(DepStep(d, e))
  {
    hide ResumeTask, RelaunchNow, OnLiveExit;
    if e.Resume? && e.task in d.tasks {
      if StartingUp(d.tasks[e.task].pc) {
        CleanStart(d, e.task, e.outcome);
      } else if Launching(d.tasks[e.task].pc) {
        CleanLaunch(d, e.task, e.outcome);
      } else {
        CleanEnd(d, e.task, e.outcome);
      }
    }
  }

  lemma {:induction false} CleanRun(events: seq<Event>, more: seq<Event>, id: DepId)
    requires id in Runs.Run(INIT, events).deps && CleanStop(Runs.Run(INIT, events).deps[id])
    ensures id in Runs.Run(INIT, events + more).deps && CleanStop(Runs.Run(INIT, events + more).deps[id])
    decreases |more|
  {
    hide DepStep, CleanStop, Runs.Run;
    if more == [] {
      assert events + more == events;
    } else {
      var before, e := more[..|more| - 1], more[|more| - 1];
      assert (events + more)[..|events + more| - 1] == events + before && (events + more)[|events + more| - 1] == e;
      CleanRun(events, before, id);
      StaysKnown(events + more, id);
      OneMoreEvent(events + more, id);
      if e.On? && e.id == id { CleanStep(Runs.Run(INIT, events + before).deps[id], e.event); }
    }
  }

  lemma StaysKnown(events: seq<Event>, id: DepId)
    requires events != [] && id in Runs.Run(INIT, events[..|events| - 1]).deps
    ensures id in Runs.Run(INIT, events).deps
  {
    hide DepStep, NewDep, Leaves;
  }

  /**
   * A deployment that is stopped while it is not failing never fails: in every continuation it is STOPPING or STOPPED,
   * and STOPPED once no method is left.
   */
  lemma StopEndsStopped(events: seq<Event>, more: seq<Event>, id: DepId)
    requires id in Runs.Run(INIT, events).deps
    requires var d := Runs.Run(INIT, events).deps[id];
      !Ended(d) && forall t :: t in d.tasks ==> !d.tasks[t].pc.Failing?
    ensures var deps := Runs.Run(INIT, events + [On(id, StopRequested)] + more).deps;
      && id in deps && (deps[id].state == STOPPING || deps[id].state == STOPPED)
      && (deps[id].tasks == map[] ==> deps[id].state == STOPPED)
  {
    hide DepStep, Runs.Run;
    var (d, all) := (Runs.Run(INIT, events).deps[id], events + [On(id, StopRequested)]);
    assert all[..|all| - 1] == events;
    StaysKnown(all, id);
    OneMoreEvent(all, id);
    RunInv(events);
    assert StopOk(d);
    StopRequestDecides(d);
    assert CleanStop(DepStep(d, StopRequested));
    CleanRun(all, more, id);
    if Runs.Run(INIT, all + more).deps[id].tasks == map[] { QuietMeansSettled(all + more, id); }
  }
}
