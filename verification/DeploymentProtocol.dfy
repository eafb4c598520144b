/**
 * The deployment engine as a protocol. Every async method of the engine is cut at its awaits: the stretch between two
 * awaits is one atomic step, and a suspended method is a task that remembers where it waits. Tasks of one deployment
 * resume in any order, so a run is any sequence of requests, process exits, timers and resumptions.
 */
module DeploymentProtocol {
  import opened Wrappers
  import opened DeploymentStates

  type ProjectId = string
  type DepId = string
  type TaskId = nat
  type InstanceId = nat

  datatype RestartPolicy = Never | OnFailure | Always

  /** What the resolved project decides about its own lifecycle. */
  datatype Config = Config(install: bool, build: bool, policy: RestartPolicy, maxRetries: nat)

  /** Which method it is that waits; a relaunch clears its flag when it catches an error. */
  datatype Owner = Run | Relaunch | Crash | Request

  /** Where a suspended method waits. Launch positions carry the number of their own entry to STARTING. */
  datatype Pc =
    | Pipeline(stage: DeploymentState)
    | Starting(epoch: nat)
    | Started(epoch: nat, instance: InstanceId)
    | Polling(epoch: nat)
    | Adopting(epoch: nat)
    | GivingUp
    | Registering(epoch: nat)
    | Exposing(epoch: nat)
    | LiveTail
    | Relaunching
    | Backoff
    | Failing
    | Lingering
    | Aborting
    | Tearing
    | TornDown

  datatype Task = Task(owner: Owner, pc: Pc)

  /** How the awaited call ended; `ok` and `adopts` are only read by the launch that polls the app. */
  datatype Outcome = Done(ok: bool, adopts: bool) | Threw

  /**
   * What happened so far. `epoch` counts entries to STARTING and `okEpoch` is the entry whose launcher last saw a
   * healthy answer; the others count entries to LIVE, the two kinds of restart, timer resets and teardown bodies.
   */
  datatype Tally = Tally(
    epoch: nat, okEpoch: nat, lives: nat, crashes: nat, requests: nat, resets: nat, teardowns: nat)

  /** The `Live` record together with the suspended methods that hold it. */
  datatype Dep = Dep(
    project: ProjectId, cfg: Config, state: DeploymentState, stopping: bool, relaunching: bool,
    instance: Option<InstanceId>, instances: nat, hooked: set<InstanceId>,
    attempts: nat, restarts: nat,
    stableTimer: Option<nat>, armed: set<nat>, timers: nat,
    tasks: map<TaskId, Task>, nextTask: TaskId, tally: Tally)

  datatype DepEvent =
    | Resume(task: TaskId, outcome: Outcome)
    | Exited(instance: InstanceId, code: Option<int>)
    | RestartRequested
    | StopRequested
    | StableTimerFired(timer: nat)

  // ── transitions ───────────────────────────────────────────

  /** The two checks `transition` makes before it writes. */
  predicate MayTransition(d: Dep, to: DeploymentState) {
    && (d.stopping ==> to == STOPPING || to == STOPPED)
    && CanTransition(d.state, to)
  }

  function Write(d: Dep, to: DeploymentState): (r: Dep)
    ensures r.project == d.project && r.cfg == d.cfg
  {
    d.(state := to, tally :=
      match to
      case STARTING => d.tally.(epoch := d.tally.epoch + 1)
      case LIVE => d.tally.(lives := d.tally.lives + 1)
      case _ => d.tally)
  }

  function Suspend(d: Dep, t: TaskId, owner: Owner, pc: Pc): (r: Dep)
    ensures r.project == d.project && r.cfg == d.cfg
  {
    d.(tasks := d.tasks[t := Task(owner, pc)])
  }

  function Finish(d: Dep, t: TaskId): (r: Dep)
    ensures r.project == d.project && r.cfg == d.cfg
  {
    d.(tasks := d.tasks - {t})
  }

  function ClearTimer(d: Dep): (r: Dep)
    ensures r.project == d.project && r.cfg == d.cfg
  {
    if d.stableTimer.Some? then d.(armed := d.armed - {d.stableTimer.value}) else d
  }

  function ArmTimer(d: Dep): (r: Dep)
    ensures r.project == d.project && r.cfg == d.cfg
  {
    d.(stableTimer := Some(d.timers), armed := d.armed + {d.timers}, timers := d.timers + 1)
  }

  function NewTask(d: Dep): (r: Dep)
    ensures r.project == d.project && r.cfg == d.cfg
  {
    d.(nextTask := d.nextTask + 1)
  }

  // ── the synchronous beginnings of the methods ─────────────

  /** `fail`: returns at once when a stop has been requested, otherwise starts cleaning up. */
  function Fail(d: Dep, t: TaskId, owner: Owner): (r: Dep)
    ensures r.project == d.project && r.cfg == d.cfg
  {
    if d.stopping then Finish(d, t) else Suspend(d, t, owner, Failing)
  }

  /** The catch blocks around the launch. */
  function Catch(d: Dep, t: TaskId, owner: Owner): (r: Dep)
    ensures r.project == d.project && r.cfg == d.cfg
  {
    Fail(if owner == Relaunch then d.(relaunching := false) else d, t, owner)
  }

  function Advance(d: Dep, t: TaskId, owner: Owner, to: DeploymentState, pc: Pc): (r: Dep)
    ensures r.project == d.project && r.cfg == d.cfg
  {
    if MayTransition(d, to) then Suspend(Write(d, to), t, owner, pc) else Catch(d, t, owner)
  }

  function Launch(d: Dep, t: TaskId, owner: Owner): (r: Dep)
    ensures r.project == d.project && r.cfg == d.cfg
  {
    Advance(d, t, owner, STARTING, Starting(d.tally.epoch + 1))
  }

  function Teardown(d: Dep, t: TaskId): (r: Dep)
    ensures r.project == d.project && r.cfg == d.cfg
  {
    if d.stopping then Finish(d, t)
    else
      var d1 := d.(stopping := true, tally := d.tally.(teardowns := d.tally.teardowns + 1));
      if IsTerminal(d.state) then Suspend(ClearTimer(d1), t, Request, Tearing)
      else Suspend(if MayTransition(d1, STOPPING) then Write(d1, STOPPING) else d1, t, Request, Aborting)
  }

  function RelaunchNow(d: Dep, t: TaskId): (r: Dep)
    ensures r.project == d.project && r.cfg == d.cfg
  {
    var d1 := ClearTimer(d.(relaunching := true));
    if MayTransition(d1, RESTARTING) then
      Suspend(Write(d1.(tally := d1.tally.(requests := d1.tally.requests + 1)), RESTARTING), t, Relaunch, Relaunching)
    else Catch(d1, t, Relaunch)
  }

  // ── events ────────────────────────────────────────────────

  function NextStage(cfg: Config, stage: DeploymentState): DeploymentState {
    match stage
    case DISCOVERING => RESOLVING
    case RESOLVING => PREPARING
    case PREPARING => if cfg.install then INSTALLING else if cfg.build then BUILDING else ALLOCATING
    case INSTALLING => if cfg.build then BUILDING else ALLOCATING
    case _ => ALLOCATING
  }

  function ResumePipeline(d: Dep, t: TaskId, owner: Owner, stage: DeploymentState): (r: Dep)
    ensures r.project == d.project && r.cfg == d.cfg
  {
    if stage == ALLOCATING then Launch(d, t, owner)
    else
      var next := NextStage(d.cfg, stage);
      Advance(d, t, owner, next, Pipeline(next))
  }

  function ResumePolling(d: Dep, t: TaskId, owner: Owner, epoch: nat, ok: bool, adopts: bool): (r: Dep)
    ensures r.project == d.project && r.cfg == d.cfg
  {
    if d.stopping then Finish(d, t)
    else if !ok then Suspend(d, t, owner, GivingUp)
    else
      var d1 := d.(tally := d.tally.(okEpoch := epoch));
      if adopts then Suspend(d1, t, owner, Adopting(epoch))
      else Advance(d1, t, owner, REGISTERING, Registering(epoch))
  }

  /** Positions whose awaited call may reject inside a try block; the others only await calls that swallow errors. */
  predicate MayThrow(pc: Pc) {
    pc.Pipeline? || pc.Starting? || pc.Polling? || pc.Adopting? || pc.GivingUp? || pc.Exposing? || pc.Backoff?
  }

  function ResumeTask(d: Dep, t: TaskId, o: Outcome): (r: Dep)
    requires t in d.tasks
    ensures r.project == d.project && r.cfg == d.cfg
  {
    var owner := d.tasks[t].owner;
    var pc := d.tasks[t].pc;
    if o.Threw? && MayThrow(pc) then Catch(d, t, owner)
    else
      match pc
      case Pipeline(stage) => ResumePipeline(d, t, owner, stage)
      case Starting(e) =>
        Suspend(d.(instance := Some(d.instances), instances := d.instances + 1), t, owner, Started(e, d.instances))
      case Started(e, i) => Advance(d.(hooked := d.hooked + {i}), t, owner, HEALTH_CHECKING, Polling(e))
      case Polling(e) => ResumePolling(d, t, owner, e, o.Done? && o.ok, o.Done? && o.adopts)
      case Adopting(e) => Advance(d, t, owner, REGISTERING, Registering(e))
      case GivingUp => Catch(d, t, owner)
      case Registering(e) => Advance(d, t, owner, EXPOSING, Exposing(e))
      case Exposing(_) => Advance(d, t, owner, LIVE, LiveTail)
      case LiveTail => Finish(ArmTimer(d), t)
      case Relaunching => Launch(d.(relaunching := false, restarts := d.restarts + 1), t, owner)
      case Backoff => if d.stopping then Finish(d, t) else Launch(d, t, owner)
      case Failing =>
        Suspend(if MayTransition(d, FAILED) then Write(d, FAILED) else d.(state := FAILED), t, owner, Lingering)
      case Lingering => Finish(d, t)
      case Aborting => Suspend(ClearTimer(d), t, owner, Tearing)
      case Tearing => Suspend(if d.state == STOPPING then Write(d, STOPPED) else d, t, owner, TornDown)
      case TornDown => Finish(d, t)
  }

  predicate ShouldRestart(cfg: Config, code: Option<int>) {
    cfg.policy == Always || (cfg.policy == OnFailure && code != Some(0))
  }

  /** The end of a process that was serving: stop, give up, or restart after a backoff. */
  function OnLiveExit(d: Dep, code: Option<int>): (r: Dep)
    ensures r.project == d.project && r.cfg == d.cfg
  {
    var t := d.nextTask;
    var d1 := NewTask(d);
    if !ShouldRestart(d.cfg, code) then
      if code == Some(0) then Teardown(d1, t) else Fail(d1, t, Crash)
    else if d.attempts >= d.cfg.maxRetries then Fail(d1, t, Crash)
    else
      Advance(d1.(attempts := d.attempts + 1, restarts := d.restarts + 1,
                  tally := d.tally.(crashes := d.tally.crashes + 1)), t, Crash, RESTARTING, Backoff)
  }

  /** `onExit` for an exit the engine still listens to; exits before LIVE are left to the launch. */
  function OnExit(d: Dep, i: InstanceId, code: Option<int>): (r: Dep)
    ensures r.project == d.project && r.cfg == d.cfg
  {
    if d.instance != Some(i) || d.stopping || d.relaunching then d
    else if d.state != LIVE then ClearTimer(d)
    else OnLiveExit(ClearTimer(d), code)
  }

  /** A restart request: in place when the deployment is live or already restarting, otherwise a stop first. */
  function OnRestart(d: Dep): (r: Dep)
    ensures r.project == d.project && r.cfg == d.cfg
  {
    var d1 := NewTask(d);
    if d.state == LIVE || d.state == RESTARTING then RelaunchNow(d1, d.nextTask) else Teardown(d1, d.nextTask)
  }

  function DepStep(d: Dep, e: DepEvent): (r: Dep)
    ensures r.project == d.project && r.cfg == d.cfg
  {
    match e
    case Resume(t, o) => if t in d.tasks then ResumeTask(d, t, o) else d
    case Exited(i, code) => if i in d.hooked then OnExit(d.(hooked := d.hooked - {i}), i, code) else d
    case RestartRequested => OnRestart(d)
    case StopRequested => Teardown(NewTask(d), d.nextTask)
    case StableTimerFired(k) =>
      if k in d.armed then
        d.(armed := d.armed - {k}, attempts := 0, tally := d.tally.(resets := d.tally.resets + 1))
      else d
  }

  /** `deploy` creates the record and runs its pipeline up to the first await. */
  function NewDep(project: ProjectId, cfg: Config): (r: Dep)
    ensures r.project == project && r.cfg == cfg && r.state == DISCOVERING
    ensures r.tasks == map[0 := Task(Run, Pipeline(DISCOVERING))] && r.nextTask == 1 && !r.stopping
  {
    var d := Dep(project, cfg, CREATED, false, false, None, 0, {}, 0, 0, None, {}, 0, map[], 1,
                 Tally(0, 0, 0, 0, 0, 0, 0));
    Advance(d, 0, Run, DISCOVERING, Pipeline(DISCOVERING))
  }

  // ── the invariant of one deployment ───────────────────────

  /** It is on its way to LIVE. */
  predicate Launching(pc: Pc) {
    || pc.Pipeline? || pc.Starting? || pc.Started? || pc.Polling? || pc.Adopting? || pc.Registering? || pc.Exposing?
    || pc.Relaunching? || pc.Backoff?
  }

  /** The state a launching task wrote last. */
  function StateOf(pc: Pc): DeploymentState
    requires Launching(pc)
  {
    match pc
    case Pipeline(stage) => stage
    case Starting(_) => STARTING
    case Started(_, _) => STARTING
    case Polling(_) => HEALTH_CHECKING
    case Adopting(_) => HEALTH_CHECKING
    case Registering(_) => REGISTERING
    case Exposing(_) => EXPOSING
    case _ => RESTARTING
  }

  predicate Ended(d: Dep) {
    d.stopping || IsTerminal(d.state)
  }

  predicate EarlyStage(s: DeploymentState) {
    s == DISCOVERING || s == RESOLVING || s == PREPARING || s == INSTALLING || s == BUILDING || s == ALLOCATING
  }

  /** The entry to STARTING a launching task belongs to; 0 before it has one. */
  function EpochOf(pc: Pc): nat {
    match pc
    case Starting(e) => e
    case Started(e, _) => e
    case Polling(e) => e
    case Adopting(e) => e
    case Registering(e) => e
    case Exposing(e) => e
    case _ => 0
  }

  /** A launching task of a deployment that has not ended belongs to the latest entry to STARTING. */
  predicate OwnEpoch(pc: Pc, tally: Tally) {
    && (pc.Pipeline? ==> EarlyStage(pc.stage))
    && (pc.Starting? || pc.Started? || pc.Polling? ==> 0 < EpochOf(pc) == tally.epoch)
    && (pc.Adopting? || pc.Registering? || pc.Exposing? ==> 0 < EpochOf(pc) == tally.epoch == tally.okEpoch)
  }

  predicate TaskOk(d: Dep, pc: Pc) {
    && (Launching(pc) && !Ended(d) ==> d.state == StateOf(pc) && OwnEpoch(pc, d.tally))
    && (pc.Aborting? || pc.Tearing? ==> d.stopping)
    && (pc.TornDown? || pc.Lingering? ==> IsTerminal(d.state))
    && EpochOf(pc) <= d.tally.epoch
  }

  ghost predicate TasksOk(d: Dep) {
    && (forall t :: t in d.tasks ==> t < d.nextTask && TaskOk(d, d.tasks[t].pc))
    && (forall t, u :: t in d.tasks && u in d.tasks && Launching(d.tasks[t].pc) && Launching(d.tasks[u].pc) ==> t == u)
  }

  /** It will write the state again: it launches, fails or tears down. */
  predicate Driving(pc: Pc) {
    Launching(pc) || pc.GivingUp? || pc.Failing? || pc.Aborting? || pc.Tearing?
  }

  predicate Waiting(s: DeploymentState) {
    s != LIVE && !IsTerminal(s)
  }

  ghost predicate Driven(d: Dep) {
    Waiting(d.state) ==>
      exists t :: t in d.tasks && Driving(d.tasks[t].pc) && (d.stopping ==> d.tasks[t].pc.Aborting? || d.tasks[t].pc.Tearing?)
  }

  predicate StopOk(d: Dep) {
    && (d.stopping ==> d.state == STOPPING || IsTerminal(d.state))
    && (d.state == STOPPING || d.state == STOPPED ==> d.stopping)
    && d.tally.teardowns == (if d.stopping then 1 else 0)
  }

  predicate PastHealth(s: DeploymentState) {
    s == REGISTERING || s == EXPOSING || s == LIVE
  }

  predicate HealthOk(d: Dep) {
    && d.tally.okEpoch <= d.tally.epoch
    && (PastHealth(d.state) ==> 0 < d.tally.okEpoch == d.tally.epoch)
  }

  predicate BudgetOk(d: Dep) {
    && d.attempts <= d.cfg.maxRetries
    && d.tally.crashes <= d.cfg.maxRetries * d.tally.resets + d.attempts
    && d.tally.lives + (if Waiting(d.state) && d.state != STOPPING then 1 else 0)
         <= 1 + d.tally.crashes + d.tally.requests
  }

  ghost predicate DepInv(d: Dep) {
    TasksOk(d) && Driven(d) && StopOk(d) && HealthOk(d) && BudgetOk(d)
  }
}
