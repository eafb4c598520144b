/** What one atomic step may do to the state and to the history of a deployment. */
module DeploymentSteps {
  import opened Wrappers
  import opened DeploymentStates
  import opened DeploymentProtocol

  /** Every change of the state is a transition of the table, except for FAILED written on an ended deployment. */
  predicate TableRespected(d: Dep, r: Dep) {
    r.state == d.state || CanTransition(d.state, r.state) || (r.state == FAILED && Ended(d))
  }

  /** A requested stop is final: the flag stays, and the launch counters no longer move. */
  predicate StopRespected(d: Dep, r: Dep) {
    d.stopping ==> r.stopping && r.tally.lives == d.tally.lives && r.tally.epoch == d.tally.epoch
  }

  /** A new launch is the only thing that changes `epoch`, and it leaves the last healthy answer behind. */
  predicate EpochRespected(d: Dep, r: Dep) {
    || r.tally.epoch == d.tally.epoch
    || (r.tally.epoch == d.tally.epoch + 1 && r.tally.okEpoch == d.tally.okEpoch && r.state == STARTING)
  }

  ghost predicate Promise(d: Dep, r: Dep) {
    && (IsTerminal(d.state) ==> IsTerminal(r.state))
    && TableRespected(d, r) && StopRespected(d, r) && EpochRespected(d, r)
    && r.tally.lives == d.tally.lives + (if d.state != LIVE && r.state == LIVE then 1 else 0)
  }

  predicate SameCounts(a: Tally, b: Tally) {
    a.crashes == b.crashes && a.requests == b.requests && a.resets == b.resets
  }

  /** A step that is neither an answer of the health check nor a restart nor a timer. */
  ghost predicate Plain(d: Dep, r: Dep) {
    Promise(d, r) && r.tally.okEpoch == d.tally.okEpoch && SameCounts(d.tally, r.tally)
  }

  predicate Restarted(d: Dep, r: Dep) {
    d.state == LIVE && r.state == RESTARTING
  }

  /** Crash restarts are exits that leave LIVE for RESTARTING, requested ones are requests that do, resets are timers. */
  predicate Counted(d: Dep, e: DepEvent, r: Dep) {
    && r.tally.crashes == d.tally.crashes + (if e.Exited? && Restarted(d, r) then 1 else 0)
    && r.tally.requests == d.tally.requests + (if e.RestartRequested? && Restarted(d, r) then 1 else 0)
    && r.tally.resets == d.tally.resets + (if e.StableTimerFired? && e.timer in d.armed then 1 else 0)
  }

  /** `e` is the successful end of `waitForHealthy` in the launcher of entry `epoch`. */
  predicate HealthyAnswer(d: Dep, e: DepEvent, epoch: nat) {
    && e.Resume? && e.task in d.tasks && d.tasks[e.task].pc == Polling(epoch)
    && e.outcome.Done? && e.outcome.ok
  }

  /** `okEpoch` only ever takes the number of the launch that just got a healthy answer. */
  predicate Answered(d: Dep, e: DepEvent, r: Dep) {
    r.tally.okEpoch == d.tally.okEpoch || HealthyAnswer(d, e, r.tally.okEpoch)
  }

  lemma FailPromise(d: Dep, t: TaskId, owner: Owner)
    ensures Plain(d, Fail(d, t, owner)) && Plain(d, Catch(d, t, owner)) && Fail(d, t, owner).state == d.state
  {}

  lemma AdvancePromise(d: Dep, t: TaskId, owner: Owner, to: DeploymentState, pc: Pc)
    requires !FreshStart(to) && to != STOPPING && to != STOPPED && to != FAILED
    ensures Plain(d, Advance(d, t, owner, to, pc))
  {
    FailPromise(d, t, owner);
  }

  lemma LaunchPromise(d: Dep, t: TaskId, owner: Owner)
    ensures Plain(d, Launch(d, t, owner))
  {}

  lemma TeardownPromise(d: Dep, t: TaskId)
    ensures Plain(d, Teardown(d, t)) && (Teardown(d, t).state == d.state || Teardown(d, t).state == STOPPING)
  {}

  lemma RelaunchPromise(d: Dep, t: TaskId)
    requires d.state == LIVE || d.state == RESTARTING
    ensures var r := RelaunchNow(d, t);
      Promise(d, r) && r.tally.okEpoch == d.tally.okEpoch && Counted(d, RestartRequested, r)
  {}

  lemma PollingPromise(d: Dep, t: TaskId, owner: Owner, epoch: nat, ok: bool, adopts: bool)
    ensures Promise(d, ResumePolling(d, t, owner, epoch, ok, adopts))
    ensures SameCounts(d.tally, ResumePolling(d, t, owner, epoch, ok, adopts).tally)
    ensures ResumePolling(d, t, owner, epoch, ok, adopts).tally.okEpoch == d.tally.okEpoch
      || (ok && ResumePolling(d, t, owner, epoch, ok, adopts).tally.okEpoch == epoch)
  {
    AdvancePromise(d.(tally := d.tally.(okEpoch := epoch)), t, owner, REGISTERING, Registering(epoch));
  }

  lemma PipelinePromise(d: Dep, t: TaskId, owner: Owner, stage: DeploymentState)
    ensures Plain(d, ResumePipeline(d, t, owner, stage))
  {
    LaunchPromise(d, t, owner);
    var next := NextStage(d.cfg, stage);
    AdvancePromise(d, t, owner, next, Pipeline(next));
  }

  lemma ResumePollingPromise(d: Dep, t: TaskId, o: Outcome)
    requires t in d.tasks && d.tasks[t].pc.Polling?
    ensures Promise(d, ResumeTask(d, t, o))
    ensures Answered(d, Resume(t, o), ResumeTask(d, t, o)) && SameCounts(d.tally, ResumeTask(d, t, o).tally)
  {
    hide Promise, CanTransition, ResumePolling;
    var owner, pc := d.tasks[t].owner, d.tasks[t].pc;
    if o.Threw? {
      FailPromise(d, t, owner);
      assert ResumeTask(d, t, o) == Catch(d, t, owner);
    } else {
      PollingPromise(d, t, owner, pc.epoch, o.ok, o.adopts);
    }
  }

  lemma ResumeLaunchPromise(d: Dep, t: TaskId, o: Outcome)
    requires t in d.tasks && Launching(d.tasks[t].pc) && !d.tasks[t].pc.Polling?
    ensures Promise(d, ResumeTask(d, t, o))
    ensures Answered(d, Resume(t, o), ResumeTask(d, t, o)) && SameCounts(d.tally, ResumeTask(d, t, o).tally)
  {
    hide CanTransition, Advance, Fail;
    var owner, pc := d.tasks[t].owner, d.tasks[t].pc;
    if o.Threw? && MayThrow(pc) {
      FailPromise(d, t, owner);
    } else {
      match pc
      case Pipeline(stage) => PipelinePromise(d, t, owner, stage);
      case Starting(_) =>
      case Started(e, i) => AdvancePromise(d.(hooked := d.hooked + {i}), t, owner, HEALTH_CHECKING, Polling(e));
      case Adopting(e) => AdvancePromise(d, t, owner, REGISTERING, Registering(e));
      case Registering(e) => AdvancePromise(d, t, owner, EXPOSING, Exposing(e));
      case Exposing(_) => AdvancePromise(d, t, owner, LIVE, LiveTail);
      case Relaunching => LaunchPromise(d.(relaunching := false, restarts := d.restarts + 1), t, owner);
      case Backoff => LaunchPromise(d, t, owner);
    }
  }

  lemma FailedPromise(d: Dep, t: TaskId, owner: Owner)
    ensures Plain(d, Suspend(if MayTransition(d, FAILED) then Write(d, FAILED) else d.(state := FAILED), t, owner, Lingering))
  {}

  lemma TornPromise(d: Dep, t: TaskId, owner: Owner)
    requires d.stopping
    ensures Plain(d, Suspend(if d.state == STOPPING then Write(d, STOPPED) else d, t, owner, TornDown))
  {}

  lemma ResumeEndPromise(d: Dep, t: TaskId, o: Outcome)
    requires TasksOk(d) && t in d.tasks && !Launching(d.tasks[t].pc)
    ensures Plain(d, ResumeTask(d, t, o))
  {
    var owner, pc := d.tasks[t].owner, d.tasks[t].pc;
    assert TaskOk(d, pc);
    if pc.GivingUp? {
      FailPromise(d, t, owner);
    } else if pc.Failing? {
      FailedPromise(d, t, owner);
    } else if pc.Tearing? {
      TornPromise(d, t, owner);
    } else {
      assert ResumeTask(d, t, o).state == d.state && ResumeTask(d, t, o).tally == d.tally;
    }
  }

  lemma ExitPromise(d: Dep, i: InstanceId, code: Option<int>)
    ensures var r := OnExit(d, i, code);
      Promise(d, r) && r.tally.okEpoch == d.tally.okEpoch && Counted(d, Exited(i, code), r)
  {
    if d.instance == Some(i) && !d.stopping && !d.relaunching && d.state == LIVE {
      hide OnLiveExit;
      LiveExitPromise(ClearTimer(d), i, code);
    }
  }

  lemma LiveExitPromise(d: Dep, i: InstanceId, code: Option<int>)
    requires d.state == LIVE && !d.stopping
    ensures var r := OnLiveExit(d, code);
      Promise(d, r) && r.tally.okEpoch == d.tally.okEpoch && Counted(d, Exited(i, code), r)
  {
    hide Advance, Teardown, Fail, CanTransition;
    var (t, d1) := (d.nextTask, NewTask(d));
    if ShouldRestart(d.cfg, code) && d.attempts < d.cfg.maxRetries {
      CrashPromise(d1, t, i, code);
    } else if !ShouldRestart(d.cfg, code) && code == Some(0) {
      TeardownPromise(d1, t);
    } else {
      FailPromise(d1, t, Crash);
    }
  }

  lemma CrashPromise(d: Dep, t: TaskId, i: InstanceId, code: Option<int>)
    requires d.state == LIVE && !d.stopping
    ensures var r := Advance(d.(attempts := d.attempts + 1, restarts := d.restarts + 1,
                                tally := d.tally.(crashes := d.tally.crashes + 1)), t, Crash, RESTARTING, Backoff);
      Promise(d, r) && r.tally.okEpoch == d.tally.okEpoch && Counted(d, Exited(i, code), r)
  {}

  lemma RestartPromise(d: Dep)
    ensures var r := OnRestart(d);
      Promise(d, r) && r.tally.okEpoch == d.tally.okEpoch && Counted(d, RestartRequested, r)
  {
    if d.state == LIVE || d.state == RESTARTING {
      RelaunchPromise(NewTask(d), d.nextTask);
    } else {
      TeardownPromise(NewTask(d), d.nextTask);
    }
  }

  /** The promise of every atomic step of a deployment in a reachable condition. */
  lemma StepPromise(d: Dep, e: DepEvent)
    requires TasksOk(d)
    ensures Promise(d, DepStep(d, e)) && Answered(d, e, DepStep(d, e)) && Counted(d, e, DepStep(d, e))
  {
    match e
    case Resume(t, o) =>
      if t in d.tasks {
        if d.tasks[t].pc.Polling? {
          ResumePollingPromise(d, t, o);
        } else if Launching(d.tasks[t].pc) {
          ResumeLaunchPromise(d, t, o);
        } else {
          ResumeEndPromise(d, t, o);
        }
      }
    case Exited(i, code) => if i in d.hooked { ExitPromise(d.(hooked := d.hooked - {i}), i, code); }
    case RestartRequested => RestartPromise(d);
    case StopRequested => TeardownPromise(NewTask(d), d.nextTask);
    case StableTimerFired(_) =>
  }
}
