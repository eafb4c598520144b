/** Every step of one deployment keeps the invariant of the protocol. */
module DeploymentInvariants {
  import opened Wrappers
  import opened DeploymentStates
  import opened DeploymentProtocol

  /** No task but `t` is on its way to LIVE. */
  ghost predicate OnlyLauncher(d: Dep, t: TaskId) {
    forall u :: u in d.tasks && u != t ==> !Launching(d.tasks[u].pc)
  }

  lemma NewDepInv(project: ProjectId, cfg: Config)
    ensures DepInv(NewDep(project, cfg))
  {
    var d := NewDep(project, cfg);
    assert d.tasks == map[0 := Task(Run, Pipeline(DISCOVERING))];
    assert 0 in d.tasks && Driving(d.tasks[0].pc);
  }

  // ── the tasks ─────────────────────────────────────────────

  lemma LaunchWriteKeepsTasks(d: Dep, t: TaskId, owner: Owner, to: DeploymentState, pc: Pc)
    requires TasksOk(d) && StopOk(d) && t < d.nextTask && OnlyLauncher(d, t)
    requires !Ended(d) && MayTransition(d, to) && !IsTerminal(to) && to != STOPPING
    requires (Launching(pc) && StateOf(pc) == to && OwnEpoch(pc, Write(d, to).tally)) || (pc.LiveTail? && to == LIVE)
    requires EpochOf(pc) <= Write(d, to).tally.epoch
    ensures var r := Suspend(Write(d, to), t, owner, pc); TasksOk(r) && Driven(r) && StopOk(r)
  {
    var r := Suspend(Write(d, to), t, owner, pc);
    assert t in r.tasks && r.tasks[t].pc == pc;
    forall u | u in r.tasks
      ensures u < r.nextTask && TaskOk(r, r.tasks[u].pc)
    {
      if u != t { assert TaskOk(d, d.tasks[u].pc); }
    }
  }

  /** Replacing a task by one that no longer launches, without touching the state. */
  lemma SuspendKeepsTasks(d: Dep, t: TaskId, owner: Owner, pc: Pc)
    requires TasksOk(d) && t < d.nextTask
    requires TaskOk(d, pc)
    requires Launching(pc) ==> OnlyLauncher(d, t)
    ensures TasksOk(Suspend(d, t, owner, pc))
  {}

  lemma FinishKeepsTasks(d: Dep, t: TaskId)
    requires TasksOk(d)
    ensures TasksOk(Finish(d, t))
  {}

  /** Ending a deployment: the new state is STOPPING or terminal. */
  lemma EndKeepsTasks(d: Dep, d': Dep)
    requires TasksOk(d)
    requires d'.tasks == d.tasks && d'.nextTask == d.nextTask && Ended(d')
    requires (d.stopping ==> d'.stopping) && d'.tally.epoch == d.tally.epoch
    requires IsTerminal(d.state) ==> IsTerminal(d'.state)
    ensures TasksOk(d')
  {}

  // ── failing ───────────────────────────────────────────────

  lemma FailKeeps(d: Dep, t: TaskId, owner: Owner)
    requires TasksOk(d) && StopOk(d) && HealthOk(d) && BudgetOk(d) && t < d.nextTask
    requires d.stopping ==> Driven(d) && (t in d.tasks ==> !d.tasks[t].pc.Aborting? && !d.tasks[t].pc.Tearing?)
    ensures DepInv(Fail(d, t, owner))
  {
    var r := Fail(d, t, owner);
    if d.stopping {
      FinishKeepsTasks(d, t);
      if Waiting(d.state) {
        var u :| u in d.tasks && (d.tasks[u].pc.Aborting? || d.tasks[u].pc.Tearing?);
        assert u in r.tasks && r.tasks[u] == d.tasks[u];
      }
    } else {
      SuspendKeepsTasks(d, t, owner, Failing);
      assert t in r.tasks && r.tasks[t].pc == Failing;
    }
  }

  lemma CatchKeeps(d: Dep, t: TaskId, owner: Owner)
    requires TasksOk(d) && StopOk(d) && HealthOk(d) && BudgetOk(d) && t < d.nextTask
    requires d.stopping ==> Driven(d) && (t in d.tasks ==> !d.tasks[t].pc.Aborting? && !d.tasks[t].pc.Tearing?)
    ensures DepInv(Catch(d, t, owner))
  {
    var d1 := if owner == Relaunch then d.(relaunching := false) else d;
    assert TasksOk(d1) by {
      forall u | u in d1.tasks ensures u < d1.nextTask && TaskOk(d1, d1.tasks[u].pc) { assert TaskOk(d, d.tasks[u].pc); }
    }
    if d.stopping && Waiting(d.state) {
      var u :| u in d.tasks && (d.tasks[u].pc.Aborting? || d.tasks[u].pc.Tearing?);
      assert u in d1.tasks && Driving(d1.tasks[u].pc);
    }
    FailKeeps(d1, t, owner);
  }

  // ── advancing ─────────────────────────────────────────────

  lemma AdvanceKeeps(d: Dep, t: TaskId, owner: Owner, to: DeploymentState, pc: Pc)
    requires TasksOk(d) && StopOk(d) && HealthOk(d) && BudgetOk(d) && t < d.nextTask && OnlyLauncher(d, t)
    requires d.stopping ==> Driven(d) && (t in d.tasks ==> !d.tasks[t].pc.Aborting? && !d.tasks[t].pc.Tearing?)
    requires Index(to) < 12 && to != CREATED
    requires Waiting(d.state) || Ended(d)
    requires !Ended(d) ==>
      && ((Launching(pc) && StateOf(pc) == to && OwnEpoch(pc, Write(d, to).tally)) || (pc.LiveTail? && to == LIVE))
      && (PastHealth(to) ==> 0 < d.tally.okEpoch == d.tally.epoch)
    ensures DepInv(Advance(d, t, owner, to, pc))
  {
    if MayTransition(d, to) {
      if Ended(d) { EndedMayNot(d, to); }
      hide TasksOk, Driven, OnlyLauncher, MayTransition;
      WriteKeepsCounts(d, to);
      LaunchWriteKeepsTasks(d, t, owner, to, pc);
    } else {
      hide TasksOk, Driven, HealthOk, BudgetOk, StopOk, Catch, OnlyLauncher, OwnEpoch, MayTransition;
      CatchKeeps(d, t, owner);
    }
  }

  lemma EndedMayNot(d: Dep, to: DeploymentState)
    requires StopOk(d) && Ended(d) && Index(to) < 12 && to != CREATED
    ensures !MayTransition(d, to)
  {}

  lemma WriteKeepsCounts(d: Dep, to: DeploymentState)
    requires HealthOk(d) && BudgetOk(d) && Waiting(d.state) && d.state != STOPPING && Index(to) < 12
    requires PastHealth(to) ==> 0 < d.tally.okEpoch == d.tally.epoch
    ensures HealthOk(Write(d, to)) && BudgetOk(Write(d, to))
  {}

  /** A change that touches neither the tasks nor the state keeps what the tasks and the stop flag promise. */
  ghost predicate SameCourse(d: Dep, d': Dep) {
    && d'.tasks == d.tasks && d'.nextTask >= d.nextTask
    && d'.state == d.state && d'.stopping == d.stopping && d'.cfg == d.cfg
    && d'.tally == d.tally && d'.attempts == d.attempts
  }

  lemma SameCourseKeeps(d: Dep, d': Dep)
    requires TasksOk(d) && SameCourse(d, d')
    ensures TasksOk(d') && (Driven(d) ==> Driven(d')) && (StopOk(d) ==> StopOk(d'))
    ensures (HealthOk(d) ==> HealthOk(d')) && (BudgetOk(d) ==> BudgetOk(d'))
  {}

  /** A task that neither launches nor tears down may end or wait elsewhere without anyone noticing. */
  lemma PassiveKeeps(d: Dep, t: TaskId, r: Dep)
    requires DepInv(d) && t in d.tasks && !Driving(d.tasks[t].pc)
    requires r == Finish(d, t)
    ensures DepInv(r)
  {
    FinishKeepsTasks(d, t);
    if Waiting(d.state) {
      var u :| u in d.tasks && Driving(d.tasks[u].pc) && (d.stopping ==> d.tasks[u].pc.Aborting? || d.tasks[u].pc.Tearing?);
      assert u in r.tasks && r.tasks[u] == d.tasks[u];
    }
  }

  /** A launching task may stop launching once the deployment has ended. */
  lemma QuitKeeps(d: Dep, t: TaskId)
    requires DepInv(d) && t in d.tasks && d.stopping && !d.tasks[t].pc.Aborting? && !d.tasks[t].pc.Tearing?
    ensures DepInv(Finish(d, t))
  {
    FailKeeps(d, t, Run);
  }

  lemma LauncherIsAlone(d: Dep, t: TaskId)
    requires TasksOk(d) && t in d.tasks && Launching(d.tasks[t].pc)
    ensures OnlyLauncher(d, t) && TaskOk(d, d.tasks[t].pc)
    ensures Waiting(d.state) || Ended(d)
  {}

  // ── resuming a launch ─────────────────────────────────────

  lemma LaunchKeeps(d: Dep, t: TaskId, owner: Owner)
    requires TasksOk(d) && StopOk(d) && HealthOk(d) && BudgetOk(d) && t < d.nextTask && OnlyLauncher(d, t)
    requires d.stopping ==> Driven(d) && (t in d.tasks ==> !d.tasks[t].pc.Aborting? && !d.tasks[t].pc.Tearing?)
    requires Waiting(d.state) || Ended(d)
    ensures DepInv(Launch(d, t, owner))
  {
    hide DepInv, TasksOk, Driven, StopOk, HealthOk, BudgetOk, Advance;
    AdvanceKeeps(d, t, owner, STARTING, Starting(d.tally.epoch + 1));
  }

  lemma PipelineKeeps(d: Dep, t: TaskId)
    requires DepInv(d) && t in d.tasks && d.tasks[t].pc.Pipeline?
    ensures DepInv(ResumePipeline(d, t, d.tasks[t].owner, d.tasks[t].pc.stage))
  {
    LauncherIsAlone(d, t);
    var stage := d.tasks[t].pc.stage;
    if stage == ALLOCATING {
      LaunchKeeps(d, t, d.tasks[t].owner);
    } else {
      var next := NextStage(d.cfg, stage);
      AdvanceKeeps(d, t, d.tasks[t].owner, next, Pipeline(next));
    }
  }

  lemma StartingKeeps(d: Dep, t: TaskId, e: nat)
    requires DepInv(d) && t in d.tasks && d.tasks[t].pc == Starting(e)
    ensures DepInv(Suspend(d.(instance := Some(d.instances), instances := d.instances + 1), t, d.tasks[t].owner,
                           Started(e, d.instances)))
  {
    LauncherIsAlone(d, t);
    var d1 := d.(instance := Some(d.instances), instances := d.instances + 1);
    SameCourseKeeps(d, d1);
    var owner, pc := d.tasks[t].owner, Started(e, d.instances);
    SuspendKeepsTasks(d1, t, owner, pc);
    MovedDriverKeeps(d1, t, owner, pc);
  }

  /** Replacing a driving task by another driving one keeps the deployment driven. */
  lemma MovedDriverKeeps(d: Dep, t: TaskId, owner: Owner, pc: Pc)
    requires Driven(d) && t in d.tasks && Driving(pc)
    requires d.tasks[t].pc.Aborting? || d.tasks[t].pc.Tearing? ==> pc.Aborting? || pc.Tearing?
    ensures Driven(Suspend(d, t, owner, pc))
  {
    var r := Suspend(d, t, owner, pc);
    if Waiting(d.state) {
      var u :| u in d.tasks && Driving(d.tasks[u].pc) && (d.stopping ==> d.tasks[u].pc.Aborting? || d.tasks[u].pc.Tearing?);
      assert u in r.tasks && Driving(r.tasks[u].pc);
    }
  }

  lemma StartedKeeps(d: Dep, t: TaskId, e: nat, i: InstanceId)
    requires DepInv(d) && t in d.tasks && d.tasks[t].pc == Started(e, i)
    ensures DepInv(Advance(d.(hooked := d.hooked + {i}), t, d.tasks[t].owner, HEALTH_CHECKING, Polling(e)))
  {
    LauncherIsAlone(d, t);
    var d1 := d.(hooked := d.hooked + {i});
    SameCourseKeeps(d, d1);
    AdvanceKeeps(d1, t, d.tasks[t].owner, HEALTH_CHECKING, Polling(e));
  }

  lemma PollingKeeps(d: Dep, t: TaskId, e: nat, ok: bool, adopts: bool)
    requires DepInv(d) && t in d.tasks && d.tasks[t].pc == Polling(e)
    ensures DepInv(ResumePolling(d, t, d.tasks[t].owner, e, ok, adopts))
  {
    LauncherIsAlone(d, t);
    var owner := d.tasks[t].owner;
    if d.stopping {
      QuitKeeps(d, t);
    } else if !ok {
      SuspendKeepsTasks(d, t, owner, GivingUp);
      MovedDriverKeeps(d, t, owner, GivingUp);
    } else {
      HealthyKeeps(d, t, e, adopts);
    }
  }

  /** Noting the healthy answer of the launcher that got it. */
  lemma AnswerKeeps(d: Dep, t: TaskId, e: nat)
    requires DepInv(d) && t in d.tasks && d.tasks[t].pc == Polling(e) && !d.stopping
    ensures var d1 := d.(tally := d.tally.(okEpoch := e));
      && TasksOk(d1) && Driven(d1) && StopOk(d1) && HealthOk(d1) && BudgetOk(d1) && OnlyLauncher(d1, t)
      && (!Ended(d1) ==> d1.state == HEALTH_CHECKING && 0 < e == d1.tally.epoch) && e <= d1.tally.epoch
  {}

  lemma HealthyKeeps(d: Dep, t: TaskId, e: nat, adopts: bool)
    requires DepInv(d) && t in d.tasks && d.tasks[t].pc == Polling(e) && !d.stopping
    ensures DepInv(ResumePolling(d, t, d.tasks[t].owner, e, true, adopts))
  {
    AnswerKeeps(d, t, e);
    var owner, d1 := d.tasks[t].owner, d.(tally := d.tally.(okEpoch := e));
    if adopts {
      SuspendKeepsTasks(d1, t, owner, Adopting(e));
      MovedDriverKeeps(d1, t, owner, Adopting(e));
    } else {
      AdvanceKeeps(d1, t, owner, REGISTERING, Registering(e));
    }
  }

  /** Past the health check every move either fails or has this launch's own healthy answer behind it. */
  lemma PastHealthKeeps(d: Dep, t: TaskId)
    requires DepInv(d) && t in d.tasks
    requires d.tasks[t].pc.Adopting? || d.tasks[t].pc.Registering? || d.tasks[t].pc.Exposing?
    ensures DepInv(ResumeTask(d, t, Done(true, false)))
  {
    hide StopOk, BudgetOk;
    LauncherIsAlone(d, t);
    var owner, pc := d.tasks[t].owner, d.tasks[t].pc;
    var (to, next) := match pc
      case Adopting(e) => (REGISTERING, Registering(e))
      case Registering(e) => (EXPOSING, Exposing(e))
      case _ => (LIVE, LiveTail);
    AdvanceKeeps(d, t, owner, to, next);
  }

  lemma RelaunchingKeeps(d: Dep, t: TaskId)
    requires DepInv(d) && t in d.tasks && d.tasks[t].pc.Relaunching?
    ensures DepInv(Launch(d.(relaunching := false, restarts := d.restarts + 1), t, d.tasks[t].owner))
  {
    LauncherIsAlone(d, t);
    var d1 := d.(relaunching := false, restarts := d.restarts + 1);
    SameCourseKeeps(d, d1);
    LaunchKeeps(d1, t, d.tasks[t].owner);
  }

  lemma BackoffKeeps(d: Dep, t: TaskId)
    requires DepInv(d) && t in d.tasks && d.tasks[t].pc.Backoff?
    ensures DepInv(if d.stopping then Finish(d, t) else Launch(d, t, d.tasks[t].owner))
  {
    LauncherIsAlone(d, t);
    if d.stopping {
      QuitKeeps(d, t);
    } else {
      LaunchKeeps(d, t, d.tasks[t].owner);
    }
  }

  // ── resuming an end ───────────────────────────────────────

  /** Writing a terminal state, or finding one, while the method goes on to its last wait. */
  lemma TerminalKeeps(d: Dep, d': Dep, t: TaskId, owner: Owner, pc: Pc)
    requires DepInv(d) && t < d.nextTask && (pc.Lingering? || pc.TornDown?)
    requires d' == d.(state := d'.state) && IsTerminal(d'.state) && (d'.state == STOPPED ==> d.stopping)
    ensures DepInv(Suspend(d', t, owner, pc))
  {
    EndKeepsTasks(d, d');
    SuspendKeepsTasks(d', t, owner, pc);
  }

  lemma AbortingKeeps(d: Dep, t: TaskId)
    requires DepInv(d) && t in d.tasks && d.tasks[t].pc.Aborting?
    ensures DepInv(Suspend(ClearTimer(d), t, d.tasks[t].owner, Tearing))
  {
    assert TaskOk(d, d.tasks[t].pc);
    var d1 := ClearTimer(d);
    SameCourseKeeps(d, d1);
    SuspendKeepsTasks(d1, t, d.tasks[t].owner, Tearing);
    MovedDriverKeeps(d1, t, d.tasks[t].owner, Tearing);
  }

  lemma LiveTailKeeps(d: Dep, t: TaskId)
    requires DepInv(d) && t in d.tasks && d.tasks[t].pc.LiveTail?
    ensures DepInv(Finish(ArmTimer(d), t))
  {
    var d1 := ArmTimer(d);
    SameCourseKeeps(d, d1);
    PassiveKeeps(d1, t, Finish(d1, t));
  }

  /** For every position but polling the outcome only matters by whether it threw. */
  lemma OutcomeIrrelevant(d: Dep, t: TaskId, o: Outcome)
    requires t in d.tasks && !d.tasks[t].pc.Polling? && !(o.Threw? && MayThrow(d.tasks[t].pc))
    ensures ResumeTask(d, t, o) == ResumeTask(d, t, Done(true, false))
  {}

  lemma FailingKeeps(d: Dep, t: TaskId)
    requires DepInv(d) && t in d.tasks && d.tasks[t].pc.Failing?
    ensures DepInv(Suspend(d.(state := FAILED), t, d.tasks[t].owner, Lingering))
  {
    hide Driven, StopOk, HealthOk, BudgetOk;
    TerminalKeeps(d, d.(state := FAILED), t, d.tasks[t].owner, Lingering);
  }

  lemma TearingKeeps(d: Dep, t: TaskId)
    requires DepInv(d) && t in d.tasks && d.tasks[t].pc.Tearing?
    ensures DepInv(Suspend(if d.state == STOPPING then Write(d, STOPPED) else d, t, d.tasks[t].owner, TornDown))
  {
    hide Driven, HealthOk, BudgetOk;
    assert TaskOk(d, d.tasks[t].pc);
    TerminalKeeps(d, if d.state == STOPPING then d.(state := STOPPED) else d, t, d.tasks[t].owner, TornDown);
  }

  lemma ResumeEndKeeps(d: Dep, t: TaskId)
    requires DepInv(d) && t in d.tasks && !Launching(d.tasks[t].pc) && !d.tasks[t].pc.GivingUp?
    ensures DepInv(ResumeTask(d, t, Done(true, false)))
  {
    hide DepInv, MayTransition, Suspend, Finish;
    match d.tasks[t].pc
    case LiveTail => LiveTailKeeps(d, t);
    case Failing => FailingKeeps(d, t);
    case Lingering => PassiveKeeps(d, t, Finish(d, t));
    case Aborting => AbortingKeeps(d, t);
    case Tearing => TearingKeeps(d, t);
    case TornDown => PassiveKeeps(d, t, Finish(d, t));
  }

  lemma ResumeStartKeeps(d: Dep, t: TaskId)
    requires DepInv(d) && t in d.tasks && (d.tasks[t].pc.Starting? || d.tasks[t].pc.Started?)
    ensures DepInv(ResumeTask(d, t, Done(true, false)))
  {
    match d.tasks[t].pc
    case Starting(e) => StartingKeeps(d, t, e);
    case Started(e, i) => StartedKeeps(d, t, e, i);
  }

  lemma ResumeKeeps(d: Dep, t: TaskId, o: Outcome)
    requires DepInv(d) && t in d.tasks
    ensures DepInv(ResumeTask(d, t, o))
  {
    hide Driven, StopOk, HealthOk, BudgetOk;
    var owner, pc := d.tasks[t].owner, d.tasks[t].pc;
    if o.Threw? && MayThrow(pc) {
      CatchKeeps(d, t, owner);
    } else if pc.Polling? {
      PollingKeeps(d, t, pc.epoch, o.Done? && o.ok, o.Done? && o.adopts);
    } else {
      OutcomeIrrelevant(d, t, o);
      if pc.Pipeline? {
        PipelineKeeps(d, t);
      } else if pc.Starting? || pc.Started? {
        ResumeStartKeeps(d, t);
      } else if pc.Relaunching? {
        RelaunchingKeeps(d, t);
      } else if pc.Backoff? {
        BackoffKeeps(d, t);
      } else if pc.GivingUp? {
        CatchKeeps(d, t, owner);
      } else if Launching(pc) {
        PastHealthKeeps(d, t);
      } else {
        ResumeEndKeeps(d, t);
      }
    }
  }

  // ── requests, exits and timers ────────────────────────────

  /** A stop request on a deployment that is still going. */
  lemma StopKeeps(d: Dep, t: TaskId, d': Dep, pc: Pc)
    requires DepInv(d) && !d.stopping && t < d.nextTask
    requires d'.tasks == d.tasks && d'.nextTask == d.nextTask && d'.cfg == d.cfg && d'.attempts == d.attempts
    requires d'.stopping && d'.tally == d.tally.(teardowns := 1)
    requires if IsTerminal(d.state) then d'.state == d.state && pc == Tearing else d'.state == STOPPING && pc == Aborting
    ensures DepInv(Suspend(d', t, Request, pc))
  {
    var r := Suspend(d', t, Request, pc);
    assert TasksOk(r) by {
      hide Driven, StopOk, HealthOk, BudgetOk;
      EndKeepsTasks(d, d');
      SuspendKeepsTasks(d', t, Request, pc);
    }
    assert Driven(r) && StopOk(r) && HealthOk(r) && BudgetOk(r) by {
      hide TasksOk;
      assert t in r.tasks && r.tasks[t].pc == pc;
    }
  }

  lemma TeardownKeeps(d: Dep)
    requires DepInv(d)
    ensures DepInv(Teardown(NewTask(d), d.nextTask))
  {
    var t, n := d.nextTask, NewTask(d);
    SameCourseKeeps(d, n);
    if d.stopping {
      FailKeeps(n, t, Request);
    } else {
      var d1 := n.(stopping := true, tally := n.tally.(teardowns := n.tally.teardowns + 1));
      if IsTerminal(d.state) {
        StopKeeps(n, t, ClearTimer(d1), Tearing);
      } else {
        assert MayTransition(d1, STOPPING);
        StopKeeps(n, t, Write(d1, STOPPING), Aborting);
      }
    }
  }

  /** Writing RESTARTING on a live deployment, with one more restart already counted. */
  lemma RestartWriteKeeps(d: Dep, t: TaskId, owner: Owner, pc: Pc)
    requires TasksOk(d) && StopOk(d) && !d.stopping && d.state == LIVE && t < d.nextTask && t !in d.tasks
    requires HealthOk(d) && BudgetOk(d)
    requires d.tally.lives + 1 <= 1 + d.tally.crashes + d.tally.requests
    requires pc.Relaunching? || pc.Backoff?
    ensures MayTransition(d, RESTARTING)
    ensures DepInv(Suspend(Write(d, RESTARTING), t, owner, pc))
  {
    forall u | u in d.tasks ensures !Launching(d.tasks[u].pc) { assert TaskOk(d, d.tasks[u].pc); }
    LaunchWriteKeepsTasks(d, t, owner, RESTARTING, pc);
  }

  lemma RelaunchBegins(d: Dep, t: TaskId)
    requires !d.stopping && (d.state == LIVE || d.state == RESTARTING)
    ensures var d1 := ClearTimer(d.(relaunching := true));
      RelaunchNow(d, t) ==
        if d.state == LIVE then
          Suspend(Write(d1.(tally := d1.tally.(requests := d1.tally.requests + 1)), RESTARTING), t, Relaunch, Relaunching)
        else Catch(d1, t, Relaunch)
  {
    hide Catch, Write, Suspend;
  }

  lemma ActiveIsNotStopping(d: Dep)
    requires TasksOk(d) && StopOk(d) && (d.state == LIVE || d.state == RESTARTING)
    ensures d.nextTask !in d.tasks && !d.stopping
  {}

  lemma InPlaceKeeps(d: Dep)
    requires DepInv(d) && (d.state == LIVE || d.state == RESTARTING)
    ensures DepInv(RelaunchNow(NewTask(d), d.nextTask))
  {
    hide TasksOk, Driven, HealthOk, BudgetOk, StopOk, RelaunchNow, Catch, Write, Suspend;
    ActiveIsNotStopping(d);
    var (t, d1) := (d.nextTask, ClearTimer(NewTask(d).(relaunching := true)));
    SameCourseKeeps(d, d1);
    RelaunchBegins(NewTask(d), t);
    if d.state == LIVE { LiveRestartKeeps(d1, t); } else { CatchKeeps(d1, t, Relaunch); }
  }

  lemma RestartKeeps(d: Dep)
    requires DepInv(d)
    ensures DepInv(OnRestart(d))
  {
    hide DepInv, Teardown, RelaunchNow;
    if d.state == LIVE || d.state == RESTARTING { InPlaceKeeps(d); } else { TeardownKeeps(d); }
  }

  lemma LiveRestartKeeps(d: Dep, t: TaskId)
    requires DepInv(d) && d.state == LIVE && t < d.nextTask && t !in d.tasks
    ensures var d2 := d.(tally := d.tally.(requests := d.tally.requests + 1));
      MayTransition(d2, RESTARTING) && DepInv(Suspend(Write(d2, RESTARTING), t, Relaunch, Relaunching))
  {
    var d2 := d.(tally := d.tally.(requests := d.tally.requests + 1));
    assert TasksOk(d2) by {
      forall u | u in d2.tasks ensures u < d2.nextTask && TaskOk(d2, d2.tasks[u].pc) { assert TaskOk(d, d.tasks[u].pc); }
    }
    hide TasksOk, Driven;
    RestartWriteKeeps(d2, t, Relaunch, Relaunching);
  }

  lemma ExitKeeps(d: Dep, i: InstanceId, code: Option<int>)
    requires DepInv(d)
    ensures DepInv(OnExit(d, i, code))
  {
    hide TasksOk, Driven, StopOk, HealthOk, BudgetOk, OnLiveExit;
    if d.instance != Some(i) || d.stopping || d.relaunching {
    } else if d.state != LIVE {
      SameCourseKeeps(d, ClearTimer(d));
    } else {
      SameCourseKeeps(d, ClearTimer(d));
      LiveExitKeeps(ClearTimer(d), code);
    }
  }

  lemma LiveExitKeeps(d: Dep, code: Option<int>)
    requires DepInv(d) && !d.stopping && d.state == LIVE
    ensures DepInv(OnLiveExit(d, code))
  {
    hide TaskOk, Advance, Teardown, Fail, MayTransition;
    if !ShouldRestart(d.cfg, code) && code == Some(0) {
      TeardownKeeps(d);
    } else if !ShouldRestart(d.cfg, code) || d.attempts >= d.cfg.maxRetries {
      SameCourseKeeps(d, NewTask(d));
      FailKeeps(NewTask(d), d.nextTask, Crash);
    } else {
      CrashKeeps(d);
    }
  }

  lemma CrashKeeps(d: Dep)
    requires DepInv(d) && !d.stopping && d.state == LIVE && d.attempts < d.cfg.maxRetries
    ensures DepInv(Advance(
      NewTask(d).(attempts := d.attempts + 1, restarts := d.restarts + 1,
                  tally := d.tally.(crashes := d.tally.crashes + 1)), d.nextTask, Crash, RESTARTING, Backoff))
  {
    var d2 := NewTask(d).(attempts := d.attempts + 1, restarts := d.restarts + 1,
                          tally := d.tally.(crashes := d.tally.crashes + 1));
    assert TasksOk(d2) by {
      forall u | u in d2.tasks ensures u < d2.nextTask && TaskOk(d2, d2.tasks[u].pc) { assert TaskOk(d, d.tasks[u].pc); }
    }
    RestartWriteKeeps(d2, d.nextTask, Crash, Backoff);
  }

  lemma TimerKeeps(d: Dep, k: nat)
    requires DepInv(d) && k in d.armed
    ensures DepInv(DepStep(d, StableTimerFired(k)))
  {}

  /** The invariant holds after every atomic step, whichever task, request, exit or timer runs next. */
  lemma StepKeeps(d: Dep, e: DepEvent)
    requires DepInv(d)
    ensures DepInv(DepStep(d, e))
  {
    match e
    case Resume(t, o) => if t in d.tasks { ResumeKeeps(d, t, o); }
    case Exited(i, code) =>
      if i in d.hooked {
        var d1 := d.(hooked := d.hooked - {i});
        SameCourseKeeps(d, d1);
        ExitKeeps(d1, i, code);
      }
    case RestartRequested => RestartKeeps(d);
    case StopRequested => TeardownKeeps(d);
    case StableTimerFired(k) => if k in d.armed { TimerKeeps(d, k); }
  }
}
