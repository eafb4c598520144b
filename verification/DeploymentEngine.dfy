/**
 * The engine's own objects. `Live` is the record its methods update field by field, `DeploymentEngine` the class that
 * keeps the `live` map. Each method is one synchronous stretch of the engine's methods and is tied to the protocol's step.
 */
module DeploymentEngine {
  import opened Wrappers
  import opened DeploymentStates
  import opened DeploymentProtocol
  import Runs = DeploymentRuns

  class Live {
    const id: DepId
    const project: ProjectId
    const cfg: Config
    var state: DeploymentState
    var stopping: bool
    var relaunching: bool
    var instance: Option<InstanceId>
    var instances: nat
    var hooked: set<InstanceId>
    var restartAttempts: nat
    var restartCount: nat
    var stableTimer: Option<nat>
    var armed: set<nat>
    var timers: nat
    /** The suspended methods that hold this record. */
    var tasks: map<TaskId, Task>
    var nextTask: TaskId
    /** What happened so far; the engine has no such field. */
    var tally: Tally

    ghost function Snapshot(): Dep
      reads this
    {
      Dep(project, cfg, state, stopping, relaunching, instance, instances, hooked, restartAttempts, restartCount,
          stableTimer, armed, timers, tasks, nextTask, tally)
    }

    predicate HasEnded()
      reads this
      ensures HasEnded() == IsTerminal(Snapshot().state)
    {
      IsTerminal(state)
    }

    /** The resumption after which a method forgets the record. */
    predicate AtLastWait(e: DepEvent)
      reads this
      ensures AtLastWait(e) == Runs.Leaves(Snapshot(), e) && Snapshot().project == project
    {
      e.Resume? && e.task in tasks && (tasks[e.task].pc.TornDown? || tasks[e.task].pc.Lingering?)
    }

    /** The record `deploy` creates, with `run` suspended in its first await. */
    constructor (id: DepId, project: ProjectId, cfg: Config)
      ensures this.id == id && this.project == project && Snapshot() == NewDep(project, cfg)
    {
      this.id, this.project, this.cfg := id, project, cfg;
      state, stopping, relaunching := CREATED, false, false;
      instance, instances, hooked := None, 0, {};
      restartAttempts, restartCount := 0, 0;
      stableTimer, armed, timers := None, {}, 0;
      tasks, nextTask := map[], 1;
      tally := Tally(0, 0, 0, 0, 0, 0, 0);
      new;
      Advance(0, Run, DISCOVERING, Pipeline(DISCOVERING));
    }

    // ── helpers ─────────────────────────────────────────────

    /** The two checks of `transition`; it throws when they fail. */
    predicate Allows(to: DeploymentState)
      reads this
      ensures Allows(to) == MayTransition(Snapshot(), to)
    {
      (stopping ==> to == STOPPING || to == STOPPED) && CanTransition(state, to)
    }

    /** The write of `transition`, before its first await. */
    method SetState(to: DeploymentState)
      modifies this
      ensures Snapshot() == Write(old(Snapshot()), to)
    {
      state := to;
      if to == STARTING { tally := tally.(epoch := tally.epoch + 1); }
      if to == LIVE { tally := tally.(lives := tally.lives + 1); }
    }

    method Wait(t: TaskId, owner: Owner, pc: Pc)
      modifies this
      ensures Snapshot() == Suspend(old(Snapshot()), t, owner, pc)
    {
      tasks := tasks[t := Task(owner, pc)];
    }

    method Return(t: TaskId)
      modifies this
      ensures Snapshot() == Finish(old(Snapshot()), t)
    {
      tasks := tasks - {t};
    }

    method ClearStableTimer()
      modifies this
      ensures Snapshot() == ClearTimer(old(Snapshot()))
    {
      if stableTimer.Some? { armed := armed - {stableTimer.value}; }
    }

    method OpenTask() returns (t: TaskId)
      modifies this
      ensures t == old(nextTask) && Snapshot() == NewTask(old(Snapshot()))
    {
      t := nextTask;
      nextTask := nextTask + 1;
    }

    method BeginFail(t: TaskId, owner: Owner)
      modifies this
      ensures Snapshot() == Fail(old(Snapshot()), t, owner)
    {
      if stopping { Return(t); return; }
      Wait(t, owner, Failing);
    }

    method CatchError(t: TaskId, owner: Owner)
      modifies this
      ensures Snapshot() == Catch(old(Snapshot()), t, owner)
    {
      if owner == Relaunch { relaunching := false; }
      BeginFail(t, owner);
    }

    method Advance(t: TaskId, owner: Owner, to: DeploymentState, pc: Pc)
      modifies this
      ensures Snapshot() == DeploymentProtocol.Advance(old(Snapshot()), t, owner, to, pc)
    {
      hide CanTransition, Catch;
      if Allows(to) {
        SetState(to);
        Wait(t, owner, pc);
      } else {
        CatchError(t, owner);
      }
    }

    // ── the methods of the engine on this record ────────────

    /** The beginning of `launch`. */
    method BeginLaunch(t: TaskId, owner: Owner)
      modifies this
      ensures Snapshot() == Launch(old(Snapshot()), t, owner)
    {
      var epoch := tally.epoch + 1;
      Advance(t, owner, STARTING, Starting(epoch));
    }

    /** The beginning of `teardown`. */
    method BeginTeardown(t: TaskId)
      modifies this
      ensures Snapshot() == Teardown(old(Snapshot()), t)
    {
      if stopping && IsTerminal(state) { Return(t); return; }
      var wasStopping := stopping;
      stopping := true;
      if wasStopping { Return(t); return; }
      tally := tally.(teardowns := tally.teardowns + 1);
      if !IsTerminal(state) {
        if Allows(STOPPING) { SetState(STOPPING); }
        Wait(t, Request, Aborting);
      } else {
        ClearStableTimer();
        Wait(t, Request, Tearing);
      }
    }

    /** The beginning of `relaunch`. */
    method BeginRelaunch(t: TaskId)
      modifies this
      ensures Snapshot() == RelaunchNow(old(Snapshot()), t)
    {
      relaunching := true;
      ClearStableTimer();
      if Allows(RESTARTING) {
        tally := tally.(requests := tally.requests + 1);
        SetState(RESTARTING);
        Wait(t, Relaunch, Relaunching);
      } else {
        CatchError(t, Relaunch);
      }
    }

    /** `restart` once the record has been found. */
    method Restart()
      modifies this
      ensures Snapshot() == OnRestart(old(Snapshot()))
    {
      var t := OpenTask();
      if state == LIVE || state == RESTARTING { BeginRelaunch(t); } else { BeginTeardown(t); }
    }

    method Stop()
      modifies this
      ensures Snapshot() == DepStep(old(Snapshot()), StopRequested)
    {
      var t := OpenTask();
      BeginTeardown(t);
    }

    /** `onExit`, called once for every process whose exit is hooked. */
    method Exit(i: InstanceId, code: Option<int>)
      requires i in hooked
      modifies this
      ensures Snapshot() == DepStep(old(Snapshot()), Exited(i, code))
    {
      hide OnLiveExit;
      hooked := hooked - {i};
      if instance != Some(i) || stopping || relaunching { return; }
      ClearStableTimer();
      if state != LIVE { return; }
      LiveExit(code);
    }

    method LiveExit(code: Option<int>)
      modifies this
      ensures Snapshot() == OnLiveExit(old(Snapshot()), code)
    {
      hide CanTransition, DeploymentProtocol.Advance, Teardown, Fail;
      var t := OpenTask();
      if !ShouldRestart(cfg, code) {
        if code == Some(0) { BeginTeardown(t); return; }
        BeginFail(t, Crash);
        return;
      }
      if restartAttempts >= cfg.maxRetries { BeginFail(t, Crash); return; }
      restartAttempts := restartAttempts + 1;
      restartCount := restartCount + 1;
      tally := tally.(crashes := tally.crashes + 1);
      Advance(t, Crash, RESTARTING, Backoff);
    }

    /** The 60 s timer set after LIVE. */
    method StableTimer(k: nat)
      requires k in armed
      modifies this
      ensures Snapshot() == DepStep(old(Snapshot()), StableTimerFired(k))
    {
      armed := armed - {k};
      restartAttempts := 0;
      tally := tally.(resets := tally.resets + 1);
    }

    // ── what follows each await ─────────────────────────────

    /** `run` goes on to the next stage, and from ALLOCATING into `launch`. */
    method AfterStage(t: TaskId, owner: Owner, stage: DeploymentState)
      modifies this
      ensures Snapshot() == ResumePipeline(old(Snapshot()), t, owner, stage)
    {
      if stage == ALLOCATING {
        BeginLaunch(t, owner);
      } else {
        var next := NextStage(cfg, stage);
        Advance(t, owner, next, Pipeline(next));
      }
    }

    /** After `waitForHealthy`: give up, adopt the port the app chose, or register. */
    method AfterHealthCheck(t: TaskId, owner: Owner, epoch: nat, ok: bool, adopts: bool)
      modifies this
      ensures Snapshot() == ResumePolling(old(Snapshot()), t, owner, epoch, ok, adopts)
    {
      if stopping { Return(t); return; }
      if !ok { Wait(t, owner, GivingUp); return; }
      tally := tally.(okEpoch := epoch);
      if adopts { Wait(t, owner, Adopting(epoch)); } else { Advance(t, owner, REGISTERING, Registering(epoch)); }
    }

    /** After LIVE: the stability timer starts. */
    method AfterLive(t: TaskId)
      modifies this
      ensures Snapshot() == Finish(ArmTimer(old(Snapshot())), t)
    {
      stableTimer := Some(timers);
      armed := armed + {timers};
      timers := timers + 1;
      Return(t);
    }

    /** The end of `fail`: FAILED through the table, or past it when the table refuses. */
    method AfterCleanup(t: TaskId, owner: Owner)
      modifies this
      ensures var d := old(Snapshot());
        Snapshot() == Suspend(if MayTransition(d, FAILED) then Write(d, FAILED) else d.(state := FAILED), t, owner, Lingering)
    {
      if Allows(FAILED) { SetState(FAILED); } else { state := FAILED; }
      Wait(t, owner, Lingering);
    }

    /** `adapter.start` returned a process. */
    method AfterStart(t: TaskId, owner: Owner, epoch: nat)
      modifies this
      ensures var d := old(Snapshot());
        Snapshot() == Suspend(d.(instance := Some(d.instances), instances := d.instances + 1), t, owner, Started(epoch, d.instances))
    {
      var i := instances;
      instance := Some(i);
      instances := i + 1;
      Wait(t, owner, Started(epoch, i));
    }

    /** The exit hook is set, then the app is polled. */
    method AfterPersist(t: TaskId, owner: Owner, epoch: nat, i: InstanceId)
      modifies this
      ensures var d := old(Snapshot());
        Snapshot() == DeploymentProtocol.Advance(d.(hooked := d.hooked + {i}), t, owner, HEALTH_CHECKING, Polling(epoch))
    {
      hide DeploymentProtocol.Advance;
      hooked := hooked + {i};
      Advance(t, owner, HEALTH_CHECKING, Polling(epoch));
    }

    /** `relaunch` after the old process stopped. */
    method AfterInstanceStop(t: TaskId, owner: Owner)
      modifies this
      ensures var d := old(Snapshot());
        Snapshot() == Launch(d.(relaunching := false, restarts := d.restarts + 1), t, owner)
    {
      hide Launch;
      relaunching := false;
      restartCount := restartCount + 1;
      BeginLaunch(t, owner);
    }

    /** The end of the teardown body. */
    method AfterRelease(t: TaskId, owner: Owner)
      modifies this
      ensures var d := old(Snapshot());
        Snapshot() == Suspend(if d.state == STOPPING then Write(d, STOPPED) else d, t, owner, TornDown)
    {
      if state == STOPPING {
        SetState(STOPPED);
      }
      Wait(t, owner, TornDown);
    }

    /** One resumption of a suspended method, whatever it was waiting for. */
    method Continue(t: TaskId, o: Outcome)
      requires t in tasks
      modifies this
      ensures Snapshot() == DepStep(old(Snapshot()), Resume(t, o))
    {
      hide CanTransition, MayTransition, Write, Suspend, Finish, Catch, DeploymentProtocol.Advance, Launch, ResumePipeline,
        ResumePolling, ClearTimer, ArmTimer;
      var owner, pc := tasks[t].owner, tasks[t].pc;
      if o.Threw? && MayThrow(pc) { CatchError(t, owner); return; }
      match pc
      case Pipeline(stage) => AfterStage(t, owner, stage);
      case Starting(e) => AfterStart(t, owner, e);
      case Started(e, i) => AfterPersist(t, owner, e, i);
      case Polling(e) => AfterHealthCheck(t, owner, e, o.Done? && o.ok, o.Done? && o.adopts);
      case Adopting(e) => Advance(t, owner, REGISTERING, Registering(e));
      case GivingUp => CatchError(t, owner);
      case Registering(e) => Advance(t, owner, EXPOSING, Exposing(e));
      case Exposing(_) => Advance(t, owner, LIVE, LiveTail);
      case LiveTail => AfterLive(t);
      case Relaunching => AfterInstanceStop(t, owner);
      case Backoff => if stopping { Return(t); } else { BeginLaunch(t, owner); }
      case Failing => AfterCleanup(t, owner);
      case Lingering => Return(t);
      case Aborting =>
        ClearStableTimer();
        Wait(t, owner, Tearing);
      case Tearing => AfterRelease(t, owner);
      case TornDown => Return(t);
    }
  }

  class DeploymentEngine {
    var live: map<ProjectId, Live>
    /** Every record ever created; suspended methods keep records alive after they leave `live`. */
    ghost var records: map<DepId, Live>
    /** The state of the protocol these objects stand for. */
    ghost var view: Runs.Sys

    ghost predicate Shows(id: DepId)
      requires id in records && id in view.deps
      reads this, records[id]
    {
      records[id].id == id && records[id].Snapshot() == view.deps[id]
    }

    /** `live` holds the records that the protocol has under their projects. */
    ghost predicate LiveShows()
      reads this
    {
      && view.live.Keys == live.Keys
      && forall p :: p in live ==> view.live[p] in records && records[view.live[p]] == live[p]
    }

    ghost predicate Valid()
      reads this, records.Values
    {
      && view.deps.Keys == records.Keys && LiveShows()
      && (forall id :: id in records ==> Shows(id))
      && Runs.SysInv(view)
    }

    /** Of each project at most one record has not ended, and it is the one in `live`. */
    ghost predicate OneActiveEach()
      reads this, records.Values
    {
      forall a :: a in records && !IsTerminal(records[a].state) ==>
        records[a].project in live && live[records[a].project] == records[a]
    }

    lemma ValidMeansOneEach()
      requires Valid()
      ensures OneActiveEach()
    {
      hide DepInv;
      forall a | a in records && !IsTerminal(records[a].state)
        ensures records[a].project in live && live[records[a].project] == records[a]
      {
        assert Shows(a);
      }
    }

    constructor ()
      ensures Valid() && view == Runs.INIT
    {
      live, records, view := map[], map[], Runs.INIT;
    }

    /** A deploy answers with the running deployment when there is one, and otherwise takes over the project. */
    method Deploy(project: ProjectId, id: DepId, cfg: Config) returns (ld: Live, existing: bool)
      requires Valid() && id !in records
      modifies this
      ensures Valid() && view == Runs.Step(old(view), Runs.Deploy(project, id, cfg))
      ensures existing == Runs.Busy(old(view), project)
      ensures project in live && live[project] == ld && (existing ==> live == old(live))
      ensures OneActiveEach()
    {
      hide NewDep, DepStep, Live.Snapshot, Runs.Leaves, Live.HasEnded, Live.AtLastWait, Runs.SysInv, OneActiveEach;
      if project in live {
        assert Shows(view.live[project]);
        if !live[project].HasEnded() {
          ValidMeansOneEach();
          return live[project], true;
        }
      }
      ld := Begin(project, id, cfg);
      existing := false;
      ValidMeansOneEach();
    }

    method Begin(project: ProjectId, id: DepId, cfg: Config) returns (ld: Live)
      requires Valid() && id !in records && !Runs.Busy(view, project)
      modifies this
      ensures Valid() && view == Runs.Step(old(view), Runs.Deploy(project, id, cfg))
      ensures project in live && live[project] == ld
    {
      hide NewDep, DepStep, Live.Snapshot, Runs.SysInv, Runs.Busy;
      Runs.StepInv(view, Runs.Deploy(project, id, cfg));
      ld := new Live(id, project, cfg);
      view := Runs.Step(view, Runs.Deploy(project, id, cfg));
      live := live[project := ld];
      records := records[id := ld];
      assert LiveShows();
      hide LiveShows;
      forall i | i in records ensures Shows(i) {
        if i != id { assert old(Shows(i)); }
      }
    }

    /** All records but `ld` show what the protocol says, and `ld` shows it after one more event. */
    ghost predicate Behind(ld: Live, e: DepEvent)
      reads this, records.Values, ld
    {
      && view.deps.Keys == records.Keys && LiveShows()
      && ld.id in records && records[ld.id] == ld && ld.Snapshot() == DepStep(view.deps[ld.id], e)
      && (forall id :: id in records ==> records[id].id == id && (id != ld.id ==> Shows(id)))
      && Runs.SysInv(view)
    }

    /** One event of a deployment; the last resumption of an ended one takes it out of `live`. */
    method Deliver(ld: Live, e: DepEvent)
      requires Valid() && ld.id in records && records[ld.id] == ld
      modifies this, ld
      ensures Valid() && view == Runs.Step(old(view), Runs.On(ld.id, e)) && OneActiveEach()
    {
      hide NewDep, DepStep, Live.Snapshot, Runs.Leaves, Runs.Step, Live.AtLastWait, Runs.SysInv, OneActiveEach;
      assert Shows(ld.id);
      var leaves := ld.AtLastWait(e);
      ghost var d := ld.Snapshot();
      Dispatch(ld, e);
      forall i | i in records && i != ld.id ensures Shows(i) {
        assert old(Shows(i));
      }
      forall i | i in records ensures records[i].id == i {
        assert old(Shows(i));
      }
      Settle(ld, e, leaves);
      ValidMeansOneEach();
    }

    /** What one event of `id` does to the whole state. */
    static lemma OneDeliveryShows(s: Runs.Sys, id: DepId, e: DepEvent)
      requires id in s.deps
      ensures var (d, r) := (s.deps[id], Runs.Step(s, Runs.On(id, e)));
        && r.deps == s.deps[id := DepStep(d, e)]
        && r.live == (if Runs.Leaves(d, e) && d.project in s.live && s.live[d.project] == id then s.live - {d.project} else s.live)
    {
      hide DepStep, Runs.Leaves;
    }

    method Settle(ld: Live, e: DepEvent, leaves: bool)
      requires Behind(ld, e) && leaves == Runs.Leaves(view.deps[ld.id], e) && view.deps[ld.id].project == ld.project
      modifies this
      ensures Valid() && view == Runs.Step(old(view), Runs.On(ld.id, e))
    {
      hide DepStep, Live.Snapshot, Runs.Leaves, Runs.SysInv, Runs.Step;
      Runs.StepInv(view, Runs.On(ld.id, e));
      OneDeliveryShows(view, ld.id, e);
      assert ld.project in live ==> (live[ld.project] == ld <==> view.live[ld.project] == ld.id);
      view := Runs.Step(view, Runs.On(ld.id, e));
      if leaves && ld.project in live && live[ld.project] == ld {
        live := live - {ld.project};
      }
      assert LiveShows();
      hide LiveShows;
      forall i | i in records ensures Shows(i) {
        if i != ld.id { assert old(Shows(i)); }
      }
    }

    static method Dispatch(ld: Live, e: DepEvent)
      modifies ld
      ensures ld.Snapshot() == DepStep(old(ld.Snapshot()), e)
    {
      hide ResumeTask, OnExit, OnRestart, Teardown;
      match e
      case Resume(t, o) => if t in ld.tasks { ld.Continue(t, o); }
      case Exited(i, code) => if i in ld.hooked { ld.Exit(i, code); }
      case RestartRequested => ld.Restart();
      case StopRequested => ld.Stop();
      case StableTimerFired(k) => if k in ld.armed { ld.StableTimer(k); }
    }
  }
}
