/** Where the engine does not do what its state table or its comments say: the exact conditions, and runs that show it. */
module DeploymentExceptions {
  import opened Wrappers
  import opened DeploymentStates
  import opened DeploymentProtocol
  import opened DeploymentSteps
  import opened Runs = DeploymentRuns

  // ── the table ─────────────────────────────────────────────

  predicate InTable(from: DeploymentState, to: DeploymentState) {
    to == from || CanTransition(from, to)
  }

  /** A failure that is still being cleaned up resumes on a deployment that has been stopped meanwhile. */
  predicate LateFailure(d: Dep, e: DepEvent) {
    d.state == STOPPED && e.Resume? && e.task in d.tasks && d.tasks[e.task].pc.Failing?
  }

  lemma FailuresFinish(d: Dep, e: DepEvent)
    requires LateFailure(d, e)
    ensures DepStep(d, e).state == FAILED && !InTable(STOPPED, FAILED)
  {}

  lemma StepFollowsTheTable(d: Dep, e: DepEvent)
    requires DepInv(d)
    ensures InTable(d.state, DepStep(d, e).state) <==> !LateFailure(d, e)
  {
    hide DepStep, Driven, HealthOk, BudgetOk;
    if LateFailure(d, e) {
      FailuresFinish(d, e);
    } else {
      StepPromise(d, e);
      if d.state != FAILED && DepStep(d, e).state == FAILED {
        FailedByFailing(d, e);
        EndedInTable(d);
      }
    }
  }

  lemma EndedInTable(d: Dep)
    requires StopOk(d) && d.state != STOPPED && d.state != FAILED
    ensures CanTransition(d.state, FAILED)
  {}

  /**
   * Every state change of a run is a transition of the table, with exactly one exception: the end of a failure that
   * began before a stop, when the stop has finished first.
   */
  lemma StatesFollowTheTable(events: seq<Event>, e: Event, id: DepId)
    requires id in Runs.Run(INIT, events).deps
    ensures var a, b := Runs.Run(INIT, events).deps[id], Runs.Run(INIT, events + [e]).deps[id];
      InTable(a.state, b.state) <==> !(e.On? && e.id == id && LateFailure(a, e.event))
  {
    hide DepStep, NewDep, DepInv, LateFailure;
    assert (events + [e])[..|events|] == events;
    RunInv(events);
    if e.On? && e.id == id { StepFollowsTheTable(Runs.Run(INIT, events).deps[id], e.event); }
  }

  /** The exception is real: a failure that began before a stop still writes FAILED over STOPPED afterwards. */
  lemma FailedAfterStopped(project: ProjectId, cfg: Config)
    ensures var d0 := DepStep(NewDep(project, cfg), Resume(0, Threw));
      var d1 := DepStep(d0, StopRequested);
      var d2 := DepStep(DepStep(d1, Resume(1, Done(true, false))), Resume(1, Done(true, false)));
      var d3 := DepStep(d2, Resume(0, Done(true, false)));
      d2.state == STOPPED && d3.state == FAILED && !CanTransition(STOPPED, FAILED)
  {
    hide CanTransition;
    var d := NewDep(project, cfg);
    var d0 := DepStep(d, Resume(0, Threw));
    assert d0 == d.(tasks := map[0 := Task(Owner.Run, Failing)]);
    var d1 := DepStep(d0, StopRequested);
    StopWrites(d0);
    var d2 := DepStep(DepStep(d1, Resume(1, Done(true, false))), Resume(1, Done(true, false)));
    TeardownWrites(d1, 1);
    assert LateFailure(d2, Resume(0, Done(true, false)));
    FailuresFinish(d2, Resume(0, Done(true, false)));
  }

  lemma StopWrites(d: Dep)
    requires !d.stopping && !IsTerminal(d.state)
    ensures var r := DepStep(d, StopRequested);
      r.stopping && r.state == STOPPING && r.tasks == d.tasks[d.nextTask := Task(Request, Aborting)]
  {}

  lemma TeardownWrites(d: Dep, t: TaskId)
    requires d.state == STOPPING && t in d.tasks && d.tasks[t] == Task(Request, Aborting)
    ensures var r := DepStep(DepStep(d, Resume(t, Done(true, false))), Resume(t, Done(true, false)));
      r.state == STOPPED && r.tasks == d.tasks[t := Task(Request, TornDown)]
  {}

  // ── a deployment that goes live ───────────────────────────

  const PROJECT: ProjectId := "p"
  const ID: DepId := "d"
  const CONFIG: Config := Config(false, false, OnFailure, 5)

  function GoOn(t: TaskId): Event {
    On(ID, Resume(t, Done(true, false)))
  }

  /** A deploy whose `run` is resumed `n` times, every awaited call ending well. */
  function Startup(n: nat): seq<Event> {
    if n == 0 then [Deploy(PROJECT, ID, CONFIG)] else Startup(n - 1) + [GoOn(0)]
  }

  const STATES: seq<DeploymentState> := [
    DISCOVERING, RESOLVING, PREPARING, ALLOCATING, STARTING, STARTING, HEALTH_CHECKING, REGISTERING, EXPOSING, LIVE]

  const WAITS: seq<Pc> := [
    Pipeline(DISCOVERING), Pipeline(RESOLVING), Pipeline(PREPARING), Pipeline(ALLOCATING), Starting(1), Started(1, 0),
    Polling(1), Registering(1), Exposing(1), LiveTail]

  /** The record after `n` resumptions. */
  function At(n: nat): Dep
    requires n <= 9
  {
    Dep(PROJECT, CONFIG, STATES[n], false, false, if n >= 5 then Some(0) else None, if n >= 5 then 1 else 0,
        if n >= 6 then {0} else {}, 0, 0, None, {}, 0, map[0 := Task(Owner.Run, WAITS[n])], 1,
        Tally(if n >= 4 then 1 else 0, if n >= 7 then 1 else 0, if n == 9 then 1 else 0, 0, 0, 0, 0))
  }

  lemma EarlyStage(n: nat)
    requires n < 4
    ensures DepStep(At(n), Resume(0, Done(true, false))) == At(n + 1)
  {
    assert At(n).tasks[0 := Task(Owner.Run, WAITS[n + 1])] == At(n + 1).tasks;
  }

  lemma LateStage(n: nat)
    requires 4 <= n < 9
    ensures DepStep(At(n), Resume(0, Done(true, false))) == At(n + 1)
  {
    assert At(n).tasks[0 := Task(Owner.Run, WAITS[n + 1])] == At(n + 1).tasks;
  }

  function Only(d: Dep): Sys {
    Sys(map[PROJECT := ID], map[ID := d])
  }

  lemma RunAppends(events: seq<Event>, e: Event)
    ensures Runs.Run(INIT, events + [e]) == Step(Runs.Run(INIT, events), e)
  {
    assert (events + [e])[..|events|] == events;
  }

  /** One event that does not end the deployment. */
  lemma RunGoesOn(events: seq<Event>, d: Dep, e: DepEvent)
    requires Runs.Run(INIT, events) == Only(d) && !Leaves(d, e)
    ensures Runs.Run(INIT, events + [On(ID, e)]) == Only(DepStep(d, e))
  {
    hide DepStep, Leaves;
    RunAppends(events, On(ID, e));
    assert Only(d).deps[ID := DepStep(d, e)] == Only(DepStep(d, e)).deps;
  }

  lemma RunDeploys()
    ensures Runs.Run(INIT, Startup(0)) == Only(At(0))
  {
    RunAppends([], Deploy(PROJECT, ID, CONFIG));
    assert [] + [Deploy(PROJECT, ID, CONFIG)] == Startup(0);
    assert NewDep(PROJECT, CONFIG) == At(0);
  }

  lemma StartupGrows(n: nat)
    requires n > 0
    ensures Startup(n) == Startup(n - 1) + [On(ID, Resume(0, Done(true, false)))]
  {}

  lemma NotLeaving(n: nat)
    requires n <= 9
    ensures !Leaves(At(n), Resume(0, Done(true, false)))
  {}

  lemma {:induction false} RunStartsUp(n: nat)
    requires n <= 9
    ensures Runs.Run(INIT, Startup(n)) == Only(At(n))
  {
    if n == 0 {
      RunDeploys();
    } else {
      hide *;
      StartupGrows(n);
      RunStartsUp(n - 1);
      if n <= 4 { EarlyStage(n - 1); } else { LateStage(n - 1); }
      NotLeaving(n - 1);
      RunGoesOn(Startup(n - 1), At(n - 1), Resume(0, Done(true, false)));
    }
  }

  // ── what a step leaves alone ──────────────────────────────

  /** Only the place of `t` changes. */
  ghost predicate OnlyMoves(d: Dep, t: TaskId, r: Dep) {
    forall u :: u != t ==> (u in r.tasks <==> u in d.tasks) && (u in d.tasks ==> r.tasks[u] == d.tasks[u])
  }

  /** And no timer is set. */
  ghost predicate Keeps(d: Dep, t: TaskId, r: Dep) {
    OnlyMoves(d, t, r) && r.timers == d.timers && r.armed <= d.armed
  }

  lemma SuspendKeepsRest(d: Dep, t: TaskId, owner: Owner, pc: Pc)
    ensures Keeps(d, t, Suspend(d, t, owner, pc)) && Keeps(d, t, Finish(d, t)) && Keeps(d, t, Catch(d, t, owner))
  {}

  lemma WriteKeepsTasks(d: Dep, to: DeploymentState)
    ensures Write(d, to).tasks == d.tasks && Write(d, to).timers == d.timers && Write(d, to).armed == d.armed
  {}

  lemma AdvanceKeepsRest(d: Dep, t: TaskId, owner: Owner, to: DeploymentState, pc: Pc)
    ensures Keeps(d, t, Advance(d, t, owner, to, pc)) && Keeps(d, t, Catch(d, t, owner))
  {
    hide MayTransition, Write, Suspend, Catch;
    WriteKeepsTasks(d, to);
    SuspendKeepsRest(Write(d, to), t, owner, pc);
    SuspendKeepsRest(d, t, owner, pc);
  }

  lemma EndingKeepsRest(d: Dep, t: TaskId, o: Outcome)
    requires t in d.tasks && !Launching(d.tasks[t].pc) && !(o.Threw? && MayThrow(d.tasks[t].pc))
    ensures OnlyMoves(d, t, ResumeTask(d, t, o))
    ensures d.tasks[t].pc.LiveTail? || Keeps(d, t, ResumeTask(d, t, o))
  {
    hide MayTransition, Write, Catch, Suspend, Finish;
    var owner := d.tasks[t].owner;
    SuspendKeepsRest(d, t, owner, TornDown);
    match d.tasks[t].pc
    case LiveTail => SuspendKeepsRest(ArmTimer(d), t, owner, LiveTail);
    case Failing =>
      WriteKeepsTasks(d, FAILED);
      SuspendKeepsRest(Write(d, FAILED), t, owner, Lingering);
      SuspendKeepsRest(d.(state := FAILED), t, owner, Lingering);
    case Aborting => SuspendKeepsRest(ClearTimer(d), t, owner, Tearing);
    case Tearing =>
      WriteKeepsTasks(d, STOPPED);
      SuspendKeepsRest(Write(d, STOPPED), t, owner, TornDown);
    case _ =>
  }

  lemma PipelineKeepsRest(d: Dep, t: TaskId, owner: Owner, stage: DeploymentState)
    ensures Keeps(d, t, ResumePipeline(d, t, owner, stage))
  {
    hide Advance;
    AdvanceKeepsRest(d, t, owner, STARTING, Starting(d.tally.epoch + 1));
    AdvanceKeepsRest(d, t, owner, NextStage(d.cfg, stage), Pipeline(NextStage(d.cfg, stage)));
  }

  lemma PollingKeepsRest(d: Dep, t: TaskId, owner: Owner, epoch: nat, ok: bool, adopts: bool)
    ensures Keeps(d, t, ResumePolling(d, t, owner, epoch, ok, adopts))
  {
    hide Advance;
    AdvanceKeepsRest(d.(tally := d.tally.(okEpoch := epoch)), t, owner, REGISTERING, Registering(epoch));
  }

  lemma LaunchKeepsRest(d: Dep, t: TaskId, o: Outcome)
    requires t in d.tasks && Launching(d.tasks[t].pc) && !(o.Threw? && MayThrow(d.tasks[t].pc))
    ensures Keeps(d, t, ResumeTask(d, t, o))
  {
    hide CanTransition, MayTransition, Advance, Catch, ResumePipeline, ResumePolling;
    var owner, pc := d.tasks[t].owner, d.tasks[t].pc;
    match pc
    case Pipeline(stage) => PipelineKeepsRest(d, t, owner, stage);
    case Starting(_) =>
    case Started(e, i) => AdvanceKeepsRest(d.(hooked := d.hooked + {i}), t, owner, HEALTH_CHECKING, Polling(e));
    case Polling(e) => PollingKeepsRest(d, t, owner, e, o.Done? && o.ok, o.Done? && o.adopts);
    case Adopting(e) => AdvanceKeepsRest(d, t, owner, REGISTERING, Registering(e));
    case Registering(e) => AdvanceKeepsRest(d, t, owner, EXPOSING, Exposing(e));
    case Exposing(_) => AdvanceKeepsRest(d, t, owner, LIVE, LiveTail);
    case Relaunching =>
      AdvanceKeepsRest(d.(relaunching := false, restarts := d.restarts + 1), t, owner, STARTING, Starting(d.tally.epoch + 1));
    case Backoff => AdvanceKeepsRest(d, t, owner, STARTING, Starting(d.tally.epoch + 1));
  }

  /** A resumption moves its own method; only the end of a launch sets a timer. */
  lemma ResumeKeepsRest(d: Dep, t: TaskId, o: Outcome)
    requires t in d.tasks
    ensures OnlyMoves(d, t, ResumeTask(d, t, o))
    ensures d.tasks[t].pc.LiveTail? || Keeps(d, t, ResumeTask(d, t, o))
  {
    if o.Threw? && MayThrow(d.tasks[t].pc) {
      hide Catch;
      SuspendKeepsRest(d, t, d.tasks[t].owner, Lingering);
    } else if Launching(d.tasks[t].pc) {
      hide ResumeTask;
      LaunchKeepsRest(d, t, o);
    } else {
      hide ResumeTask;
      EndingKeepsRest(d, t, o);
    }
  }

  lemma TeardownKeepsRest(d: Dep, t: TaskId)
    ensures Keeps(d, t, Teardown(d, t))
  {
    hide CanTransition, MayTransition;
  }

  lemma RelaunchKeepsRest(d: Dep, t: TaskId)
    ensures Keeps(d, t, RelaunchNow(d, t))
  {
    hide CanTransition, MayTransition;
  }

  lemma ExitKeepsRest(d: Dep, code: Option<int>)
    ensures Keeps(d, d.nextTask, OnLiveExit(d, code))
  {
    hide CanTransition, MayTransition, Teardown, Advance;
    TeardownKeepsRest(NewTask(d), d.nextTask);
    AdvanceKeepsRest(NewTask(d).(attempts := d.attempts + 1, restarts := d.restarts + 1,
                                 tally := d.tally.(crashes := d.tally.crashes + 1)), d.nextTask, Crash, RESTARTING, Backoff);
  }

  // ── restarting twice ──────────────────────────────────────

  /** A restart request is on its way to a new launch, in place, exactly when the deployment is LIVE. */
  lemma RestartsInPlaceIff(d: Dep)
    requires DepInv(d)
    ensures var r := DepStep(d, RestartRequested);
      (r.state == RESTARTING && d.nextTask in r.tasks && r.tasks[d.nextTask].pc.Relaunching?) <==> d.state == LIVE
  {}

  /** The method `t` will still write FAILED, or the deployment has ended. */
  predicate Doomed(d: Dep, t: TaskId) {
    (t in d.tasks && d.tasks[t].pc.Failing?) || IsTerminal(d.state)
  }

  lemma DoomStays(d: Dep, e: DepEvent, t: TaskId)
    requires DepInv(d) && Doomed(d, t)
    ensures Doomed(DepStep(d, e), t)
  {
    hide Driven, HealthOk, BudgetOk, CanTransition, StopOk;
    if IsTerminal(d.state) {
      hide DepStep;
      StepPromise(d, e);
    } else {
      assert t < d.nextTask;
      OthersKeepTheirPlace(d, e, t);
    }
  }

  lemma FailingFails(d: Dep, t: TaskId, o: Outcome)
    requires t in d.tasks && d.tasks[t].pc.Failing?
    ensures ResumeTask(d, t, o).state == FAILED
  {}

  lemma OthersKeepTheirPlace(d: Dep, e: DepEvent, t: TaskId)
    requires t in d.tasks && t < d.nextTask && d.tasks[t].pc.Failing?
    ensures if e.Resume? && e.task == t then DepStep(d, e).state == FAILED
            else t in DepStep(d, e).tasks && DepStep(d, e).tasks[t] == d.tasks[t]
  {
    hide ResumeTask, OnLiveExit, RelaunchNow, Teardown;
    match e
    case Resume(u, o) => if u in d.tasks { ResumeKeepsRest(d, u, o); FailingFails(d, t, o); }
    case Exited(i, code) => ExitKeepsRest(ClearTimer(d.(hooked := d.hooked - {i})), code);
    case RestartRequested => RelaunchKeepsRest(NewTask(d), d.nextTask); TeardownKeepsRest(NewTask(d), d.nextTask);
    case StopRequested => TeardownKeepsRest(NewTask(d), d.nextTask);
    case StableTimerFired(_) =>
  }

  lemma {:induction false} DoomOverRuns(events: seq<Event>, more: seq<Event>, id: DepId, t: TaskId)
    requires id in Runs.Run(INIT, events).deps && Doomed(Runs.Run(INIT, events).deps[id], t)
    ensures id in Runs.Run(INIT, events + more).deps && Doomed(Runs.Run(INIT, events + more).deps[id], t)
    decreases |more|
  {
    hide DepStep, DepInv, NewDep, Doomed;
    if more == [] {
      assert events + more == events;
    } else {
      var before, e := more[..|more| - 1], more[|more| - 1];
      assert (events + more)[..|events + more| - 1] == events + before;
      DoomOverRuns(events, before, id, t);
      RunInv(events + before);
      if e.On? && e.id == id { DoomStays(Runs.Run(INIT, events + before).deps[id], e.event, t); }
    }
  }

  lemma SecondRequestFails(d: Dep)
    requires d.state == RESTARTING && !d.stopping
    ensures var r := DepStep(d, RestartRequested); r.state == RESTARTING && Doomed(r, d.nextTask)
  {}

  /**
   * A restart request on a deployment that is already restarting ends it, because RESTARTING may not follow itself: in
   * every continuation its method is still waiting to write FAILED, or the deployment has ended.
   */
  lemma SecondRestartEnds(events: seq<Event>, more: seq<Event>, id: DepId)
    requires var s := Runs.Run(INIT, events); id in s.deps && s.deps[id].state == RESTARTING
    ensures var all := events + [On(id, RestartRequested)];
      id in Runs.Run(INIT, all + more).deps && Doomed(Runs.Run(INIT, all + more).deps[id], Runs.Run(INIT, events).deps[id].nextTask)
  {
    hide DepStep, Doomed, Leaves;
    var d := Runs.Run(INIT, events).deps[id];
    assert !d.stopping by { RunInv(events); }
    SecondRequestFails(d);
    RunAppends(events, On(id, RestartRequested));
    DoomOverRuns(events + [On(id, RestartRequested)], more, id, d.nextTask);
  }

  /** A run in which the second of two requests ends a deployment that was LIVE. */
  lemma SecondRestartFails()
    ensures var once := Startup(9) + [GoOn(0)] + [On(ID, RestartRequested)];
      var r := Runs.Run(INIT, once + [On(ID, RestartRequested)] + [GoOn(2)]).deps;
      && ID in Runs.Run(INIT, once).deps && Runs.Run(INIT, once).deps[ID].state == RESTARTING
      && ID in r && r[ID].state == FAILED
  {
    hide At, DepStep, Runs.Run, Startup;
    RunStartsUp(9);
    RestartsTwice();
    var d1 := DepStep(At(9), Resume(0, Done(true, false)));
    var d2 := DepStep(d1, RestartRequested);
    var d3 := DepStep(d2, RestartRequested);
    NotLeaving(9);
    var e1 := Startup(9) + [GoOn(0)];
    RunGoesOn(Startup(9), At(9), Resume(0, Done(true, false)));
    RunGoesOn(e1, d1, RestartRequested);
    RunGoesOn(e1 + [On(ID, RestartRequested)], d2, RestartRequested);
    RunGoesOn(e1 + [On(ID, RestartRequested)] + [On(ID, RestartRequested)], d3, Resume(2, Done(true, false)));
  }

  lemma RestartsTwice()
    ensures var d1 := DepStep(At(9), Resume(0, Done(true, false)));
      var d2 := DepStep(d1, RestartRequested);
      var d3 := DepStep(d2, RestartRequested);
      && d2.state == RESTARTING && 2 in d3.tasks && d3.tasks[2].pc.Failing?
      && DepStep(d3, Resume(2, Done(true, false))).state == FAILED
  {
    var d1 := DepStep(At(9), Resume(0, Done(true, false)));
    assert d1.state == LIVE && !d1.stopping && d1.nextTask == 1;
    LiveRestarts(d1);
    var d2 := DepStep(d1, RestartRequested);
    SecondRequestFails(d2);
    FailingFails(DepStep(d2, RestartRequested), 2, Done(true, false));
  }

  lemma LiveRestarts(d: Dep)
    requires d.state == LIVE && !d.stopping
    ensures var r := DepStep(d, RestartRequested); r.state == RESTARTING && !r.stopping && r.nextTask == d.nextTask + 1
  {}
}
