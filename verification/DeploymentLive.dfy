/** Which record a project shows, when a deploy starts a new one, and when one is forgotten. */
module DeploymentLive {
  import opened Wrappers
  import opened DeploymentStates
  import opened DeploymentProtocol
  import opened DeploymentSteps
  import opened Runs = DeploymentRuns
  import opened DeploymentExceptions
  import Outcomes = DeploymentOutcomes

  // ── deploying ─────────────────────────────────────────────

  /** Some deployment of the project has not ended. */
  ghost predicate Occupied(s: Sys, project: ProjectId) {
    exists a :: a in s.deps && s.deps[a].project == project && !IsTerminal(s.deps[a].state)
  }

  /**
   * In every run a deploy starts a deployment, with its own configuration and at its first stage, if and only if none of
   * the project is active; otherwise it changes nothing.
   */
  lemma DeployStartsIff(events: seq<Event>, project: ProjectId, id: DepId, cfg: Config)
    requires id !in Runs.Run(INIT, events).deps
    ensures var (s, r) := (Runs.Run(INIT, events), Runs.Run(INIT, events + [Deploy(project, id, cfg)]));
      if Occupied(s, project) then r == s
      else
        && r.live == s.live[project := id] && r.deps.Keys == s.deps.Keys + {id}
        && (forall a :: a in s.deps ==> r.deps[a] == s.deps[a])
        && var d := r.deps[id];
           d.project == project && d.cfg == cfg && d.state == DISCOVERING && !d.stopping && d.attempts == 0
           && d.tasks == map[0 := Task(Owner.Run, Pipeline(DISCOVERING))]
  {
    hide DepInv, Runs.Run, DepStep;
    var s := Runs.Run(INIT, events);
    RunAppends(events, Deploy(project, id, cfg));
    RunInv(events);
    LiveIsOwn(events);
    if a :| a in s.deps && s.deps[a].project == project && !IsTerminal(s.deps[a].state) { assert Busy(s, project); }
  }

  // ── the record that a project shows ───────────────────────

  /** At its last wait, after which it is forgotten. */
  predicate LastWait(pc: Pc) {
    pc.Lingering? || pc.TornDown?
  }

  ghost predicate StillThere(d: Dep) {
    IsTerminal(d.state) ==> exists t :: t in d.tasks && LastWait(d.tasks[t].pc)
  }

  /** Every project shows a deployment of its own, and an ended one only while one of its methods is at its last wait. */
  ghost predicate LiveOk(s: Sys) {
    forall p :: p in s.live ==> s.live[p] in s.deps && s.deps[s.live[p]].project == p && StillThere(s.deps[s.live[p]])
  }

  lemma AdvanceIsNoEnd(d: Dep, t: TaskId, owner: Owner, to: DeploymentState, pc: Pc)
    requires !IsTerminal(to)
    ensures IsTerminal(Advance(d, t, owner, to, pc).state) ==> IsTerminal(d.state)
    ensures IsTerminal(Catch(d, t, owner).state) ==> IsTerminal(d.state)
  {
    hide Advance, Catch;
    Outcomes.AdvanceWrites(d, t, owner, to, pc);
    Outcomes.CatchKeepsState(d, t, owner);
  }

  lemma PipelineIsNoEnd(d: Dep, t: TaskId, owner: Owner, stage: DeploymentState)
    ensures IsTerminal(ResumePipeline(d, t, owner, stage).state) ==> IsTerminal(d.state)
  {
    hide Advance;
    AdvanceIsNoEnd(d, t, owner, STARTING, Starting(d.tally.epoch + 1));
    AdvanceIsNoEnd(d, t, owner, NextStage(d.cfg, stage), Pipeline(NextStage(d.cfg, stage)));
  }

  lemma StartIsNoEnd(d: Dep, t: TaskId, o: Outcome)
    requires t in d.tasks && StartingUp(d.tasks[t].pc)
    ensures IsTerminal(ResumeTask(d, t, o).state) ==> IsTerminal(d.state)
  {
    hide Advance, Catch, ResumePipeline;
    var owner := d.tasks[t].owner;
    AdvanceIsNoEnd(d, t, owner, LIVE, LiveTail);
    match d.tasks[t].pc
    case Pipeline(stage) => PipelineIsNoEnd(d, t, owner, stage);
    case Starting(_) =>
    case Started(e, i) => AdvanceIsNoEnd(d.(hooked := d.hooked + {i}), t, owner, HEALTH_CHECKING, Polling(e));
    case Polling(e) => AdvanceIsNoEnd(d.(tally := d.tally.(okEpoch := e)), t, owner, REGISTERING, Registering(e));
  }

  lemma LaunchIsNoEnd(d: Dep, t: TaskId, o: Outcome)
    requires t in d.tasks && Launching(d.tasks[t].pc) && !StartingUp(d.tasks[t].pc)
    ensures IsTerminal(ResumeTask(d, t, o).state) ==> IsTerminal(d.state)
  {
    hide Advance, Catch;
    var owner := d.tasks[t].owner;
    AdvanceIsNoEnd(d, t, owner, LIVE, LiveTail);
    match d.tasks[t].pc
    case Adopting(e) => AdvanceIsNoEnd(d, t, owner, REGISTERING, Registering(e));
    case Registering(e) => AdvanceIsNoEnd(d, t, owner, EXPOSING, Exposing(e));
    case Exposing(_) =>
    case Relaunching =>
      AdvanceIsNoEnd(d.(relaunching := false, restarts := d.restarts + 1), t, owner, STARTING, Starting(d.tally.epoch + 1));
    case Backoff => AdvanceIsNoEnd(d, t, owner, STARTING, Starting(d.tally.epoch + 1));
  }

  /** The other methods end a deployment only on their way to their last wait. */
  lemma EndWaits(d: Dep, t: TaskId, o: Outcome)
    requires t in d.tasks && !Launching(d.tasks[t].pc)
    ensures var r := ResumeTask(d, t, o);
      IsTerminal(r.state) ==> IsTerminal(d.state) || (t in r.tasks && LastWait(r.tasks[t].pc))
  {}

  lemma ResumeWaits(d: Dep, t: TaskId, o: Outcome)
    requires StillThere(d) && t in d.tasks && !LastWait(d.tasks[t].pc)
    ensures StillThere(ResumeTask(d, t, o))
  {
    var r := ResumeTask(d, t, o);
    hide ResumeTask;
    ResumeKeepsRest(d, t, o);
    if IsTerminal(d.state) {
      var u :| u in d.tasks && LastWait(d.tasks[u].pc);
      assert u in r.tasks && LastWait(r.tasks[u].pc);
    } else if StartingUp(d.tasks[t].pc) {
      StartIsNoEnd(d, t, o);
    } else if Launching(d.tasks[t].pc) {
      LaunchIsNoEnd(d, t, o);
    } else {
      EndWaits(d, t, o);
    }
  }

  lemma RequestWaits(d: Dep, e: DepEvent)
    requires DepInv(d) && StillThere(d) && !e.Resume?
    ensures StillThere(DepStep(d, e))
  {
    var r := DepStep(d, e);
    hide DepStep, Driven, HealthOk, BudgetOk;
    OthersStay(d, e);
    RequestsEndNothing(d, e);
    if IsTerminal(d.state) {
      var u :| u in d.tasks && LastWait(d.tasks[u].pc);
      assert u in r.tasks && LastWait(r.tasks[u].pc);
    }
  }

  lemma OthersStay(d: Dep, e: DepEvent)
    requires TasksOk(d) && !e.Resume?
    ensures forall u :: u in d.tasks ==> u in DepStep(d, e).tasks && DepStep(d, e).tasks[u] == d.tasks[u]
  {
    hide ResumeTask, OnLiveExit, RelaunchNow, Teardown, TaskOk;
    match e
    case Exited(i, code) => ExitKeepsRest(ClearTimer(d.(hooked := d.hooked - {i})), code);
    case RestartRequested => RelaunchKeepsRest(NewTask(d), d.nextTask); TeardownKeepsRest(NewTask(d), d.nextTask);
    case StopRequested => TeardownKeepsRest(NewTask(d), d.nextTask);
    case StableTimerFired(_) =>
  }

  lemma RequestsEndNothing(d: Dep, e: DepEvent)
    requires StopOk(d) && !e.Resume?
    ensures IsTerminal(DepStep(d, e).state) ==> IsTerminal(d.state)
  {
    hide DepStep;
    match e
    case Exited(i, code) =>
      if Outcomes.ServingExit(d, i) { Outcomes.ServingExitDecides(d, i, code); } else { Outcomes.OtherExitsDecideNothing(d, i, code); }
    case RestartRequested => Outcomes.RestartRequestDecides(d);
    case StopRequested => Outcomes.StopRequestDecides(d);
    case StableTimerFired(_) => Outcomes.TimerKeepsState(d, e);
  }

  lemma StepLiveOk(s: Sys, e: Event)
    requires SysInv(s) && LiveOk(s)
    ensures LiveOk(Step(s, e))
  {
    hide DepStep, DepInv, StillThere, NewDep;
    match e
    case Deploy(project, id, cfg) => NewIsThere(project, cfg);
    case On(id, ev) =>
      if id in s.deps {
        var d := s.deps[id];
        StepKeepsProject(d, ev);
        if d.project in s.live && s.live[d.project] == id && !Leaves(d, ev) {
          if ev.Resume? { ResumedIsThere(d, ev); } else { RequestWaits(d, ev); }
        }
      }
  }

  lemma NewIsThere(project: ProjectId, cfg: Config)
    ensures NewDep(project, cfg).project == project && StillThere(NewDep(project, cfg))
  {}

  lemma StepKeepsProject(d: Dep, e: DepEvent)
    ensures DepStep(d, e).project == d.project
  {
    hide DepStep;
  }

  lemma ResumedIsThere(d: Dep, e: DepEvent)
    requires StillThere(d) && e.Resume? && !Leaves(d, e)
    ensures StillThere(DepStep(d, e))
  {
    hide ResumeTask;
    if e.task in d.tasks { ResumeWaits(d, e.task, e.outcome); }
  }

  lemma {:induction false} LiveIsOwn(events: seq<Event>)
    ensures LiveOk(Runs.Run(INIT, events))
  {
    hide SysInv, LiveOk, Step;
    if events == [] {
      NothingLive();
    } else {
      LiveIsOwn(events[..|events| - 1]);
      RunInv(events[..|events| - 1]);
      StepLiveOk(Runs.Run(INIT, events[..|events| - 1]), events[|events| - 1]);
    }
  }

  lemma NothingLive()
    ensures LiveOk(INIT)
  {}

  /** In every run a deployment that has ended and is done is not shown any more, and one that has not ended is. */
  lemma ShownUntilDone(events: seq<Event>, id: DepId)
    requires id in Runs.Run(INIT, events).deps
    ensures var s := Runs.Run(INIT, events); var d := s.deps[id];
      && (!IsTerminal(d.state) ==> d.project in s.live && s.live[d.project] == id)
      && (IsTerminal(d.state) && d.tasks == map[] ==> !(d.project in s.live && s.live[d.project] == id))
  {
    hide Runs.Run, DepInv;
    LiveIsOwn(events);
    RunInv(events);
  }

  // ── a relaunch in progress ────────────────────────────────

  /** Exits are only ignored while a relaunch waits for the end of the old process. */
  ghost predicate FlagOk(d: Dep) {
    d.relaunching ==> exists t :: t in d.tasks && d.tasks[t].pc.Relaunching?
  }

  lemma AdvanceKeepsFlag(d: Dep, t: TaskId, owner: Owner, to: DeploymentState, pc: Pc)
    ensures Advance(d, t, owner, to, pc).relaunching ==> d.relaunching
    ensures Catch(d, t, owner).relaunching ==> d.relaunching
  {
    CatchKeepsFlag(d, t, owner);
    WriteKeepsFlag(d, to);
    hide MayTransition, Write, Catch;
  }

  lemma CatchKeepsFlag(d: Dep, t: TaskId, owner: Owner)
    ensures Catch(d, t, owner).relaunching ==> d.relaunching
  {}

  lemma WriteKeepsFlag(d: Dep, to: DeploymentState)
    ensures Write(d, to).relaunching == d.relaunching
  {}

  lemma PipelineKeepsFlag(d: Dep, t: TaskId, owner: Owner, stage: DeploymentState)
    ensures ResumePipeline(d, t, owner, stage).relaunching ==> d.relaunching
  {
    hide Advance;
    AdvanceKeepsFlag(d, t, owner, STARTING, Starting(d.tally.epoch + 1));
    AdvanceKeepsFlag(d, t, owner, NextStage(d.cfg, stage), Pipeline(NextStage(d.cfg, stage)));
  }

  lemma StartKeepsFlag(d: Dep, t: TaskId, o: Outcome)
    requires t in d.tasks && StartingUp(d.tasks[t].pc)
    ensures ResumeTask(d, t, o).relaunching ==> d.relaunching
  {
    hide Advance, Catch, ResumePipeline;
    var owner := d.tasks[t].owner;
    AdvanceKeepsFlag(d, t, owner, LIVE, LiveTail);
    match d.tasks[t].pc
    case Pipeline(stage) => PipelineKeepsFlag(d, t, owner, stage);
    case Starting(_) =>
    case Started(e, i) => AdvanceKeepsFlag(d.(hooked := d.hooked + {i}), t, owner, HEALTH_CHECKING, Polling(e));
    case Polling(e) => AdvanceKeepsFlag(d.(tally := d.tally.(okEpoch := e)), t, owner, REGISTERING, Registering(e));
  }

  lemma LaunchKeepsFlag(d: Dep, t: TaskId, o: Outcome)
    requires t in d.tasks && Launching(d.tasks[t].pc) && !StartingUp(d.tasks[t].pc)
    ensures ResumeTask(d, t, o).relaunching ==> d.relaunching && !d.tasks[t].pc.Relaunching?
  {
    hide Advance, Catch;
    var owner := d.tasks[t].owner;
    AdvanceKeepsFlag(d, t, owner, LIVE, LiveTail);
    match d.tasks[t].pc
    case Adopting(e) => AdvanceKeepsFlag(d, t, owner, REGISTERING, Registering(e));
    case Registering(e) => AdvanceKeepsFlag(d, t, owner, EXPOSING, Exposing(e));
    case Exposing(_) =>
    case Relaunching =>
      AdvanceKeepsFlag(d.(relaunching := false, restarts := d.restarts + 1), t, owner, STARTING, Starting(d.tally.epoch + 1));
    case Backoff => AdvanceKeepsFlag(d, t, owner, STARTING, Starting(d.tally.epoch + 1));
  }

  lemma EndKeepsFlag(d: Dep, t: TaskId, o: Outcome)
    requires t in d.tasks && !Launching(d.tasks[t].pc)
    ensures ResumeTask(d, t, o).relaunching ==> d.relaunching
  {}

  lemma ResumeFlagOk(d: Dep, t: TaskId, o: Outcome)
    requires FlagOk(d) && t in d.tasks
    ensures FlagOk(ResumeTask(d, t, o))
  {
    var r := ResumeTask(d, t, o);
    hide ResumeTask;
    ResumeKeepsRest(d, t, o);
    if StartingUp(d.tasks[t].pc) {
      StartKeepsFlag(d, t, o);
    } else if Launching(d.tasks[t].pc) {
      LaunchKeepsFlag(d, t, o);
    } else {
      EndKeepsFlag(d, t, o);
    }
    if r.relaunching {
      var u :| u in d.tasks && d.tasks[u].pc.Relaunching?;
      assert u != t ==> u in r.tasks && r.tasks[u].pc.Relaunching?;
    }
  }

  lemma RequestFlag(d: Dep, e: DepEvent)
    requires StopOk(d) && !e.Resume?
    ensures var r := DepStep(d, e);
      r.relaunching ==> d.relaunching || (d.nextTask in r.tasks && r.tasks[d.nextTask].pc.Relaunching?)
  {
    hide OnLiveExit, Teardown;
    match e
    case RestartRequested =>
      Outcomes.RestartRequestDecides(d);
      TeardownKeepsFlag(NewTask(d), d.nextTask);
    case StopRequested => TeardownKeepsFlag(NewTask(d), d.nextTask);
    case Exited(i, code) => ExitKeepsFlag(ClearTimer(d.(hooked := d.hooked - {i})), code);
    case StableTimerFired(_) =>
  }

  lemma TeardownKeepsFlag(d: Dep, t: TaskId)
    ensures Teardown(d, t).relaunching == d.relaunching
  {
    hide MayTransition;
  }

  lemma ExitKeepsFlag(d: Dep, code: Option<int>)
    ensures OnLiveExit(d, code).relaunching ==> d.relaunching
  {
    hide Advance, Teardown;
    TeardownKeepsFlag(NewTask(d), d.nextTask);
    AdvanceKeepsFlag(NewTask(d).(attempts := d.attempts + 1, restarts := d.restarts + 1,
                                 tally := d.tally.(crashes := d.tally.crashes + 1)), d.nextTask, Crash, RESTARTING, Backoff);
  }

  lemma StepFlagOk(d: Dep, e: DepEvent)
    requires DepInv(d) && FlagOk(d)
    ensures FlagOk(DepStep(d, e))
  {
    hide ResumeTask, Driven, HealthOk, BudgetOk;
    if e.Resume? {
      if e.task in d.tasks { ResumeFlagOk(d, e.task, e.outcome); }
    } else {
      hide DepStep;
      OthersStay(d, e);
      RequestFlag(d, e);
      var r := DepStep(d, e);
      if d.relaunching {
        var u :| u in d.tasks && d.tasks[u].pc.Relaunching?;
        assert u in r.tasks && r.tasks[u].pc.Relaunching?;
      }
    }
  }

  /** In every run exits are ignored only while a relaunch is waiting for the old process; without a method never. */
  lemma {:induction false} ExitsAreHeardAgain(events: seq<Event>, id: DepId)
    requires id in Runs.Run(INIT, events).deps
    ensures FlagOk(Runs.Run(INIT, events).deps[id])
  {
    hide DepStep, Runs.Run, DepInv, FlagOk, NewDep;
    if events == [] {
      Outcomes.NobodyThere(id);
      assert false;
    }
    var n := |events| - 1;
    var (before, e) := (events[..n], events[n]);
    Outcomes.OneMoreEvent(events, id);
    if id in Runs.Run(INIT, before).deps {
      ExitsAreHeardAgain(before, id);
      RunInv(before);
      if e.On? && e.id == id { StepFlagOk(Runs.Run(INIT, before).deps[id], e.event); }
    } else {
      NewIsQuiet(e.project, e.cfg);
    }
  }

  lemma NewIsQuiet(project: ProjectId, cfg: Config)
    ensures FlagOk(NewDep(project, cfg))
  {}
}
