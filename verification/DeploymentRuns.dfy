/** Safety of the engine over whole runs: all deployments, the `live` map and every interleaving of their tasks. */
module DeploymentRuns {
  import opened Wrappers
  import opened DeploymentStates
  import opened DeploymentProtocol
  import opened DeploymentSteps
  import DeploymentInvariants

  /** `deps` holds every record ever created, `live` the one each project currently shows. */
  datatype Sys = Sys(live: map<ProjectId, DepId>, deps: map<DepId, Dep>)

  datatype Event =
    | Deploy(project: ProjectId, id: DepId, cfg: Config)
    | On(id: DepId, event: DepEvent)

  const INIT: Sys := Sys(map[], map[])

  /** The steps after which a method forgets its record. */
  predicate Leaves(d: Dep, e: DepEvent) {
    e.Resume? && e.task in d.tasks && (d.tasks[e.task].pc.TornDown? || d.tasks[e.task].pc.Lingering?)
  }

  predicate Busy(s: Sys, project: ProjectId) {
    project in s.live && s.live[project] in s.deps && !IsTerminal(s.deps[s.live[project]].state)
  }

  /** Ids are random, so a deploy that would reuse one does not happen. */
  function Step(s: Sys, e: Event): Sys {
    match e
    case Deploy(project, id, cfg) =>
      if Busy(s, project) || id in s.deps then s
      else Sys(s.live[project := id], s.deps[id := NewDep(project, cfg)])
    case On(id, ev) =>
      if id !in s.deps then s
      else
        var d := s.deps[id];
        var live := if Leaves(d, ev) && d.project in s.live && s.live[d.project] == id then s.live - {d.project} else s.live;
        Sys(live, s.deps[id := DepStep(d, ev)])
  }

  function Run(s: Sys, events: seq<Event>): Sys {
    if events == [] then s else Step(Run(s, events[..|events| - 1]), events[|events| - 1])
  }

  ghost predicate SysInv(s: Sys) {
    && (forall id :: id in s.deps ==> DepInv(s.deps[id]))
    && (forall id :: id in s.deps && !IsTerminal(s.deps[id].state) ==>
          s.deps[id].project in s.live && s.live[s.deps[id].project] == id)
  }

  /** A task at its last wait only exists on a deployment that has ended. */
  lemma LeavesOnlyWhenTerminal(d: Dep, e: DepEvent)
    requires DepInv(d) && Leaves(d, e)
    ensures IsTerminal(DepStep(d, e).state)
  {
    assert TaskOk(d, d.tasks[e.task].pc);
    StepPromise(d, e);
  }

  lemma StepInv(s: Sys, e: Event)
    requires SysInv(s)
    ensures SysInv(Step(s, e))
  {
    hide DepStep, NewDep, TasksOk, Driven, StopOk, HealthOk, BudgetOk;
    match e
    case Deploy(project, id, cfg) =>
      DeploymentInvariants.NewDepInv(project, cfg);
    case On(id, ev) =>
      if id in s.deps {
        var d := s.deps[id];
        DeploymentInvariants.StepKeeps(d, ev);
        if Leaves(d, ev) { LeavesOnlyWhenTerminal(d, ev); }
        StepPromise(d, ev);
      }
  }

  lemma {:induction false} RunInv(events: seq<Event>)
    ensures SysInv(Run(INIT, events))
  {
    if events == [] {
    } else {
      RunInv(events[..|events| - 1]);
      StepInv(Run(INIT, events[..|events| - 1]), events[|events| - 1]);
    }
  }

  // ── one active deployment per project ─────────────────────

  /** In every run a project has at most one deployment that has not ended, and it is the one in the `live` map. */
  lemma OneActivePerProject(events: seq<Event>, a: DepId, b: DepId)
    requires var s := Run(INIT, events);
      a in s.deps && b in s.deps && s.deps[a].project == s.deps[b].project
      && !IsTerminal(s.deps[a].state) && !IsTerminal(s.deps[b].state)
    ensures a == b
    ensures var s := Run(INIT, events); s.deps[a].project in s.live && s.live[s.deps[a].project] == a
  {
    RunInv(events);
  }

  // ── endings are final ─────────────────────────────────────

  lemma StepKeepsDep(s: Sys, e: Event, id: DepId)
    requires SysInv(s) && id in s.deps
    ensures id in Step(s, e).deps && Promise(s.deps[id], Step(s, e).deps[id])
  {
    hide DepStep, TasksOk, Driven, HealthOk, BudgetOk;
    if e.On? && e.id == id { StepPromise(s.deps[id], e.event); }
  }

  lemma {:induction false} RunKeepsInv(s: Sys, more: seq<Event>)
    requires SysInv(s)
    ensures SysInv(Run(s, more))
  {
    if more == [] {
    } else {
      RunKeepsInv(s, more[..|more| - 1]);
      StepInv(Run(s, more[..|more| - 1]), more[|more| - 1]);
    }
  }

  /** A deployment that was STOPPED or FAILED at some point of a run is STOPPED or FAILED at every later point. */
  lemma {:induction false} EndedForGood(events: seq<Event>, more: seq<Event>, id: DepId)
    requires var s := Run(INIT, events); id in s.deps && IsTerminal(s.deps[id].state)
    ensures var s := Run(Run(INIT, events), more); id in s.deps && IsTerminal(s.deps[id].state)
    decreases |more|
  {
    if more == [] {
    } else {
      var before := more[..|more| - 1];
      EndedForGood(events, before, id);
      RunInv(events);
      RunKeepsInv(Run(INIT, events), before);
      StepKeepsDep(Run(Run(INIT, events), before), more[|more| - 1], id);
    }
  }

  /** From a stop request on: only STOPPING, STOPPED or FAILED, no further launch or LIVE, one teardown body. */
  lemma {:induction false} StopWins(events: seq<Event>, more: seq<Event>, id: DepId)
    requires var s := Run(INIT, events); id in s.deps && s.deps[id].stopping
    ensures var s, r := Run(INIT, events), Run(Run(INIT, events), more);
      && id in r.deps && r.deps[id].stopping
      && (r.deps[id].state == STOPPING || IsTerminal(r.deps[id].state))
      && r.deps[id].tally.lives == s.deps[id].tally.lives
      && r.deps[id].tally.epoch == s.deps[id].tally.epoch
      && r.deps[id].tally.teardowns == 1
    decreases |more|
  {
    RunInv(events);
    if more == [] {
    } else {
      var before := more[..|more| - 1];
      StopWins(events, before, id);
      RunKeepsInv(Run(INIT, events), before);
      StepKeepsDep(Run(Run(INIT, events), before), more[|more| - 1], id);
      StepInv(Run(Run(INIT, events), before), more[|more| - 1]);
    }
  }

  /** The step that handles a stop request already shows the result, whatever else is going on. */
  lemma StopTakesEffectAtOnce(events: seq<Event>, id: DepId)
    requires id in Run(INIT, events).deps
    ensures var d := Run(INIT, events + [On(id, StopRequested)]).deps[id];
      d.stopping && (d.state == STOPPING || IsTerminal(d.state))
  {
    hide TasksOk, Driven, HealthOk, BudgetOk;
    var s, all := Run(INIT, events), events + [On(id, StopRequested)];
    assert all[..|all| - 1] == events;
    RunInv(events);
    DeploymentInvariants.StepKeeps(s.deps[id], StopRequested);
    assert DepStep(s.deps[id], StopRequested).stopping;
  }

  // ── nothing gets stuck ────────────────────────────────────

  /** Once no suspended method is left, a deployment is LIVE or has ended, and a stopped one has ended. */
  lemma QuietMeansSettled(events: seq<Event>, id: DepId)
    requires var s := Run(INIT, events); id in s.deps && s.deps[id].tasks == map[]
    ensures var d := Run(INIT, events).deps[id];
      (d.state == LIVE || IsTerminal(d.state)) && (d.stopping ==> IsTerminal(d.state))
  {
    RunInv(events);
  }

  /** How often a suspended method can still resume once a stop has been requested. */
  function Weight(pc: Pc): nat {
    match pc
    case Starting(_) => 2
    case Failing => 2
    case Aborting => 3
    case Tearing => 2
    case _ => 1
  }

  function Pending(tasks: map<TaskId, Task>, n: nat): nat {
    if n == 0 then 0 else Pending(tasks, n - 1) + (if n - 1 in tasks then Weight(tasks[n - 1].pc) else 0)
  }

  lemma {:induction false} PendingDrops(a: map<TaskId, Task>, b: map<TaskId, Task>, t: TaskId, n: nat)
    requires b.Keys <= a.Keys && (forall u :: u in b && u != t ==> b[u] == a[u])
    requires t in b ==> Weight(b[t].pc) <= Weight(a[t].pc)
    ensures Pending(b, n) <= Pending(a, n)
    ensures t < n && t in a && (t in b ==> Weight(b[t].pc) < Weight(a[t].pc)) ==> Pending(b, n) < Pending(a, n)
  {
    if n == 0 {
    } else {
      PendingDrops(a, b, t, n - 1);
    }
  }

  predicate Effective(d: Dep, e: DepEvent) {
    e.Resume? && e.task in d.tasks
  }

  /** After a stop no step adds a method, and every resumption brings its method closer to its end. */
  lemma StoppedStepDrains(d: Dep, e: DepEvent)
    requires DepInv(d) && d.stopping
    ensures var r := DepStep(d, e);
      if Effective(d, e) then
        && r.tasks.Keys <= d.tasks.Keys && (forall u :: u in r.tasks && u != e.task ==> r.tasks[u] == d.tasks[u])
        && (e.task in r.tasks ==> Weight(r.tasks[e.task].pc) < Weight(d.tasks[e.task].pc))
      else r.tasks == d.tasks
  {
    hide ResumeTask, OnLiveExit, DepInv, RelaunchNow;
    if Effective(d, e) {
      hide Weight;
      ResumeDrains(d, e.task, e.outcome);
    } else if e.StopRequested? || e.RestartRequested? {
      StoppedIsOffLive(d);
    }
  }

  lemma StoppedIsOffLive(d: Dep)
    requires DepInv(d) && d.stopping
    ensures d.nextTask !in d.tasks && d.state != LIVE && d.state != RESTARTING
  {}

  lemma StoppedAdvanceEnds(d: Dep, t: TaskId, owner: Owner, to: DeploymentState, pc: Pc)
    requires d.stopping && to != STOPPING && to != STOPPED
    ensures Advance(d, t, owner, to, pc).tasks == d.tasks - {t}
    ensures Catch(d, t, owner).tasks == d.tasks - {t}
  {}

  ghost predicate Drained(d: Dep, t: TaskId, r: Dep) {
    && t in d.tasks
    && (r.tasks == d.tasks - {t} ||
        (t in r.tasks && r.tasks == d.tasks[t := r.tasks[t]] && Weight(r.tasks[t].pc) < Weight(d.tasks[t].pc)))
  }

  lemma PipelineDrains(d: Dep, t: TaskId, stage: DeploymentState)
    requires d.stopping && t in d.tasks
    ensures Drained(d, t, ResumePipeline(d, t, d.tasks[t].owner, stage))
  {
    var owner, next := d.tasks[t].owner, NextStage(d.cfg, stage);
    StoppedAdvanceEnds(d, t, owner, STARTING, Starting(d.tally.epoch + 1));
    StoppedAdvanceEnds(d, t, owner, next, Pipeline(next));
  }

  lemma PollingDrains(d: Dep, t: TaskId, e: nat, ok: bool, adopts: bool)
    requires d.stopping && t in d.tasks && d.tasks[t].pc == Polling(e)
    ensures Drained(d, t, ResumePolling(d, t, d.tasks[t].owner, e, ok, adopts))
  {}

  lemma StartDrains(d: Dep, t: TaskId, o: Outcome)
    requires d.stopping && t in d.tasks && StartingUp(d.tasks[t].pc) && !(o.Threw? && MayThrow(d.tasks[t].pc))
    ensures Drained(d, t, ResumeTask(d, t, o))
  {
    hide CanTransition, MayTransition, Advance, Catch, ResumePipeline, ResumePolling, Write, Finish;
    var owner, pc := d.tasks[t].owner, d.tasks[t].pc;
    match pc
    case Pipeline(stage) => PipelineDrains(d, t, stage);
    case Starting(_) =>
    case Started(e, i) => StoppedAdvanceEnds(d.(hooked := d.hooked + {i}), t, owner, HEALTH_CHECKING, Polling(e));
    case Polling(e) => PollingDrains(d, t, e, o.Done? && o.ok, o.Done? && o.adopts);
  }

  lemma LaunchDrains(d: Dep, t: TaskId, o: Outcome)
    requires d.stopping && t in d.tasks && Launching(d.tasks[t].pc) && !StartingUp(d.tasks[t].pc)
    requires !(o.Threw? && MayThrow(d.tasks[t].pc))
    ensures ResumeTask(d, t, o).tasks == d.tasks - {t}
  {
    hide CanTransition, MayTransition, Advance, Catch, Suspend, Write;
    var owner, pc := d.tasks[t].owner, d.tasks[t].pc;
    match pc
    case Adopting(e) => StoppedAdvanceEnds(d, t, owner, REGISTERING, Registering(e));
    case Registering(e) => StoppedAdvanceEnds(d, t, owner, EXPOSING, Exposing(e));
    case Exposing(_) => StoppedAdvanceEnds(d, t, owner, LIVE, LiveTail);
    case Relaunching =>
      var d1 := d.(relaunching := false, restarts := d.restarts + 1);
      StoppedAdvanceEnds(d1, t, owner, STARTING, Starting(d1.tally.epoch + 1));
    case Backoff =>
  }

  lemma EndDrains(d: Dep, t: TaskId, o: Outcome)
    requires d.stopping && t in d.tasks && !Launching(d.tasks[t].pc) && !(o.Threw? && MayThrow(d.tasks[t].pc))
    ensures Drained(d, t, ResumeTask(d, t, o))
  {
    hide CanTransition, MayTransition, Catch;
    StoppedAdvanceEnds(d, t, d.tasks[t].owner, LIVE, LiveTail);
  }

  lemma ResumeDrains(d: Dep, t: TaskId, o: Outcome)
    requires d.stopping && t in d.tasks
    ensures Drained(d, t, ResumeTask(d, t, o))
  {
    var pc := d.tasks[t].pc;
    if o.Threw? && MayThrow(pc) {
      hide Catch, Weight;
      StoppedAdvanceEnds(d, t, d.tasks[t].owner, LIVE, LiveTail);
    } else {
      hide ResumeTask, Weight;
      if StartingUp(pc) { StartDrains(d, t, o); } else if Launching(pc) { LaunchDrains(d, t, o); } else { EndDrains(d, t, o); }
    }
  }

  /** Resumptions of `id` in the run of `more` from `s`. */
  function Resumptions(s: Sys, more: seq<Event>, id: DepId): nat {
    if more == [] then 0
    else
      var before, e := more[..|more| - 1], more[|more| - 1];
      var p := Run(s, before);
      Resumptions(s, before, id) + (if e.On? && e.id == id && id in p.deps && Effective(p.deps[id], e.event) then 1 else 0)
  }

  /** One step: a resumption of the stopped deployment that does something uses up weight. */
  lemma StopDrainsStep(p: Sys, e: Event, id: DepId, all: set<TaskId>, n: nat)
    requires id in p.deps && DepInv(p.deps[id]) && p.deps[id].stopping && p.deps[id].tasks.Keys <= all
    requires forall t :: t in all ==> t < n
    ensures id in Step(p, e).deps && Step(p, e).deps[id].tasks.Keys <= all
    ensures Pending(Step(p, e).deps[id].tasks, n) + (if e.On? && e.id == id && Effective(p.deps[id], e.event) then 1 else 0)
         <= Pending(p.deps[id].tasks, n)
  {
    hide DepStep, DepInv, NewDep, Leaves;
    if e.On? && e.id == id {
      var d, r := p.deps[id], DepStep(p.deps[id], e.event);
      StoppedStepDrains(d, e.event);
      if Effective(d, e.event) { PendingDrops(d.tasks, r.tasks, e.event.task, n); }
    }
  }

  lemma TasksAreNumbered(d: Dep)
    requires DepInv(d)
    ensures forall t :: t in d.tasks ==> t < d.nextTask
  {}

  /** A stop finishes: only a bounded number of resumptions remain, fixed when the stop was requested. */
  lemma {:induction false} StopDrains(events: seq<Event>, more: seq<Event>, id: DepId, n: nat)
    requires var s := Run(INIT, events); id in s.deps && s.deps[id].stopping && n == s.deps[id].nextTask
    ensures var s, r := Run(INIT, events), Run(Run(INIT, events), more);
      && id in r.deps
      && r.deps[id].tasks.Keys <= s.deps[id].tasks.Keys
      && Resumptions(s, more, id) + Pending(r.deps[id].tasks, n) <= Pending(s.deps[id].tasks, n)
    decreases |more|
  {
    hide Step, DepInv, Effective;
    RunInv(events);
    var s := Run(INIT, events);
    TasksAreNumbered(s.deps[id]);
    if more != [] {
      var before, e := more[..|more| - 1], more[|more| - 1];
      StopDrains(events, before, id, n);
      StopWins(events, before, id);
      RunKeepsInv(s, before);
      StopDrainsStep(Run(s, before), e, id, s.deps[id].tasks.Keys, n);
    }
  }

  // ── the health gate over runs ─────────────────────────────

  /** One step back from an answered launch: either this step was the answer or the launch was answered before. */
  lemma AnswerNowOrBefore(d: Dep, e: DepEvent)
    requires DepInv(d)
    requires var r := DepStep(d, e); 0 < r.tally.okEpoch == r.tally.epoch
    ensures var r := DepStep(d, e);
      && r.tally.epoch == d.tally.epoch
      && (HealthyAnswer(d, e, r.tally.epoch) || d.tally.okEpoch == r.tally.okEpoch)
  {
    StepPromise(d, e);
  }

  predicate SameLaunch(s: Sys, id: DepId, epoch: nat) {
    id in s.deps && s.deps[id].tally.epoch == epoch
  }

  /** Launch `epoch` is the latest one and has had its healthy answer. */
  predicate AnsweredLaunch(s: Sys, id: DepId, epoch: nat) {
    SameLaunch(s, id, epoch) && 0 < s.deps[id].tally.okEpoch == epoch
  }

  predicate AnswerEvent(s: Sys, e: Event, id: DepId, epoch: nat) {
    e.On? && e.id == id && id in s.deps && HealthyAnswer(s.deps[id], e.event, epoch)
  }

  lemma AnsweredNowOrBefore(s: Sys, e: Event, id: DepId, epoch: nat)
    requires SysInv(s) && AnsweredLaunch(Step(s, e), id, epoch)
    ensures SameLaunch(s, id, epoch) && (AnswerEvent(s, e, id, epoch) || AnsweredLaunch(s, id, epoch))
  {
    if e.On? && e.id == id {
      AnswerNowOrBefore(s.deps[id], e.event);
    }
  }

  /** A deployment is past the gate only in a launch that has had its own healthy answer. */
  lemma HealthGate(events: seq<Event>, id: DepId)
    requires var s := Run(INIT, events); id in s.deps && PastHealth(s.deps[id].state)
    ensures var s := Run(INIT, events); AnsweredLaunch(s, id, s.deps[id].tally.epoch)
  {
    RunInv(events);
  }

  /**
   * Behind every deployment past the gate lies a step of the run in which its own launcher got a healthy answer, and
   * STARTING was not entered again since.
   */
  lemma {:induction false} HealthyAnswerBehindLive(events: seq<Event>, id: DepId, epoch: nat) returns (k: nat)
    requires AnsweredLaunch(Run(INIT, events), id, epoch)
    ensures k < |events| && AnswerEvent(Run(INIT, events[..k]), events[k], id, epoch)
    ensures SameLaunchSince(events, k, id, epoch)
    decreases |events|
  {
    hide DepInv, DepStep, SysInv;
    if events == [] {
      assert false;
    } else {
      var n := |events| - 1;
      var before, e := events[..n], events[n];
      RunInv(before);
      AnsweredNowOrBefore(Run(INIT, before), e, id, epoch);
      if AnswerEvent(Run(INIT, before), e, id, epoch) {
        k := n;
        assert events[..|events|] == events;
      } else {
        k := HealthyAnswerBehindLive(before, id, epoch);
        assert before[..k] == events[..k];
        SinceExtends(events, k, id, epoch);
      }
    }
  }

  /** STARTING is not entered between position `k` of the run and its end. */
  ghost predicate SameLaunchSince(events: seq<Event>, k: nat, id: DepId, epoch: nat) {
    forall j :: k <= j <= |events| ==> SameLaunch(Run(INIT, events[..j]), id, epoch)
  }

  lemma SinceExtends(events: seq<Event>, k: nat, id: DepId, epoch: nat)
    requires k < |events| && SameLaunchSince(events[..|events| - 1], k, id, epoch)
    requires SameLaunch(Run(INIT, events), id, epoch)
    ensures SameLaunchSince(events, k, id, epoch)
  {
    forall j | k <= j <= |events|
      ensures SameLaunch(Run(INIT, events[..j]), id, epoch)
    {
      if j == |events| {
        assert events[..j] == events;
      } else {
        assert events[..|events| - 1][..j] == events[..j];
      }
    }
  }

  // ── the crash budget ──────────────────────────────────────

  /** What an observer of the run counts for one deployment. */
  datatype Count = Count(lives: nat, crashes: nat, requests: nat, resets: nat)

  predicate Reaches(a: Sys, b: Sys, id: DepId, from: DeploymentState, to: DeploymentState) {
    id in a.deps && id in b.deps && a.deps[id].state == from && b.deps[id].state == to
  }

  predicate EntersLive(a: Sys, b: Sys, id: DepId) {
    id in a.deps && id in b.deps && a.deps[id].state != LIVE && b.deps[id].state == LIVE
  }

  predicate FiresTimer(a: Sys, e: DepEvent, id: DepId) {
    id in a.deps && e.StableTimerFired? && e.timer in a.deps[id].armed
  }

  /** Entries to LIVE, restarts after a crash, requested restarts and timer resets along the run. */
  function History(events: seq<Event>, id: DepId): Count {
    if events == [] then Count(0, 0, 0, 0)
    else
      var before, e := events[..|events| - 1], events[|events| - 1];
      var h, a, b := History(before, id), Run(INIT, before), Run(INIT, events);
      if !(e.On? && e.id == id) then h
      else
        var restarted := Reaches(a, b, id, LIVE, RESTARTING);
        Count(h.lives + (if EntersLive(a, b, id) then 1 else 0),
              h.crashes + (if e.event.Exited? && restarted then 1 else 0),
              h.requests + (if e.event.RestartRequested? && restarted then 1 else 0),
              h.resets + (if FiresTimer(a, e.event, id) then 1 else 0))
  }

  ghost predicate TallyMatches(s: Sys, id: DepId, h: Count) {
    if id in s.deps then
      var c := s.deps[id].tally;
      h == Count(c.lives, c.crashes, c.requests, c.resets)
    else h == Count(0, 0, 0, 0)
  }

  /** The counters of the record are the observer's counts. */
  lemma {:induction false} TallyIsHistory(events: seq<Event>, id: DepId)
    ensures TallyMatches(Run(INIT, events), id, History(events, id))
  {
    hide Promise, Answered, TasksOk, Driven, HealthOk, BudgetOk, StopOk;
    hide DepStep;
    if events == [] {
    } else {
      var before, e := events[..|events| - 1], events[|events| - 1];
      TallyIsHistory(before, id);
      RunInv(before);
      var a := Run(INIT, before);
      if e.On? && e.id == id && id in a.deps {
        StepPromise(a.deps[id], e.event);
      }
    }
  }

  /** Over a whole run: one budget of crash restarts for every reset, and no entry to LIVE without a restart. */
  lemma CrashBudget(events: seq<Event>, id: DepId)
    requires id in Run(INIT, events).deps
    ensures var h, max := History(events, id), Run(INIT, events).deps[id].cfg.maxRetries;
      && h.crashes <= max * (h.resets + 1)
      && h.lives <= 1 + h.crashes + h.requests
      && (h.requests == 0 && h.resets == 0 ==> h.lives <= max + 1)
  {
    hide Run, History, TasksOk, Driven, HealthOk, StopOk;
    RunInv(events);
    TallyIsHistory(events, id);
    var d := Run(INIT, events).deps[id];
    assert d.cfg.maxRetries * (d.tally.resets + 1) == d.cfg.maxRetries * d.tally.resets + d.cfg.maxRetries;
  }

  /** On its way to LIVE: one more entry may come without another restart. */
  function Underway(d: Dep): nat {
    if Waiting(d.state) && d.state != STOPPING then 1 else 0
  }

  predicate SameBudget(d: Dep, r: Dep) {
    r.attempts == d.attempts && SameCounts(d.tally, r.tally) && (r.state == RESTARTING ==> d.state == RESTARTING)
  }

  /** FAILED is not written. */
  predicate Unfailed(d: Dep, r: Dep) {
    r.state == FAILED ==> d.state == FAILED
  }

  lemma AdvanceSameBudget(d: Dep, t: TaskId, owner: Owner, to: DeploymentState, pc: Pc)
    requires to != RESTARTING && to != FAILED
    ensures Unfailed(d, Advance(d, t, owner, to, pc)) && Unfailed(d, Catch(d, t, owner))
    ensures SameBudget(d, Advance(d, t, owner, to, pc)) && SameBudget(d, Catch(d, t, owner))
  {
    hide CanTransition, MayTransition, Write, Catch;
    WriteSameBudget(d, to);
    CatchSameBudget(d, t, owner);
  }

  lemma CatchSameBudget(d: Dep, t: TaskId, owner: Owner)
    ensures SameBudget(d, Catch(d, t, owner)) && Unfailed(d, Catch(d, t, owner))
  {}

  lemma WriteSameBudget(d: Dep, to: DeploymentState)
    requires to != RESTARTING && to != FAILED
    ensures SameBudget(d, Write(d, to)) && Unfailed(d, Write(d, to))
  {}

  lemma PipelineSameBudget(d: Dep, t: TaskId, owner: Owner, stage: DeploymentState)
    ensures SameBudget(d, ResumePipeline(d, t, owner, stage)) && Unfailed(d, ResumePipeline(d, t, owner, stage))
  {
    hide Advance;
    AdvanceSameBudget(d, t, owner, STARTING, Starting(d.tally.epoch + 1));
    AdvanceSameBudget(d, t, owner, NextStage(d.cfg, stage), Pipeline(NextStage(d.cfg, stage)));
  }

  lemma PollingSameBudget(d: Dep, t: TaskId, owner: Owner, epoch: nat, ok: bool, adopts: bool)
    ensures var r := ResumePolling(d, t, owner, epoch, ok, adopts); SameBudget(d, r) && Unfailed(d, r)
  {
    hide Advance;
    AdvanceSameBudget(d.(tally := d.tally.(okEpoch := epoch)), t, owner, REGISTERING, Registering(epoch));
  }

  predicate StartingUp(pc: Pc) {
    pc.Pipeline? || pc.Starting? || pc.Started? || pc.Polling?
  }

  lemma StartSameBudget(d: Dep, t: TaskId, o: Outcome)
    requires t in d.tasks && StartingUp(d.tasks[t].pc) && !(o.Threw? && MayThrow(d.tasks[t].pc))
    ensures SameBudget(d, ResumeTask(d, t, o)) && Unfailed(d, ResumeTask(d, t, o))
  {
    hide CanTransition, MayTransition, Advance, Catch, ResumePipeline, ResumePolling, Launch, Write, Finish;
    var owner, pc := d.tasks[t].owner, d.tasks[t].pc;
    match pc
    case Pipeline(stage) => PipelineSameBudget(d, t, owner, stage);
    case Starting(_) =>
    case Started(e, i) => AdvanceSameBudget(d.(hooked := d.hooked + {i}), t, owner, HEALTH_CHECKING, Polling(e));
    case Polling(e) => PollingSameBudget(d, t, owner, e, o.Done? && o.ok, o.Done? && o.adopts);
  }

  lemma LaunchSameBudget(d: Dep, t: TaskId, o: Outcome)
    requires t in d.tasks && Launching(d.tasks[t].pc) && !StartingUp(d.tasks[t].pc) && !(o.Threw? && MayThrow(d.tasks[t].pc))
    ensures SameBudget(d, ResumeTask(d, t, o)) && Unfailed(d, ResumeTask(d, t, o))
  {
    hide CanTransition, MayTransition, Advance, Catch, Suspend, Write;
    var owner, pc := d.tasks[t].owner, d.tasks[t].pc;
    match pc
    case Adopting(e) => AdvanceSameBudget(d, t, owner, REGISTERING, Registering(e));
    case Registering(e) => AdvanceSameBudget(d, t, owner, EXPOSING, Exposing(e));
    case Exposing(_) => AdvanceSameBudget(d, t, owner, LIVE, LiveTail);
    case Relaunching =>
      AdvanceSameBudget(d.(relaunching := false, restarts := d.restarts + 1), t, owner, STARTING, Starting(d.tally.epoch + 1));
    case Backoff => AdvanceSameBudget(d, t, owner, STARTING, Starting(d.tally.epoch + 1));
  }

  /** Resuming a method restarts nothing, and only the end of `fail` writes FAILED. */
  lemma ResumeSameBudget(d: Dep, t: TaskId, o: Outcome)
    requires t in d.tasks
    ensures SameBudget(d, ResumeTask(d, t, o)) && (d.tasks[t].pc.Failing? || Unfailed(d, ResumeTask(d, t, o)))
  {
    hide CanTransition, MayTransition, Advance, Catch, ResumePipeline, ResumePolling;
    CatchSameBudget(d, t, d.tasks[t].owner);
    if !(o.Threw? && MayThrow(d.tasks[t].pc)) {
      if StartingUp(d.tasks[t].pc) {
        hide ResumeTask;
        StartSameBudget(d, t, o);
      } else if Launching(d.tasks[t].pc) {
        hide ResumeTask;
        LaunchSameBudget(d, t, o);
      }
    }
  }

  /** Only exits and requests take a deployment from LIVE to RESTARTING. */
  lemma RestartsHaveCauses(d: Dep, e: DepEvent)
    requires d.state == LIVE && DepStep(d, e).state == RESTARTING
    ensures e.Exited? || e.RestartRequested?
  {
    hide ResumeTask;
    if e.Resume? && e.task in d.tasks { ResumeSameBudget(d, e.task, e.outcome); }
  }

  predicate UsesAttempts(d: Dep, r: Dep) {
    r.tally.resets == d.tally.resets && r.tally.crashes - r.attempts == d.tally.crashes - d.attempts
  }

  lemma BeginningsUseNothing(d: Dep, t: TaskId)
    ensures UsesAttempts(d, Teardown(d, t)) && UsesAttempts(d, RelaunchNow(d, t)) && UsesAttempts(d, Fail(d, t, Crash))
    ensures Unfailed(d, Teardown(d, t)) && Unfailed(d, RelaunchNow(d, t)) && Unfailed(d, Fail(d, t, Crash))
  {
    hide CanTransition, MayTransition;
  }

  lemma ExitsUseAttempts(d: Dep, code: Option<int>)
    ensures UsesAttempts(d, OnLiveExit(d, code)) && Unfailed(d, OnLiveExit(d, code))
  {
    hide CanTransition, MayTransition, Teardown, Fail, RelaunchNow;
    BeginningsUseNothing(NewTask(d), d.nextTask);
    BeginningsUseNothing(NewTask(d).(attempts := d.attempts + 1, restarts := d.restarts + 1,
                                     tally := d.tally.(crashes := d.tally.crashes + 1)), d.nextTask);
  }

  /** Without a reset every crash restart uses up an attempt. */
  lemma AttemptsAreCrashes(d: Dep, e: DepEvent)
    requires DepStep(d, e).tally.resets == d.tally.resets
    ensures UsesAttempts(d, DepStep(d, e))
  {
    hide ResumeTask, OnLiveExit, Teardown, RelaunchNow;
    match e
    case Resume(t, o) => if t in d.tasks { ResumeSameBudget(d, t, o); }
    case Exited(i, code) => ExitsUseAttempts(ClearTimer(d.(hooked := d.hooked - {i})), code);
    case RestartRequested => BeginningsUseNothing(NewTask(d), d.nextTask);
    case StopRequested => BeginningsUseNothing(NewTask(d), d.nextTask);
    case StableTimerFired(_) =>
  }

  /** Only a resumed failure writes FAILED. */
  lemma FailedByFailing(d: Dep, e: DepEvent)
    requires d.state != FAILED && DepStep(d, e).state == FAILED
    ensures e.Resume? && e.task in d.tasks && d.tasks[e.task].pc.Failing?
  {
    hide ResumeTask, OnLiveExit, Teardown, RelaunchNow;
    match e
    case Resume(t, o) => if t in d.tasks { ResumeSameBudget(d, t, o); }
    case Exited(i, code) => ExitsUseAttempts(ClearTimer(d.(hooked := d.hooked - {i})), code);
    case RestartRequested => BeginningsUseNothing(NewTask(d), d.nextTask);
    case StopRequested => BeginningsUseNothing(NewTask(d), d.nextTask);
    case StableTimerFired(_) =>
  }

  lemma BudgetStep(d: Dep, e: DepEvent)
    requires DepInv(d)
    ensures var r := DepStep(d, e);
      && r.cfg == d.cfg && r.tally.resets >= d.tally.resets
      && (r.tally.resets == d.tally.resets ==> r.tally.crashes - r.attempts == d.tally.crashes - d.attempts)
      && r.tally.lives + Underway(r) - r.tally.crashes - r.tally.requests
           <= d.tally.lives + Underway(d) - d.tally.crashes - d.tally.requests
  {
    hide DepStep, TasksOk, Driven, HealthOk, BudgetOk;
    StepPromise(d, e);
    if DepStep(d, e).tally.resets == d.tally.resets { AttemptsAreCrashes(d, e); }
    if d.state == LIVE && DepStep(d, e).state == RESTARTING { RestartsHaveCauses(d, e); }
  }

  ghost predicate WithinBudget(a: Dep, b: Dep) {
    && b.cfg == a.cfg && b.tally.resets >= a.tally.resets
    && (b.tally.resets == a.tally.resets ==> b.tally.crashes - b.attempts == a.tally.crashes - a.attempts)
    && b.tally.lives + Underway(b) - b.tally.crashes - b.tally.requests
         <= a.tally.lives + Underway(a) - a.tally.crashes - a.tally.requests
  }

  lemma {:induction false} BudgetOverRuns(events: seq<Event>, more: seq<Event>, id: DepId)
    requires id in Run(INIT, events).deps
    ensures id in Run(INIT, events + more).deps && WithinBudget(Run(INIT, events).deps[id], Run(INIT, events + more).deps[id])
    decreases |more|
  {
    hide DepStep, DepInv, NewDep;
    if more == [] {
      assert events + more == events;
    } else {
      var before, e := more[..|more| - 1], more[|more| - 1];
      var all := events + more;
      assert all[..|all| - 1] == events + before && all[|all| - 1] == e;
      BudgetOverRuns(events, before, id);
      RunInv(events + before);
      if e.On? && e.id == id { BudgetStep(Run(INIT, events + before).deps[id], e.event); }
    }
  }

  /**
   * The crash budget. In any stretch of a run without a reset of the stability timer at most `maxRetries` crash restarts
   * happen, fewer by the attempts already used; and LIVE is entered at most once for every restart, and once more if
   * the deployment was on its way there. An app that always crashes early goes live at most `maxRetries` + 1 times.
   */
  lemma CrashWindow(events: seq<Event>, more: seq<Event>, id: DepId)
    requires id in Run(INIT, events).deps && History(events + more, id).resets == History(events, id).resets
    ensures var d, h, k := Run(INIT, events).deps[id], History(events, id), History(events + more, id);
      && k.crashes - h.crashes <= d.cfg.maxRetries - d.attempts <= d.cfg.maxRetries
      && k.lives - h.lives <= Underway(d) + (k.crashes - h.crashes) + (k.requests - h.requests)
      && (k.requests == h.requests ==> k.lives - h.lives <= d.cfg.maxRetries + 1)
  {
    hide Run, History, TasksOk, Driven, HealthOk, StopOk;
    BudgetOverRuns(events, more, id);
    RunInv(events + more);
    TallyIsHistory(events, id);
    TallyIsHistory(events + more, id);
  }
}
