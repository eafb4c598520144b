/** The stability timer: when a crash is forgiven although the application was not stable. */
module DeploymentTimers {
  import opened Wrappers
  import opened DeploymentStates
  import opened DeploymentProtocol
  import opened DeploymentSteps
  import opened Runs = DeploymentRuns
  import opened DeploymentExceptions
  import DeploymentInvariants

  // ── arming ────────────────────────────────────────────────

  /** A step arms the stability timer of a deployment that is not LIVE exactly when it ends a launch that came too late. */
  lemma ArmsOffLiveIff(d: Dep, e: DepEvent)
    ensures var r := DepStep(d, e);
      (d.timers in r.armed && r.timers == d.timers + 1 && r.state != LIVE) <==>
      (e.Resume? && e.task in d.tasks && d.tasks[e.task].pc.LiveTail? && d.state != LIVE)
  {
    hide OnLiveExit, RelaunchNow, Teardown, ResumeTask;
    match e
    case Resume(t, o) =>
      if t in d.tasks {
        ResumeKeepsRest(d, t, o);
        if d.tasks[t].pc.LiveTail? { LiveTailArms(d, t, o); }
      }
    case Exited(i, code) => ExitKeepsRest(ClearTimer(d.(hooked := d.hooked - {i})), code);
    case RestartRequested => RelaunchKeepsRest(NewTask(d), d.nextTask); TeardownKeepsRest(NewTask(d), d.nextTask);
    case StopRequested => TeardownKeepsRest(NewTask(d), d.nextTask);
    case StableTimerFired(_) =>
  }

  lemma LiveTailArms(d: Dep, t: TaskId, o: Outcome)
    requires t in d.tasks && d.tasks[t].pc.LiveTail?
    ensures var r := ResumeTask(d, t, o); r.timers == d.timers + 1 && d.timers in r.armed && r.state == d.state
  {}

  /**
   * A run that shows it. The process crashes right after LIVE was written; the launch then arms the timer while the
   * deployment is RESTARTING, and the timer forgives the crash although the application was never stable.
   */
  lemma StaleTimerForgivesCrash()
    ensures var crashed := Startup(9) + [On(ID, Exited(0, Some(1)))] + [GoOn(0)];
      var d, r := Runs.Run(INIT, crashed).deps, Runs.Run(INIT, crashed + [On(ID, StableTimerFired(0))]).deps;
      && ID in d && d[ID].state == RESTARTING && d[ID].attempts == 1 && 0 in d[ID].armed
      && ID in r && r[ID].state == RESTARTING && r[ID].attempts == 0
  {
    hide At;
    RunStartsUp(9);
    CrashAfterLive();
    var d1 := DepStep(At(9), Exited(0, Some(1)));
    var d2 := DepStep(d1, Resume(0, Done(true, false)));
    hide DepStep;
    RunGoesOn(Startup(9), At(9), Exited(0, Some(1)));
    RunGoesOn(Startup(9) + [On(ID, Exited(0, Some(1)))], d1, Resume(0, Done(true, false)));
    RunGoesOn(Startup(9) + [On(ID, Exited(0, Some(1)))] + [GoOn(0)], d2, StableTimerFired(0));
  }

  lemma CrashAfterLive()
    ensures var d1 := DepStep(At(9), Exited(0, Some(1)));
      var d2 := DepStep(d1, Resume(0, Done(true, false)));
      var d3 := DepStep(d2, StableTimerFired(0));
      && !Leaves(d1, Resume(0, Done(true, false)))
      && d2.state == RESTARTING && d2.attempts == 1 && 0 in d2.armed && d3.state == RESTARTING && d3.attempts == 0
  {
    Crashed();
    ResumesLiveTail(DepStep(At(9), Exited(0, Some(1))));
    hide At, OnExit, ResumeTask;
  }

  lemma Crashed()
    ensures var d1 := DepStep(At(9), Exited(0, Some(1)));
      d1.state == RESTARTING && d1.attempts == 1 && d1.timers == 0 && 0 in d1.tasks && d1.tasks[0].pc.LiveTail?
  {
    var d := At(9);
    assert OnExit(d.(hooked := {}), 0, Some(1)) == OnLiveExit(d.(hooked := {}), Some(1));
    assert d.hooked - {0} == {};
  }

  lemma ResumesLiveTail(d1: Dep)
    requires d1.timers == 0 && 0 in d1.tasks && d1.tasks[0].pc.LiveTail?
    ensures var d2 := DepStep(d1, Resume(0, Done(true, false)));
      d2.state == d1.state && d2.attempts == d1.attempts && 0 in d2.armed
  {}

  // ── when a timer goes stale ───────────────────────────────

  /** No timer is armed while the deployment is on its way to LIVE or back to it. */
  predicate NoStale(d: Dep) {
    !Ended(d) && d.state != LIVE ==> d.armed == {}
  }

  /** The deployment is LIVE and this event takes it to RESTARTING. */
  predicate LeavesLive(d: Dep, e: DepEvent) {
    && d.state == LIVE && !d.stopping
    && (e.RestartRequested? ||
        (e.Exited? && e.instance in d.hooked && d.instance == Some(e.instance) && !d.relaunching
         && ShouldRestart(d.cfg, e.code) && d.attempts < d.cfg.maxRetries))
  }

  /**
   * What makes a timer stale: a launch ends after its deployment has left LIVE again, or LIVE is left while another
   * timer than the latest one is still armed, because only the latest one is cleared.
   */
  predicate Strays(d: Dep, e: DepEvent) {
    || (e.Resume? && e.task in d.tasks && d.tasks[e.task].pc.LiveTail? && !Ended(d) && d.state != LIVE)
    || (LeavesLive(d, e) && exists k :: k in d.armed && d.stableTimer != Some(k))
  }

  /** At most one timer is armed by a step, with the next number; others are only taken away. */
  lemma ArmedStep(d: Dep, e: DepEvent)
    ensures var r := DepStep(d, e);
      if e.Resume? && e.task in d.tasks && d.tasks[e.task].pc.LiveTail? then
        r.armed == d.armed + {d.timers} && r.timers == d.timers + 1 && r.state == d.state && r.stopping == d.stopping
      else r.armed <= d.armed && r.timers == d.timers
  {
    hide OnLiveExit, RelaunchNow, Teardown, ResumeTask;
    match e
    case Resume(t, o) =>
      if t in d.tasks {
        ResumeKeepsRest(d, t, o);
        if d.tasks[t].pc.LiveTail? { TailArms(d, t, o); }
      }
    case Exited(i, code) => ExitKeepsRest(ClearTimer(d.(hooked := d.hooked - {i})), code);
    case RestartRequested => RelaunchKeepsRest(NewTask(d), d.nextTask); TeardownKeepsRest(NewTask(d), d.nextTask);
    case StopRequested => TeardownKeepsRest(NewTask(d), d.nextTask);
    case StableTimerFired(_) =>
  }

  lemma TailArms(d: Dep, t: TaskId, o: Outcome)
    requires t in d.tasks && d.tasks[t].pc.LiveTail?
    ensures var r := ResumeTask(d, t, o);
      r.armed == d.armed + {d.timers} && r.timers == d.timers + 1 && r.state == d.state && r.stopping == d.stopping
  {}

  lemma RequestLeaves(d: Dep)
    requires d.state == LIVE && !d.stopping
    ensures var r := DepStep(d, RestartRequested); r.state == RESTARTING && !r.stopping && r.armed == ClearTimer(d).armed
  {}

  lemma ExitLeavesIff(d: Dep, i: InstanceId, code: Option<int>)
    requires d.state == LIVE && !d.stopping
    ensures var r := DepStep(d, Exited(i, code));
      && (r.state == RESTARTING <==> LeavesLive(d, Exited(i, code)))
      && (r.state == RESTARTING ==> !r.stopping && r.armed == ClearTimer(d).armed)
  {}

  /** From LIVE there is no other way off it than to RESTARTING, or to the end. */
  lemma OffLiveIff(d: Dep, e: DepEvent)
    requires DepInv(d) && d.state == LIVE && !Ended(d)
    ensures var r := DepStep(d, e);
      && (!Ended(r) && r.state != LIVE <==> LeavesLive(d, e))
      && (LeavesLive(d, e) ==> r.armed == ClearTimer(d).armed)
  {
    hide DepStep, TasksOk, Driven, HealthOk, BudgetOk, ClearTimer;
    var r := DepStep(d, e);
    StepPromise(d, e);
    DeploymentInvariants.StepKeeps(d, e);
    if r.state == RESTARTING { RestartsHaveCauses(d, e); }
    match e
    case RestartRequested => RequestLeaves(d);
    case Exited(i, code) => ExitLeavesIff(d, i, code);
    case _ =>
  }

  lemma EndedStays(d: Dep, e: DepEvent)
    requires DepInv(d) && Ended(d)
    ensures Ended(DepStep(d, e))
  {
    hide DepStep, Driven, HealthOk, BudgetOk;
    StepPromise(d, e);
  }

  /** Exactly when a step leaves a timer armed that it should not. */
  lemma StaleIffStrays(d: Dep, e: DepEvent)
    requires DepInv(d) && NoStale(d)
    ensures !NoStale(DepStep(d, e)) <==> Strays(d, e)
  {
    hide DepStep, DepInv;
    ArmedStep(d, e);
    if Ended(d) {
      EndedStays(d, e);
    } else if d.state == LIVE {
      OffLiveIff(d, e);
      LatestIsCleared(d);
    }
  }

  lemma LatestIsCleared(d: Dep)
    ensures ClearTimer(d).armed != {} <==> exists k :: k in d.armed && d.stableTimer != Some(k)
  {
    if k :| k in d.armed && d.stableTimer != Some(k) {
      assert k in ClearTimer(d).armed;
    } else {
      assert forall k :: k in ClearTimer(d).armed ==> k in d.armed && d.stableTimer != Some(k);
    }
  }

  // ── over runs ─────────────────────────────────────────────

  /** The record after `k` events. */
  predicate Known(events: seq<Event>, k: nat, id: DepId) {
    k <= |events| && id in Runs.Run(INIT, events[..k]).deps
  }

  function Then(events: seq<Event>, k: nat, id: DepId): Dep
    requires Known(events, k, id)
  {
    Runs.Run(INIT, events[..k]).deps[id]
  }

  predicate StraysAt(events: seq<Event>, k: nat, id: DepId) {
    k < |events| && Known(events, k, id) && events[k].On? && events[k].id == id && Strays(Then(events, k, id), events[k].event)
  }

  /**
   * Timer `t` is armed after `k` events, although it was armed before event number `i`, and by then the deployment was
   * not LIVE: when it fires it forgives crashes of an application that has not been stable.
   */
  predicate StaleTimer(events: seq<Event>, id: DepId, i: nat, k: nat, t: nat) {
    && i <= k && Known(events, i, id) && Known(events, k, id)
    && t < Then(events, i, id).timers && t in Then(events, k, id).armed
    && !Ended(Then(events, i, id)) && Then(events, i, id).state != LIVE
  }

  lemma OneEvent(events: seq<Event>, k: nat, id: DepId)
    requires k < |events| && Known(events, k, id)
    ensures Known(events, k + 1, id)
    ensures var d, r := Then(events, k, id), Then(events, k + 1, id);
      r == if events[k].On? && events[k].id == id then DepStep(d, events[k].event) else d
  {
    hide DepStep, NewDep, Leaves;
    assert events[..k + 1][..k] == events[..k];
  }

  lemma FirstEvent(events: seq<Event>, k: nat, id: DepId)
    requires k < |events| && Known(events, k + 1, id) && !Known(events, k, id)
    ensures Then(events, k + 1, id).armed == {} && Then(events, k + 1, id).timers == 0
  {
    hide DepStep, Leaves;
    assert events[..k + 1][..k] == events[..k];
  }

  lemma ThenInv(events: seq<Event>, k: nat, id: DepId)
    requires Known(events, k, id)
    ensures DepInv(Then(events, k, id))
  {
    hide DepInv;
    RunInv(events[..k]);
  }

  /** Timers are numbered in the order in which they are armed. */
  lemma {:induction false} TimersAreNumbered(events: seq<Event>, k: nat, id: DepId)
    requires Known(events, k, id)
    ensures forall t :: t in Then(events, k, id).armed ==> t < Then(events, k, id).timers
  {
    hide DepStep, Runs.Run;
    if k == 0 {
      assert events[..0] == [];
      NobodyAtFirst(id);
    } else if Known(events, k - 1, id) {
      TimersAreNumbered(events, k - 1, id);
      OneEvent(events, k - 1, id);
      if events[k - 1].On? && events[k - 1].id == id { ArmedStep(Then(events, k - 1, id), events[k - 1].event); }
    } else {
      FirstEvent(events, k - 1, id);
    }
  }

  lemma NobodyAtFirst(id: DepId)
    ensures id !in Runs.Run(INIT, []).deps
  {}

  /** A timer that is armed has been armed ever since it was set. */
  lemma {:induction false} ArmedSince(events: seq<Event>, id: DepId, i: nat, k: nat, t: nat)
    requires i <= k && Known(events, i, id) && Known(events, k, id)
    requires t < Then(events, i, id).timers && t in Then(events, k, id).armed
    ensures t in Then(events, i, id).armed && Then(events, i, id).timers <= Then(events, k, id).timers
    decreases k - i
  {
    hide DepStep, Runs.Run;
    if i < k {
      OneEvent(events, i, id);
      if events[i].On? && events[i].id == id { ArmedStep(Then(events, i, id), events[i].event); }
      ArmedSince(events, id, i + 1, k, t);
    }
  }

  /** Without a step that strays nothing is stale. */
  lemma {:induction false} NothingStale(events: seq<Event>, k: nat, id: DepId)
    requires Known(events, k, id) && forall j: nat :: j < k ==> !StraysAt(events, j, id)
    ensures NoStale(Then(events, k, id))
  {
    hide DepStep, Strays, Runs.Run;
    if k == 0 {
      assert events[..0] == [];
      NobodyAtFirst(id);
    } else if Known(events, k - 1, id) {
      NothingStale(events, k - 1, id);
      OneEvent(events, k - 1, id);
      ThenInv(events, k - 1, id);
      assert !StraysAt(events, k - 1, id);
      if events[k - 1].On? && events[k - 1].id == id { StaleIffStrays(Then(events, k - 1, id), events[k - 1].event); }
    } else {
      FirstEvent(events, k - 1, id);
    }
  }

  lemma StaleThere(events: seq<Event>, id: DepId, k: nat)
    requires Known(events, k, id) && !NoStale(Then(events, k, id))
    ensures exists t: nat :: StaleTimer(events, id, k, k, t)
  {
    hide Runs.Run;
    TimersAreNumbered(events, k, id);
    var t: nat :| t in Then(events, k, id).armed;
    assert StaleTimer(events, id, k, k, t);
  }

  /**
   * Over every run: some timer is armed that was set before a moment at which the deployment was not LIVE, if and only
   * if some step strayed. Otherwise every timer that fires has seen the deployment LIVE since it was set.
   */
  lemma StaleTimersIff(events: seq<Event>, id: DepId)
    ensures (exists i: nat, k: nat, t: nat :: StaleTimer(events, id, i, k, t)) <==> (exists j: nat :: StraysAt(events, j, id))
  {
    hide DepStep, Strays, Runs.Run, NoStale;
    if i: nat, k: nat, t: nat :| StaleTimer(events, id, i, k, t) {
      ArmedSince(events, id, i, k, t);
      assert !NoStale(Then(events, i, id)) by { StaleHere(Then(events, i, id), t); }
      if forall j: nat :: j < i ==> !StraysAt(events, j, id) { NothingStale(events, i, id); }
    }
    if j: nat :| StraysAt(events, j, id) {
      if NoStale(Then(events, j, id)) {
        OneEvent(events, j, id);
        ThenInv(events, j, id);
        StaleIffStrays(Then(events, j, id), events[j].event);
        StaleThere(events, id, j + 1);
      } else {
        StaleThere(events, id, j);
      }
    }
  }

  lemma StaleHere(d: Dep, t: nat)
    requires t in d.armed && !Ended(d) && d.state != LIVE
    ensures !NoStale(d)
  {}

  // ── the second way, in a run ──────────────────────────────

  const AGAIN: seq<DeploymentState> := [RESTARTING, STARTING, STARTING, HEALTH_CHECKING, REGISTERING, EXPOSING, LIVE]

  const AGAIN_WAITS: seq<Pc> := [Backoff, Starting(2), Started(2, 1), Polling(2), Registering(2), Exposing(2), LiveTail]

  /** A crash right after LIVE, and `n` resumptions of the restart; the first launch is still at its last wait. */
  function Second(n: nat): Dep
    requires n <= 6
  {
    Dep(PROJECT, CONFIG, AGAIN[n], false, false, Some(if n >= 2 then 1 else 0), if n >= 2 then 2 else 1,
        if n >= 3 then {1} else {}, 1, 1, None, {}, 0,
        map[0 := Task(Owner.Run, LiveTail), 1 := Task(Crash, AGAIN_WAITS[n])], 2,
        Tally(if n >= 1 then 2 else 1, if n >= 4 then 2 else 1, if n == 6 then 2 else 1, 1, 0, 0, 0))
  }

  function Restart(n: nat): seq<Event> {
    if n == 0 then Startup(9) + [On(ID, Exited(0, Some(1)))] else Restart(n - 1) + [GoOn(1)]
  }

  lemma FirstCrash()
    ensures DepStep(At(9), Exited(0, Some(1))) == Second(0)
  {
    var d := At(9);
    assert d.hooked - {0} == {};
    assert d.tasks[1 := Task(Crash, Backoff)] == Second(0).tasks;
  }

  lemma RestartsEarly(n: nat)
    requires n < 3
    ensures DepStep(Second(n), Resume(1, Done(true, false))) == Second(n + 1)
  {
    assert Second(n).tasks[1 := Task(Crash, AGAIN_WAITS[n + 1])] == Second(n + 1).tasks;
    var none: set<InstanceId> := {};
    assert none + {1} == {1};
  }

  lemma RestartsLate(n: nat)
    requires 3 <= n < 6
    ensures DepStep(Second(n), Resume(1, Done(true, false))) == Second(n + 1)
  {
    assert Second(n).tasks[1 := Task(Crash, AGAIN_WAITS[n + 1])] == Second(n + 1).tasks;
  }

  lemma NotLeavingAgain(n: nat)
    requires n <= 6
    ensures !Leaves(Second(n), Resume(1, Done(true, false)))
  {}

  lemma {:induction false} RunRestarts(n: nat)
    requires n <= 6
    ensures Runs.Run(INIT, Restart(n)) == Only(Second(n))
  {
    hide DepStep, At, Second, Runs.Run, Leaves;
    if n == 0 {
      RunStartsUp(9);
      FirstCrash();
      ExitsDoNotLeave(At(9), 0);
      RunGoesOn(Startup(9), At(9), Exited(0, Some(1)));
    } else {
      RunRestarts(n - 1);
      if n <= 3 { RestartsEarly(n - 1); } else { RestartsLate(n - 1); }
      NotLeavingAgain(n - 1);
      RunGoesOn(Restart(n - 1), Second(n - 1), Resume(1, Done(true, false)));
    }
  }

  lemma ExitsDoNotLeave(d: Dep, i: InstanceId)
    ensures !Leaves(d, Exited(i, Some(1)))
  {}

  /** After the restart has gone live: both launches end, the process crashes again, and the older timer fires. */
  const ENDINGS: seq<DepEvent> :=
    [Resume(0, Done(true, false)), Resume(1, Done(true, false)), Exited(1, Some(1)), StableTimerFired(0)]

  /** `Second(6)` after the first `n` of these. */
  function Ending(n: nat): Dep
    requires n <= 4
  {
    if n == 0 then Second(6) else DepStep(Ending(n - 1), ENDINGS[n - 1])
  }

  function Endings(n: nat): seq<Event>
    requires n <= 4
  {
    if n == 0 then Restart(6) else Endings(n - 1) + [On(ID, ENDINGS[n - 1])]
  }

  lemma BothArm()
    ensures var d := Second(6);
      var r := DepStep(DepStep(d, ENDINGS[0]), ENDINGS[1]);
      && r == d.(tasks := map[], armed := {0, 1}, timers := 2, stableTimer := Some(1))
      && !Leaves(d, ENDINGS[0]) && !Leaves(DepStep(d, ENDINGS[0]), ENDINGS[1])
      && DepStep(d, ENDINGS[0]).state == LIVE
  {
    var d := Second(6);
    var d1 := DepStep(d, ENDINGS[0]);
    assert d1 == d.(tasks := map[1 := Task(Crash, LiveTail)], armed := {0}, timers := 1, stableTimer := Some(0));
    assert d1.tasks - {1} == map[];
    assert {0} + {1} == {0, 1};
  }

  lemma OlderOneStays()
    ensures var d := Second(6).(tasks := map[], armed := {0, 1}, timers := 2, stableTimer := Some(1));
      var r := DepStep(d, ENDINGS[2]);
      && d.state == LIVE && r.state == RESTARTING && r.attempts == 2 && r.armed == {0} && !r.stopping
  {
    var d := Second(6).(tasks := map[], armed := {0, 1}, timers := 2, stableTimer := Some(1));
    ExitLeavesIff(d, 1, Some(1));
    assert {0, 1} - {1} == {0};
  }

  lemma OlderOneFires(d: Dep)
    requires 0 in d.armed
    ensures var r := DepStep(d, StableTimerFired(0)); r.state == d.state && r.attempts == 0
  {}

  lemma EndsLive()
    ensures Ending(0).state == LIVE && Ending(1).state == LIVE && Ending(2).state == LIVE
    ensures Ending(0).timers == 0 && Ending(2).timers == 2
    ensures Ending(2) == Second(6).(tasks := map[], armed := {0, 1}, timers := 2, stableTimer := Some(1))
    ensures !Leaves(Ending(0), ENDINGS[0]) && !Leaves(Ending(1), ENDINGS[1])
  {
    BothArm();
    hide DepStep, Leaves;
    assert Ending(1) == DepStep(Second(6), ENDINGS[0]);
    assert Ending(2) == DepStep(Ending(1), ENDINGS[1]);
  }

  lemma EndsForgiven()
    ensures Ending(3).state == RESTARTING && Ending(3).attempts == 2 && 0 in Ending(3).armed
    ensures Ending(4).state == RESTARTING && Ending(4).attempts == 0
  {
    hide DepStep, Second;
    EndsLive();
    OlderOneStays();
    assert Ending(3) == DepStep(Ending(2), ENDINGS[2]);
    OlderOneFires(Ending(3));
    assert Ending(4) == DepStep(Ending(3), ENDINGS[3]);
  }

  lemma NothingEnds(n: nat)
    requires n < 4
    ensures !Leaves(Ending(n), ENDINGS[n])
  {
    EndsLive();
    hide Ending;
  }

  lemma {:induction false} RunEnds(n: nat)
    requires n <= 4
    ensures Runs.Run(INIT, Endings(n)) == Only(Ending(n))
  {
    hide DepStep, Second, Restart, Runs.Run, Leaves;
    if n == 0 {
      RunRestarts(6);
    } else {
      RunEnds(n - 1);
      NothingEnds(n - 1);
      RunGoesOn(Endings(n - 1), Ending(n - 1), ENDINGS[n - 1]);
    }
  }

  /**
   * Both timers of this run are set at LIVE. The process crashes right after LIVE was written and the deployment goes
   * live a second time before the first launch ends. Then both launches end, and each sets a timer. The second crash
   * clears the newer one only; the older one forgives both crashes while the deployment is RESTARTING.
   */
  lemma OverwrittenTimerForgivesCrashes()
    ensures forall n :: 0 <= n <= 2 ==> Runs.Run(INIT, Endings(n)) == Only(Ending(n)) && Ending(n).state == LIVE
    ensures Ending(0).timers == 0 && Ending(2).timers == 2
    ensures var before, after := Runs.Run(INIT, Endings(3)).deps, Runs.Run(INIT, Endings(4)).deps;
      && ID in before && before[ID].state == RESTARTING && before[ID].attempts == 2 && 0 in before[ID].armed
      && ID in after && after[ID].state == RESTARTING && after[ID].attempts == 0
  {
    hide Ending, Endings, Runs.Run;
    EndsLive();
    EndsForgiven();
    forall n: nat | n <= 4 ensures Runs.Run(INIT, Endings(n)) == Only(Ending(n)) { RunEnds(n); }
  }
}
