/** The attempts of one call of the queue, whatever is released or called while it is under way. */
module PortQueueAttempts {
  import opened Wrappers
  import opened Ports
  import opened PortQueue
  import Runs = PortQueueRuns

  // ── single steps ──────────────────────────────────────────

  /** The state in which event number `k` happens. */
  ghost function Before(s: Sys, es: seq<Event>, k: nat): Sys
    requires k <= |es|
  {
    Run(s, es[..k])
  }

  predicate Steps(u: Sys, e: Event, i: nat) {
    e.Proceed? && e.task == i && Runnable(u, i)
  }

  /** The call reads the reservations and decides what to try. */
  predicate Begins(u: Sys, e: Event, i: nat) {
    Steps(u, e, i) && u.tasks[i].phase.Loading?
  }

  function PlanOf(u: Sys, i: nat): seq<int>
    requires i < |u.tasks|
  {
    Plan(Last(Load(u), Of(u, i)), WishOf(u.tasks[i].job), u.range)
  }

  /** At this moment port `q` belongs to somebody else or is out of range, or something listens on it. */
  predicate TurnsDown(u: Sys, e: Event, i: nat, q: int) {
    Steps(u, e, i)
    && match u.tasks[i].phase
       case Trying(rest) => rest != [] && rest[0] == q && !Grantable(u.reserved, Of(u, i), q)
       case Probing(rest) => rest != [] && rest[0] == q && !e.free
       case _ => false
  }

  /** At this moment port `q` is neither reserved for anybody else nor in use. */
  predicate FindsFree(u: Sys, e: Event, i: nat, q: int) {
    && Steps(u, e, i) && u.tasks[i].phase.Probing? && u.tasks[i].phase.rest != [] && u.tasks[i].phase.rest[0] == q
    && e.free && Grantable(u.reserved, Of(u, i), q)
  }

  // ── the attempts of a call ────────────────────────────────

  /** At event `b` the call began to try, and its first attempts were turned down one after the other, at these events. */
  ghost predicate Refused(s: Sys, es: seq<Event>, i: nat, b: nat, at: seq<nat>) {
    b < |es| && Begins(Before(s, es, b), es[b], i)
    && var u := Before(s, es, b);
       && !KeepsOwn(u.reserved, WishOf(u.tasks[i].job)) && |at| <= |PlanOf(u, i)|
       && (forall j :: 0 <= j < |at| ==>
             && b < at[j] < |es| && (j > 0 ==> at[j - 1] < at[j])
             && TurnsDown(Before(s, es, at[j]), es[at[j]], i, PlanOf(u, i)[j]))
  }

  /** And these are the attempts that are left. */
  ghost predicate Remains(s: Sys, es: seq<Event>, i: nat, b: nat, at: seq<nat>, rest: seq<int>) {
    Refused(s, es, i, b, at) && rest == PlanOf(Before(s, es, b), i)[|at|..]
  }

  /** The project held the port when the call began. */
  ghost predicate Kept(s: Sys, es: seq<Event>, i: nat, b: nat, p: int) {
    b < |es| && Begins(Before(s, es, b), es[b], i)
    && var (u, w) := (Before(s, es, b), WishOf(Before(s, es, b).tasks[i].job));
       Holds(u.reserved, w.project, p) && (w.preferred == None || w.preferred == Some(p))
  }

  /** It is the first attempt that was not turned down, and it was free at event `k`. */
  ghost predicate Won(s: Sys, es: seq<Event>, i: nat, b: nat, at: seq<nat>, k: nat, p: int) {
    && Refused(s, es, i, b, at) && |at| < |PlanOf(Before(s, es, b), i)| && PlanOf(Before(s, es, b), i)[|at|] == p
    && b < k < |es| && (at != [] ==> at[|at| - 1] < k) && FindsFree(Before(s, es, k), es[k], i, p)
  }

  ghost predicate Explained(s: Sys, es: seq<Event>, i: nat, p: int) {
    (exists b: nat :: Kept(s, es, i, b, p)) || (exists b: nat, at: seq<nat>, k: nat :: Won(s, es, i, b, at, k, p))
  }

  ghost predicate Traced(s: Sys, es: seq<Event>, i: nat)
    requires i < |Run(s, es).tasks|
  {
    match Run(s, es).tasks[i].phase
    case Waiting => true
    case Loading => true
    case Trying(rest) => exists b: nat, at: seq<nat> :: Remains(s, es, i, b, at, rest)
    case Probing(rest) => exists b: nat, at: seq<nat> :: Remains(s, es, i, b, at, rest)
    case Chosen(p) => Explained(s, es, i, p)
    case Saving(p) => Explained(s, es, i, p)
    case Settled(r) => if r.Ok? then Explained(s, es, i, r.value) else exists b: nat, at: seq<nat> :: Remains(s, es, i, b, at, [])
  }

  // ── history only grows ────────────────────────────────────

  lemma BeforeStays(s: Sys, es: seq<Event>, e: Event)
    ensures forall k: nat :: k <= |es| ==> Before(s, es + [e], k) == Before(s, es, k)
    ensures forall k: nat :: k < |es| ==> (es + [e])[k] == es[k]
    ensures Before(s, es + [e], |es|) == Run(s, es) && (es + [e])[|es|] == e
  {
    hide Run;
    assert es[..|es|] == es;
    forall k: nat | k <= |es| ensures Before(s, es + [e], k) == Before(s, es, k) { assert (es + [e])[..k] == es[..k]; }
  }

  lemma RefusedStays(s: Sys, es: seq<Event>, e: Event, i: nat, b: nat, at: seq<nat>)
    requires Refused(s, es, i, b, at)
    ensures Refused(s, es + [e], i, b, at) && Before(s, es + [e], b) == Before(s, es, b)
  {
    hide Before, Begins, TurnsDown, PlanOf, KeepsOwn, Run;
    BeforeStays(s, es, e);
  }

  lemma ExplainedStays(s: Sys, es: seq<Event>, e: Event, i: nat, p: int)
    requires Explained(s, es, i, p)
    ensures Explained(s, es + [e], i, p)
  {
    hide Before, Begins, FindsFree, PlanOf, Refused, Run;
    BeforeStays(s, es, e);
    if b: nat :| Kept(s, es, i, b, p) {
      assert Kept(s, es + [e], i, b, p);
    } else {
      var b: nat, at: seq<nat>, k: nat :| Won(s, es, i, b, at, k, p);
      RefusedStays(s, es, e, i, b, at);
      assert Won(s, es + [e], i, b, at, k, p);
    }
  }

  lemma {:induction false} RunAppends(s: Sys, es: seq<Event>, e: Event)
    ensures Run(s, es + [e]) == Step(Run(s, es), e)
    decreases |es|
  {
    hide Step;
    if es == [] {
      assert [] + [e] == [e] && [e][1..] == [];
    } else {
      assert (es + [e])[1..] == es[1..] + [e];
      RunAppends(Step(s, es[0]), es[1..], e);
    }
  }

  lemma TraceStays(s: Sys, es: seq<Event>, e: Event, i: nat)
    requires i < |Run(s, es).tasks| && i < |Run(s, es + [e]).tasks| && Traced(s, es, i)
    requires Run(s, es + [e]).tasks[i].phase == Run(s, es).tasks[i].phase
    ensures Traced(s, es + [e], i)
  {
    hide Run, Explained, Refused;
    match Run(s, es).tasks[i].phase
    case Trying(rest) => RemainsStays(s, es, e, i, rest);
    case Probing(rest) => RemainsStays(s, es, e, i, rest);
    case Chosen(p) => ExplainedStays(s, es, e, i, p);
    case Saving(p) => ExplainedStays(s, es, e, i, p);
    case Settled(r) => if r.Ok? { ExplainedStays(s, es, e, i, r.value); } else { RemainsStays(s, es, e, i, []); }
    case _ =>
  }

  lemma RemainsStays(s: Sys, es: seq<Event>, e: Event, i: nat, rest: seq<int>)
    requires exists b: nat, at: seq<nat> :: Remains(s, es, i, b, at, rest)
    ensures exists b: nat, at: seq<nat> :: Remains(s, es + [e], i, b, at, rest)
  {
    hide Run, Refused, PlanOf, Before;
    var b: nat, at: seq<nat> :| Remains(s, es, i, b, at, rest);
    RefusedStays(s, es, e, i, b, at);
    assert Remains(s, es + [e], i, b, at, rest);
  }

  /** One more attempt is turned down. */
  lemma OneMoreRefused(s: Sys, es: seq<Event>, e: Event, i: nat, rest: seq<int>)
    requires rest != [] && TurnsDown(Run(s, es), e, i, rest[0]) && exists b: nat, at: seq<nat> :: Remains(s, es, i, b, at, rest)
    ensures exists b: nat, at: seq<nat> :: Remains(s, es + [e], i, b, at, rest[1..])
  {
    hide Run, PlanOf, Before, TurnsDown, KeepsOwn;
    var b: nat, at: seq<nat> :| Remains(s, es, i, b, at, rest);
    BeforeStays(s, es, e);
    RefusedStays(s, es, e, i, b, at);
    var plan := PlanOf(Before(s, es, b), i);
    assert rest[0] == plan[|at|] && rest[1..] == plan[|at| + 1..];
    assert Remains(s, es + [e], i, b, at + [|es|], rest[1..]);
  }

  lemma OneFound(s: Sys, es: seq<Event>, e: Event, i: nat, rest: seq<int>)
    requires rest != [] && FindsFree(Run(s, es), e, i, rest[0]) && exists b: nat, at: seq<nat> :: Remains(s, es, i, b, at, rest)
    ensures Explained(s, es + [e], i, rest[0])
  {
    hide Run, PlanOf, Before, FindsFree;
    var b: nat, at: seq<nat> :| Remains(s, es, i, b, at, rest);
    BeforeStays(s, es, e);
    RefusedStays(s, es, e, i, b, at);
    assert rest[0] == PlanOf(Before(s, es, b), i)[|at|] by { hide Refused; }
    assert b < |es| && (at != [] ==> at[|at| - 1] < |es|);
    hide Refused;
    assert Won(s, es + [e], i, b, at, |es|, rest[0]);
  }

  lemma BeginsTraced(s: Sys, es: seq<Event>, e: Event, i: nat)
    requires Begins(Run(s, es), e, i)
    ensures i < |Run(s, es + [e]).tasks| && Traced(s, es + [e], i)
  {
    var u := Run(s, es);
    hide Run, Plan, Before;
    RunAppends(s, es, e);
    BeforeStays(s, es, e);
    if KeepsOwn(u.reserved, WishOf(u.tasks[i].job)) {
      hide KeepsOwn;
      assert Kept(s, es + [e], i, |es|, Run(s, es + [e]).tasks[i].phase.port);
    } else {
      hide KeepsOwn;
      assert Remains(s, es + [e], i, |es|, [], PlanOf(u, i));
    }
  }

  /** What becomes of a call in its own step while it makes its attempts. */
  lemma NextAttempt(u: Sys, e: Event, i: nat)
    requires Steps(u, e, i) && (u.tasks[i].phase.Trying? || u.tasks[i].phase.Probing?)
    ensures i < |Step(u, e).tasks|
    ensures var (ph, next) := (u.tasks[i].phase, Step(u, e).tasks[i].phase);
      if ph.Probing? then
        ph.rest != [] ==> if e.free && ph.rest[0] >= 0 then next == Chosen(ph.rest[0]) else next == Trying(ph.rest[1..])
      else if ph.rest == [] then next == Settled(Err(PORT_UNAVAILABLE))
      else next == if Grantable(u.reserved, Of(u, i), ph.rest[0]) then Probing(ph.rest) else Trying(ph.rest[1..])
  {
    hide Take, Grantable, AfterLoad, Load;
  }

  /** And before and after them, but for the step that reads the reservations. */
  lemma NextPhase(u: Sys, e: Event, i: nat)
    requires Steps(u, e, i) && !u.tasks[i].job.Adopt?
    requires u.tasks[i].phase.Waiting? || u.tasks[i].phase.Chosen? || u.tasks[i].phase.Saving?
    ensures i < |Step(u, e).tasks|
    ensures var (ph, next) := (u.tasks[i].phase, Step(u, e).tasks[i].phase);
      match ph
      case Waiting => next == Loading
      case Chosen(p) => next == Saving(p) || next == Settled(Ok(p))
      case Saving(p) => next == Settled(Ok(p))
  {
    hide Commit, Grantable, AfterLoad, Load;
  }

  lemma AttemptTraced(s: Sys, es: seq<Event>, e: Event, i: nat)
    requires Steps(Run(s, es), e, i) && (Run(s, es).tasks[i].phase.Trying? || Run(s, es).tasks[i].phase.Probing?)
    requires Inv(Run(s, es)) && Traced(s, es, i)
    ensures i < |Run(s, es + [e]).tasks| && Traced(s, es + [e], i)
  {
    var u := Run(s, es);
    hide Run, Step, Inv, Grantable, Explained, Remains;
    RunAppends(s, es, e);
    NextAttempt(u, e, i);
    var rest := u.tasks[i].phase.rest;
    if u.tasks[i].phase.Probing? { ProbesGrantable(u, i); }
    if rest != [] && TurnsDown(u, e, i, rest[0]) {
      OneMoreRefused(s, es, e, i, rest);
    } else if rest != [] && u.tasks[i].phase.Probing? {
      OneFound(s, es, e, i, rest);
    } else {
      RemainsStays(s, es, e, i, rest);
    }
  }

  /** One step of a call that has begun. */
  lemma GoesOnTraced(s: Sys, es: seq<Event>, e: Event, i: nat)
    requires Steps(Run(s, es), e, i) && !Run(s, es).tasks[i].phase.Loading? && !Run(s, es).tasks[i].job.Adopt?
    requires Inv(Run(s, es)) && Traced(s, es, i)
    ensures i < |Run(s, es + [e]).tasks| && Traced(s, es + [e], i)
  {
    var u := Run(s, es);
    if u.tasks[i].phase.Trying? || u.tasks[i].phase.Probing? {
      hide Traced, Inv, Run;
      AttemptTraced(s, es, e, i);
    } else {
      hide Run, Step, Inv, Explained, Remains;
      RunAppends(s, es, e);
      NextPhase(u, e, i);
      if !u.tasks[i].phase.Waiting? { ExplainedStays(s, es, e, i, u.tasks[i].phase.port); }
    }
  }

  lemma ProbesGrantable(u: Sys, i: nat)
    requires Inv(u) && i < |u.tasks| && u.tasks[i].phase.Probing?
    ensures var rest := u.tasks[i].phase.rest; rest != [] && rest[0] >= 0 && Grantable(u.reserved, Of(u, i), rest[0])
  {
    assert NeverTaken(u);
  }

  /** Every other step leaves the call where it is. */
  lemma StaysPut(u: Sys, e: Event, i: nat)
    requires i < |u.tasks| && !Steps(u, e, i)
    ensures i < |Step(u, e).tasks| && Step(u, e).tasks[i] == u.tasks[i]
  {
    hide Advance;
  }

  lemma {:induction false} AllTraced(saved: map<ProjectId, nat>, range: Range, es: seq<Event>, i: nat)
    requires i < |Run(Start(saved, range), es).tasks| && !Run(Start(saved, range), es).tasks[i].job.Adopt?
    ensures Traced(Start(saved, range), es, i)
  {
    var s := Start(saved, range);
    if es != [] {
      hide Traced, Run, Step, Start, Inv;
      var n := |es| - 1;
      var (before, e) := (es[..n], es[n]);
      assert es == before + [e];
      RunAppends(s, before, e);
      Runs.StartIsGood(saved, range);
      RunKeeps(s, before);
      var u := Run(s, before);
      if i >= |u.tasks| {
        NewIsTraced(s, before, e, i);
      } else {
        JobsStay(u, e, i);
        AllTraced(saved, range, before, i);
        if !Steps(u, e, i) {
          StaysPut(u, e, i);
          TraceStays(s, before, e, i);
        } else if u.tasks[i].phase.Loading? {
          BeginsTraced(s, before, e, i);
        } else {
          GoesOnTraced(s, before, e, i);
        }
      }
    }
  }

  lemma NewIsTraced(s: Sys, es: seq<Event>, e: Event, i: nat)
    requires |Run(s, es).tasks| <= i < |Run(s, es + [e]).tasks|
    ensures Traced(s, es + [e], i)
  {
    hide Run, Advance;
    RunAppends(s, es, e);
  }

  lemma JobsStay(u: Sys, e: Event, i: nat)
    requires i < |u.tasks|
    ensures i < |Step(u, e).tasks| && Step(u, e).tasks[i].job == u.tasks[i].job
  {}

  /**
   * Every answer of an `allocate` or a `peek`, in every run, with releases and other calls at any moment. The call keeps
   * a port that its project held when it began; or its answer is the first attempt of its plan that was neither reserved
   * for anybody else nor in use at the moment at which it was tried, every earlier attempt having been turned down at
   * its own moment, in order; or, for an error, every attempt of the plan was.
   */
  lemma EveryAnswerIsEarned(saved: map<ProjectId, nat>, range: Range, es: seq<Event>, i: nat)
    requires var t := Run(Start(saved, range), es);
      i < |t.tasks| && !t.tasks[i].job.Adopt? && t.tasks[i].phase.Settled?
    ensures var (s, r) := (Start(saved, range), Run(Start(saved, range), es).tasks[i].phase.result);
      if r.Ok? then
        || (exists b: nat :: Kept(s, es, i, b, r.value))
        || (exists b: nat, at: seq<nat>, k: nat :: Won(s, es, i, b, at, k, r.value))
      else exists b: nat, at: seq<nat> :: Refused(s, es, i, b, at) && |at| == |PlanOf(Before(s, es, b), i)|
  {
    var (s, r) := (Start(saved, range), Run(Start(saved, range), es).tasks[i].phase.result);
    AllTraced(saved, range, es, i);
    hide Run, Start, PlanOf, Before;
    if r.Err? {
      var b: nat, at: seq<nat> :| Remains(s, es, i, b, at, []);
      assert |PlanOf(Before(s, es, b), i)[|at|..]| == 0;
    }
  }
}
