/** The deployment state machine: the table of allowed transitions, its health gate and its progress measure. */
module DeploymentStates {

  datatype DeploymentState =
    | CREATED
    | DISCOVERING
    | RESOLVING
    | PREPARING
    | INSTALLING
    | BUILDING
    | ALLOCATING
    | STARTING
    | HEALTH_CHECKING
    | REGISTERING
    | EXPOSING
    | LIVE
    | RESTARTING
    | STOPPING
    | STOPPED
    | FAILED

  /** The states in the order of declaration; the first twelve are the pipeline. */
  const DEPLOYMENT_STATES: seq<DeploymentState> := [
    CREATED, DISCOVERING, RESOLVING, PREPARING, INSTALLING, BUILDING, ALLOCATING, STARTING,
    HEALTH_CHECKING, REGISTERING, EXPOSING, LIVE, RESTARTING, STOPPING, STOPPED, FAILED
  ]

  const PIPELINE_LENGTH: nat := 12

  /** Position of HEALTH_CHECKING in the pipeline. */
  const GATE: nat := 8

  predicate IsTerminal(s: DeploymentState) {
    s == STOPPED || s == FAILED
  }

  /** Position in the order of declaration. */
  function Index(s: DeploymentState): nat {
    match s
    case CREATED => 0
    case DISCOVERING => 1
    case RESOLVING => 2
    case PREPARING => 3
    case INSTALLING => 4
    case BUILDING => 5
    case ALLOCATING => 6
    case STARTING => 7
    case HEALTH_CHECKING => 8
    case REGISTERING => 9
    case EXPOSING => 10
    case LIVE => 11
    case RESTARTING => 12
    case STOPPING => 13
    case STOPPED => 14
    case FAILED => 15
  }

  lemma IndexOfState(i: nat)
    requires i < |DEPLOYMENT_STATES|
    ensures Index(DEPLOYMENT_STATES[i]) == i
  {}

  lemma IndexIsInjective(s: DeploymentState, t: DeploymentState)
    requires Index(s) == Index(t)
    ensures s == t
  {}

  /** A pipeline stage from which `to` is a later stage that does not jump the health gate. */
  predicate Forward(from: DeploymentState, to: DeploymentState) {
    Index(from) < Index(to) < PIPELINE_LENGTH && (Index(from) < GATE ==> Index(to) <= GATE)
  }

  /** What the table is meant to allow, stated without building it. */
  predicate CanTransition(from: DeploymentState, to: DeploymentState) {
    || Forward(from, to)
    || (!IsTerminal(from) && (to == FAILED || to == STOPPING))
    || (to == RESTARTING && (from == LIVE || IsTerminal(from)))
    || (from == RESTARTING && to == STARTING)
    || (to == STOPPED && (from == STOPPING || from == FAILED))
    || (to == CREATED && IsTerminal(from))
  }

  type Table = map<DeploymentState, set<DeploymentState>>

  predicate Has(t: Table, from: DeploymentState, to: DeploymentState) {
    from in t && to in t[from]
  }

  function Add(t: Table, from: DeploymentState, to: DeploymentState): (r: Table)
    requires from in t
    ensures r.Keys == t.Keys
    ensures forall f, x :: Has(r, f, x) <==> Has(t, f, x) || (f == from && x == to)
  {
    t[from := t[from] + {to}]
  }

  ghost predicate Total(t: Table) {
    forall s :: s in t
  }

  /** The table, filled pass by pass and addition by addition as the daemon fills it. */
  method BuildTransitions() returns (t: Table)
    ensures Total(t) && forall from, to :: Has(t, from, to) <==> CanTransition(from, to)
  {
    t := Empty();
    t := AddPipeline(t);
    t := AddExits(t);
    t := AddRestarts(t);
    t := AddRedeploys(t);
  }

  method AddRestarts(t0: Table) returns (t: Table)
    requires Total(t0)
    ensures Total(t)
    ensures forall from, to :: Has(t, from, to) <==>
      || Has(t0, from, to)
      || (to == RESTARTING && (from == LIVE || from == FAILED))
      || (from == RESTARTING && (to == STARTING || to == FAILED))
      || (from == STOPPING && to == STOPPED)
  {
    t := Add(t0, LIVE, RESTARTING);
    t := Add(t, FAILED, RESTARTING);
    t := Add(t, RESTARTING, STARTING);
    t := Add(t, RESTARTING, FAILED);
    t := Add(t, STOPPING, STOPPED);
  }

  /** What a deployment that has ended may become again. */
  method AddRedeploys(t0: Table) returns (t: Table)
    requires Total(t0)
    ensures Total(t)
    ensures forall from, to :: Has(t, from, to) <==>
      || Has(t0, from, to)
      || (IsTerminal(from) && to == CREATED)
      || (from == STOPPED && to == RESTARTING)
      || (from == FAILED && to == STOPPED)
  {
    t := Add(t0, STOPPED, CREATED);
    t := Add(t, FAILED, CREATED);
    t := Add(t, STOPPED, RESTARTING);
    t := Add(t, FAILED, STOPPED);
  }

  method Empty() returns (t: Table)
    ensures Total(t) && forall from, to :: !Has(t, from, to)
  {
    t := map[];
    for k := 0 to |DEPLOYMENT_STATES|
      invariant forall s :: Index(s) < k ==> s in t
      invariant forall from, to :: !Has(t, from, to)
    {
      var s := DEPLOYMENT_STATES[k];
      IndexOfState(k);
      forall x | Index(x) == k ensures x == s { IndexIsInjective(x, s); }
      ghost var before := t;
      t := t[s := {}];
      forall from, to ensures !Has(t, from, to) { assert !Has(before, from, to); }
    }
  }

  /** Forward progress: from every stage to the later ones the gate lets it reach. */
  method AddPipeline(t0: Table) returns (t: Table)
    requires Total(t0) && forall from, to :: !Has(t0, from, to)
    ensures Total(t) && forall from, to :: Has(t, from, to) <==> Forward(from, to)
  {
    t := t0;
    for i := 0 to PIPELINE_LENGTH
      invariant Total(t)
      invariant forall from, to :: Has(t, from, to) <==> Index(from) < i && Forward(from, to)
    {
      var s := DEPLOYMENT_STATES[i];
      IndexOfState(i);
      forall x | Index(x) == i ensures x == s { IndexIsInjective(x, s); }
      t := AddStage(t, s);
    }
  }

  method AddStage(t0: Table, s: DeploymentState) returns (t: Table)
    requires Total(t0) && Index(s) < PIPELINE_LENGTH
    ensures Total(t)
    ensures forall from, to :: Has(t, from, to) <==> Has(t0, from, to) || (from == s && Forward(s, to))
  {
    t := t0;
    var end := if Index(s) < GATE then GATE + 1 else PIPELINE_LENGTH;
    for j := Index(s) + 1 to end
      invariant Total(t)
      invariant forall from, to :: Has(t, from, to) <==> Has(t0, from, to) || (from == s && Index(s) < Index(to) < j)
    {
      var next := DEPLOYMENT_STATES[j];
      IndexOfState(j);
      forall x | Index(x) == j ensures x == next { IndexIsInjective(x, next); }
      t := Add(t, s, next);
    }
  }

  /** The exits to FAILED and STOPPING. */
  method AddExits(t0: Table) returns (t: Table)
    requires Total(t0)
    ensures Total(t)
    ensures forall from, to :: Has(t, from, to) <==>
      Has(t0, from, to) || (!IsTerminal(from) && (to == FAILED || to == STOPPING))
  {
    t := t0;
    for k := 0 to |DEPLOYMENT_STATES|
      invariant Total(t)
      invariant forall from, to :: Has(t, from, to) <==>
        Has(t0, from, to) || (Index(from) < k && !IsTerminal(from) && (to == FAILED || to == STOPPING))
    {
      var s := DEPLOYMENT_STATES[k];
      IndexOfState(k);
      forall x | Index(x) == k ensures x == s { IndexIsInjective(x, s); }
      if s != STOPPED && s != FAILED {
        t := Add(t, s, FAILED);
        t := Add(t, s, STOPPING);
      }
    }
  }

  /** A run of the state machine: consecutive states are allowed transitions. */
  ghost predicate Legal(path: seq<DeploymentState>) {
    forall i :: 0 < i < |path| ==> CanTransition(path[i - 1], path[i])
  }

  ghost predicate PastGate(s: DeploymentState) {
    s == REGISTERING || s == EXPOSING || s == LIVE
  }

  /**
   * The health gate: a legal run that ends past the gate and began before it checked health, and
   * everything after the last check is past the gate. No sequence of skips gets around it.
   */
  lemma {:induction false} GateOnEveryPath(path: seq<DeploymentState>) returns (k: nat)
    requires Legal(path) && |path| > 0
    requires !PastGate(path[0]) && PastGate(path[|path| - 1])
    ensures k < |path| - 1 && path[k] == HEALTH_CHECKING
    ensures forall i :: k < i < |path| ==> PastGate(path[i])
    decreases |path|
  {
    hide CanTransition, PastGate;
    var n := |path| - 1;
    assert n > 0 && CanTransition(path[n - 1], path[n]);
    OnlyTheCheckOpens(path[n - 1], path[n]);
    if path[n - 1] == HEALTH_CHECKING {
      k := n - 1;
    } else {
      k := GateOnEveryPath(path[..n]);
    }
  }

  lemma OnlyTheCheckOpens(from: DeploymentState, to: DeploymentState)
    requires CanTransition(from, to) && PastGate(to)
    ensures from == HEALTH_CHECKING || PastGate(from)
  {}

  /** Progress rank: grows on every transition that is not a fresh start or a repeated stop. */
  function Rank(s: DeploymentState): nat {
    match s
    case RESTARTING => 6
    case STOPPING => 12
    case FAILED => 13
    case STOPPED => 14
    case _ => Index(s)
  }

  predicate FreshStart(to: DeploymentState) {
    to == RESTARTING || to == CREATED
  }

  function FreshStarts(path: seq<DeploymentState>): nat {
    if |path| <= 1 then 0
    else FreshStarts(path[..|path| - 1]) + (if FreshStart(path[|path| - 1]) then 1 else 0)
  }

  /** Repeated STOPPING, the only self-loop of the table. */
  function Stutters(path: seq<DeploymentState>): nat {
    if |path| <= 1 then 0
    else Stutters(path[..|path| - 1]) + (if path[|path| - 2] == path[|path| - 1] then 1 else 0)
  }

  lemma OnlyStoppingLoops(s: DeploymentState)
    ensures CanTransition(s, s) <==> s == STOPPING
  {}

  lemma RankStep(from: DeploymentState, to: DeploymentState)
    requires CanTransition(from, to)
    ensures 1 + Rank(from) <= (if FreshStart(to) then 15 else 0) + (if from == to then 1 else 0) + Rank(to)
  {}

  /** What the last transition of a run adds to the counts. */
  lemma LastTransition(path: seq<DeploymentState>)
    requires Legal(path) && |path| > 1
    ensures var n := |path| - 1; var (before, from, to) := (path[..n], path[n - 1], path[n]);
      && Legal(before) && before[n - 1] == from && CanTransition(from, to)
      && FreshStarts(path) == FreshStarts(before) + (if FreshStart(to) then 1 else 0)
      && Stutters(path) == Stutters(before) + (if from == to then 1 else 0)
  {
    hide CanTransition, FreshStart;
  }

  /** Progress: a legal run is bounded by its restarts, so no other cycle exists in the table. */
  lemma {:induction false} RunsMakeProgress(path: seq<DeploymentState>)
    requires Legal(path) && |path| > 0
    ensures |path| - 1 <= 15 * FreshStarts(path) + Stutters(path) + Rank(path[|path| - 1])
    ensures |path| <= 15 * (FreshStarts(path) + 1) + Stutters(path)
  {
    hide *;
    var n := |path| - 1;
    RankIsSmall(path[n]);
    if n > 0 {
      LastTransition(path);
      RankStep(path[n - 1], path[n]);
      RunsMakeProgress(path[..n]);
    }
  }

  lemma RankIsSmall(s: DeploymentState)
    ensures Rank(s) <= 14
  {}
}
