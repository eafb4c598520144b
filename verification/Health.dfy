/** Health with hysteresis: counters against the whole history of probe results. */
module Health {
  datatype Status = UNKNOWN | STARTING | HEALTHY | DEGRADED | UNHEALTHY | CRASHED | STOPPED

  /** One probe result, and whether it came within the grace period. */
  datatype Result = Result(ok: bool, early: bool)

  datatype Options = Options(failureThreshold: int, successThreshold: int, gracePeriodMs: int)

  datatype Change = Change(from: Status, to: Status)

  /** `changes` are the callbacks that were made. */
  datatype Monitor = Monitor(failures: nat, successes: nat, status: Status, changes: seq<Change>)

  function Moved(m: Monitor, to: Status): Monitor {
    if to == m.status then m else m.(status := to, changes := m.changes + [Change(m.status, to)])
  }

  /** A success heals at once unless there was a problem before. */
  predicate Easy(s: Status) {
    s == HEALTHY || s == UNKNOWN || s == STARTING
  }

  function Recorded(m: Monitor, o: Options, r: Result): Monitor {
    if r.ok then
      var n := m.(failures := 0, successes := m.successes + 1);
      if Easy(m.status) || n.successes >= o.successThreshold then Moved(n, HEALTHY) else n
    else if r.early then m.(successes := 0)
    else
      var n := m.(successes := 0, failures := m.failures + 1);
      Moved(n, if n.failures >= o.failureThreshold then UNHEALTHY else DEGRADED)
  }

  class HealthMonitor {
    const o: Options
    var failures: nat
    var successes: nat
    var startedAt: int
    var status: Status
    var changes: seq<Change>

    constructor (o: Options)
      ensures this.o == o && View() == New(UNKNOWN) && startedAt == 0
    {
      this.o := o;
      failures, successes, startedAt, status, changes := 0, 0, 0, UNKNOWN, [];
    }

    function View(): Monitor
      reads this
    {
      Monitor(failures, successes, status, changes)
    }

    method Set(to: Status)
      modifies `status, `changes
      ensures View() == Moved(old(View()), to)
    {
      if to == status { return; }
      var from := status;
      status := to;
      changes := changes + [Change(from, to)];
    }

    method Record(ok: bool, now: int)
      modifies `failures, `successes, `status, `changes
      ensures View() == Recorded(old(View()), o, Result(ok, now - startedAt < o.gracePeriodMs))
    {
      if ok {
        failures := 0;
        successes := successes + 1;
        if status == HEALTHY || status == UNKNOWN || status == STARTING || successes >= o.successThreshold { Set(HEALTHY); }
        return;
      }
      successes := 0;
      if now - startedAt < o.gracePeriodMs { return; }
      failures := failures + 1;
      Set(if failures >= o.failureThreshold then UNHEALTHY else DEGRADED);
    }

    /** `start` begins a new grace period and forgets nothing. */
    method Start(now: int)
      modifies `startedAt
      ensures startedAt == now
    {
      startedAt := now;
    }
  }

  // ── the history ───────────────────────────────────────────

  function New(s: Status): Monitor {
    Monitor(0, 0, s, [])
  }

  function After(m: Monitor, o: Options, h: seq<Result>): Monitor
    decreases |h|
  {
    if h == [] then m else Recorded(After(m, o, h[..|h| - 1]), o, h[|h| - 1])
  }

  predicate Counted(r: Result) {
    !r.ok && !r.early
  }

  function CountedIn(h: seq<Result>): nat {
    if h == [] then 0 else CountedIn(h[..|h| - 1]) + (if Counted(h[|h| - 1]) then 1 else 0)
  }

  /** `n` failures were counted after the last success, which is result number `k - 1`. */
  ghost predicate FailuresSince(h: seq<Result>, k: nat, n: nat) {
    && k <= |h| && (k == 0 || h[k - 1].ok)
    && (forall i :: k <= i < |h| ==> !h[i].ok)
    && n == CountedIn(h[k..])
  }

  /** `n` successes in a row, the first of them number `j`. */
  predicate Row(h: seq<Result>, j: int, n: nat) {
    0 <= j <= |h| - n && forall i :: j <= i < j + n ==> h[i].ok
  }

  /** The last `n` results are successes, and no more. */
  ghost predicate Streak(h: seq<Result>, n: nat) {
    Row(h, |h| - n, n) && (n == |h| || !h[|h| - n - 1].ok)
  }

  /** How many successes in a row heal. */
  function Needed(o: Options): nat {
    if o.successThreshold > 1 then o.successThreshold else 1
  }

  /** Somewhere from `from` on there were enough successes in a row. */
  ghost predicate Recovered(h: seq<Result>, from: nat, o: Options) {
    exists j :: from <= j && Row(h, j, Needed(o))
  }

  ghost predicate LastCounted(h: seq<Result>, f: nat) {
    f < |h| && Counted(h[f]) && forall i :: f < i < |h| ==> !Counted(h[i])
  }

  ghost predicate NoneCounted(h: seq<Result>) {
    forall i :: 0 <= i < |h| ==> !Counted(h[i])
  }

  /** What a counted failure, the last result of `h`, makes of the application. */
  ghost predicate Verdict(h: seq<Result>, o: Options, s: Status) {
    exists k: nat, n: nat :: FailuresSince(h, k, n) && s == if n >= o.failureThreshold then UNHEALTHY else DEGRADED
  }

  /**
   * The status that a history calls for. After the last counted failure the application is healthy once enough
   * successes came in a row; until then the failures counted since the success before decide. Without a counted
   * failure one success heals, unless the monitor was set to a bad status to begin with.
   */
  ghost predicate StatusFits(h: seq<Result>, first: Status, o: Options, s: Status) {
    && (forall f: nat :: LastCounted(h, f) ==> if Recovered(h, f + 1, o) then s == HEALTHY else Verdict(h[..f + 1], o, s))
    && (NoneCounted(h) ==>
          if (if first == HEALTHY || first == UNKNOWN || first == STARTING then exists i :: 0 <= i < |h| && h[i].ok else Recovered(h, 0, o)) then s == HEALTHY else s == first)
  }

  ghost predicate Refines(m: Monitor, h: seq<Result>, first: Status, o: Options) {
    && (exists k: nat :: FailuresSince(h, k, m.failures))
    && Streak(h, m.successes)
    && StatusFits(h, first, o, m.status)
  }

  lemma {:induction false} CountersRefineHistory(h: seq<Result>, first: Status, o: Options)
    ensures Refines(After(New(first), o, h), h, first, o)
    decreases |h|
  {
    hide Refines, Recorded;
    if h == [] {
      NothingYet(first, o);
    } else {
      var init := h[..|h| - 1];
      assert h == init + [h[|h| - 1]];
      CountersRefineHistory(init, first, o);
      RecordRefines(After(New(first), o, init), init, h[|h| - 1], first, o);
    }
  }

  lemma NothingYet(first: Status, o: Options)
    ensures Refines(New(first), [], first, o)
  {
    assert FailuresSince([], 0, 0);
  }

  lemma FailuresGrow(h: seq<Result>, k: nat, n: nat, r: Result)
    requires FailuresSince(h, k, n) && !r.ok
    ensures FailuresSince(h + [r], k, if r.early then n else n + 1)
  {
    var t := h[k..] + [r];
    assert (h + [r])[k..] == t && t[..|t| - 1] == h[k..];
  }

  lemma FailuresReset(h: seq<Result>, r: Result)
    requires r.ok
    ensures FailuresSince(h + [r], |h| + 1, 0)
  {}

  lemma StreakGrows(h: seq<Result>, n: nat, r: Result)
    requires Streak(h, n)
    ensures Streak(h + [r], if r.ok then n + 1 else 0)
  {}

  /** Enough successes in a row: already before, or just now. */
  lemma RecoveredGrows(h: seq<Result>, from: nat, o: Options, r: Result, n: nat)
    requires from <= |h| && Streak(h + [r], n) && (from == 0 || !h[from - 1].ok)
    ensures Recovered(h + [r], from, o) <==> Recovered(h, from, o) || n >= Needed(o)
  {
    var t, d := h + [r], Needed(o);
    assert forall i :: 0 <= i < |h| ==> t[i] == h[i];
    assert n < |t| ==> !t[|t| - n - 1].ok;
    if n >= d { assert Row(t, |t| - d, d); }
    if j :| from <= j && Row(h, j, d) { assert Row(t, j, d); }
    if j :| from <= j && Row(t, j, d) {
      if j < |t| - d { assert Row(h, j, d); }
    }
  }

  lemma RecordRefines(m: Monitor, h: seq<Result>, r: Result, first: Status, o: Options)
    requires Refines(m, h, first, o)
    ensures Refines(Recorded(m, o, r), h + [r], first, o)
  {
    hide StatusFits, Streak, FailuresSince;
    var k: nat :| FailuresSince(h, k, m.failures);
    if r.ok { FailuresReset(h, r); } else { FailuresGrow(h, k, m.failures, r); }
    StreakGrows(h, m.successes, r);
    if Counted(r) { CountedFits(m, h, k, r, first, o); } else { UncountedFits(m, h, r, first, o); }
  }

  lemma CountedFits(m: Monitor, h: seq<Result>, k: nat, r: Result, first: Status, o: Options)
    requires FailuresSince(h, k, m.failures) && Counted(r)
    ensures StatusFits(h + [r], first, o, Recorded(m, o, r).status)
  {
    hide FailuresSince;
    var t := h + [r];
    FailuresGrow(h, k, m.failures, r);
    assert t[..|h| + 1] == t;
    assert Counted(t[|h|]);
    assert Verdict(t, o, Recorded(m, o, r).status);
  }

  lemma UncountedFits(m: Monitor, h: seq<Result>, r: Result, first: Status, o: Options)
    requires StatusFits(h, first, o, m.status) && Streak(h, m.successes) && !Counted(r)
    ensures StatusFits(h + [r], first, o, Recorded(m, o, r).status)
  {
    hide Recovered, Verdict, Streak;
    var t, n := h + [r], if r.ok then m.successes + 1 else 0;
    StreakGrows(h, m.successes, r);
    assert t[|h|] == r && forall i :: 0 <= i < |h| ==> t[i] == h[i];
    forall f: nat | LastCounted(t, f)
      ensures if Recovered(t, f + 1, o) then Recorded(m, o, r).status == HEALTHY else Verdict(t[..f + 1], o, Recorded(m, o, r).status)
    {
      assert LastCounted(h, f);
      assert t[..f + 1] == h[..f + 1];
      RecoveredGrows(h, f + 1, o, r, n);
      VerdictIsBad(h[..f + 1], o, m.status);
    }
    if NoneCounted(t) {
      assert NoneCounted(h);
      RecoveredGrows(h, 0, o, r, n);
    }
  }

  lemma VerdictIsBad(h: seq<Result>, o: Options, s: Status)
    ensures Verdict(h, o, s) ==> s == DEGRADED || s == UNHEALTHY
  {}

  // ── what follows ──────────────────────────────────────────

  /** No flapping: from a counted failure on, the status is bad until enough successes came in a row. */
  lemma NoFlapping(h: seq<Result>, f: nat, first: Status, o: Options)
    requires LastCounted(h, f) && !Recovered(h, f + 1, o)
    ensures var s := After(New(first), o, h).status; (s == DEGRADED || s == UNHEALTHY) && Verdict(h[..f + 1], o, s)
  {
    CountersRefineHistory(h, first, o);
  }

  // ── the callbacks ─────────────────────────────────────────

  /** Each callback starts where the one before it ended, none is a repeat, and the last one ends at the status. */
  ghost predicate Chain(m: Monitor, first: Status) {
    && (forall i :: 0 <= i < |m.changes| ==> m.changes[i].from != m.changes[i].to)
    && (forall i :: 0 < i < |m.changes| ==> m.changes[i].from == m.changes[i - 1].to)
    && (if m.changes == [] then m.status == first else m.changes[0].from == first && m.changes[|m.changes| - 1].to == m.status)
  }

  lemma SetKeepsChain(m: Monitor, to: Status, first: Status)
    requires Chain(m, first)
    ensures Chain(Moved(m, to), first) && Moved(m, to).status == to
  {}

  datatype Event = Probe(result: Result) | Assign(to: Status)

  function Run(m: Monitor, o: Options, es: seq<Event>): Monitor
    decreases |es|
  {
    if es == [] then m
    else Run(match es[0] case Probe(r) => Recorded(m, o, r) case Assign(to) => Moved(m, to), o, es[1..])
  }

  lemma {:induction false} CallbacksFormAChain(m: Monitor, o: Options, es: seq<Event>, first: Status)
    requires Chain(m, first)
    ensures Chain(Run(m, o, es), first)
    decreases |es|
  {
    hide Chain, Moved;
    if es != [] {
      match es[0]
      case Probe(r) =>
        var n := if r.ok then m.(failures := 0, successes := m.successes + 1)
                 else m.(successes := 0, failures := if r.early then m.failures else m.failures + 1);
        SameChain(m, n, first);
        SetKeepsChain(n, Recorded(m, o, r).status, first);
        RecordIsSet(m, o, r);
        CallbacksFormAChain(Recorded(m, o, r), o, es[1..], first);
      case Assign(to) =>
        SetKeepsChain(m, to, first);
        CallbacksFormAChain(Moved(m, to), o, es[1..], first);
    }
  }

  lemma SameChain(m: Monitor, n: Monitor, first: Status)
    requires m.status == n.status && m.changes == n.changes
    ensures Chain(m, first) <==> Chain(n, first)
  {}

  lemma RecordIsSet(m: Monitor, o: Options, r: Result)
    ensures Recorded(m, o, r) ==
      Moved(if r.ok then m.(failures := 0, successes := m.successes + 1)
          else m.(successes := 0, failures := if r.early then m.failures else m.failures + 1), Recorded(m, o, r).status)
  {}
}
