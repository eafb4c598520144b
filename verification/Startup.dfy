/** Waiting for an application to come up: what the loop answers and how often it probes. */
module Startup {
  /** Everything outside the loop, by the number of the pass it happens in. */
  datatype World = World(
    /** the process is alive when the pass begins */
    alive: nat -> bool,
    /** the probe answers ok */
    answers: nat -> bool,
    /** how long the probe takes */
    latency: nat -> real,
    /** how much longer than asked the pause lasts */
    late: nat -> real,
    /** the start is aborted during the pause */
    aborted: nat -> bool)

  datatype Outcome = Healthy | Exited | TimedOut | Aborted

  ghost predicate Possible(w: World) {
    forall k :: w.latency(k) >= 0.0 && w.late(k) >= 0.0
  }

  /** The pause after probe number `k`, counting from 0: a quarter of a second, growing by half up to two seconds. */
  function Pause(k: nat): real {
    if k == 0 then 250.0 else if Pause(k - 1) * 1.5 <= 2000.0 then Pause(k - 1) * 1.5 else 2000.0
  }

  /** All pauses before probe number `k`. */
  function Pauses(k: nat): real {
    if k == 0 then 0.0 else Pauses(k - 1) + Pause(k - 1)
  }

  /** Passes before `n` found a live process, probed it in vain and were not aborted. */
  ghost predicate InVain(w: World, n: nat) {
    forall k :: 0 <= k < n ==> w.alive(k) && !w.answers(k) && !w.aborted(k)
  }

  lemma PauseBounds(k: nat)
    ensures 250.0 <= Pause(k) <= 2000.0
    ensures k >= 6 ==> Pause(k) == 2000.0
  {}

  lemma FirstPauses()
    ensures Pause(1) == 375.0 && Pause(2) == 562.5 && Pause(3) == 843.75 && Pause(4) == 1265.625
    ensures Pause(5) == 1898.4375 && Pause(6) == 2000.0 && Pauses(6) == 5195.3125
  {}

  /** From the seventh probe on the pauses add up two seconds at a time. */
  lemma {:induction false} PausesAddUp(k: nat)
    requires k >= 6
    ensures Pauses(k) == 5195.3125 + 2000.0 * (k - 6) as real
  {
    if k == 6 {
      FirstPauses();
    } else {
      PausesAddUp(k - 1);
      PauseBounds(k - 1);
    }
  }

  /** The time at which pass `k` begins, if the passes before it end in a pause. */
  function Clock(w: World, start: real, k: nat): real {
    if k == 0 then start else Clock(w, start, k - 1) + w.latency(k - 1) + Pause(k - 1) + w.late(k - 1)
  }

  lemma {:induction false} ClockRuns(w: World, start: real, k: nat)
    requires Possible(w)
    ensures Clock(w, start, k) >= start + Pauses(k)
  {
    if k > 0 { ClockRuns(w, start, k - 1); }
  }

  /**
   * `waitForHealthy`. `probes` counts the probes that were started, each of them before the deadline. The answer is ok
   * only if the last of them, made in this call, was ok and the process was alive just before it; all probes before
   * it failed.
   */
  method WaitForHealthy(w: World, start: real, startupTimeoutMs: real) returns (r: Outcome, probes: nat)
    requires Possible(w)
    ensures forall k :: 0 <= k < probes ==> Clock(w, start, k) < start + startupTimeoutMs
    ensures match r
      case Healthy => probes > 0 && InVain(w, probes - 1) && w.alive(probes - 1) && w.answers(probes - 1)
      case Exited => InVain(w, probes) && !w.alive(probes) && Clock(w, start, probes) < start + startupTimeoutMs
      case Aborted => probes > 0 && InVain(w, probes - 1) && w.alive(probes - 1) && !w.answers(probes - 1) && w.aborted(probes - 1)
      case TimedOut => InVain(w, probes) && Clock(w, start, probes) >= start + startupTimeoutMs
  {
    var deadline := start + startupTimeoutMs;
    var now := start;
    var delay := 250.0;
    probes := 0;
    while now < deadline
      invariant delay == Pause(probes) && now == Clock(w, start, probes) && InVain(w, probes)
      invariant forall k :: 0 <= k < probes ==> Clock(w, start, k) < deadline
      decreases deadline - now
    {
      if !w.alive(probes) { return Exited, probes; }
      PauseBounds(probes);
      now := now + w.latency(probes);
      probes := probes + 1;
      if w.answers(probes - 1) { return Healthy, probes; }
      if w.aborted(probes - 1) { return Aborted, probes; }
      now := now + delay + w.late(probes - 1);
      delay := if delay * 1.5 <= 2000.0 then delay * 1.5 else 2000.0;
    }
    return TimedOut, probes;
  }

  /**
   * How many probes a startup timeout allows at the most: the pauses before the last one fit into it. That is none, up
   * to seven, and one more for every further two seconds.
   */
  lemma ProbesAreFew(w: World, start: real, startupTimeoutMs: real, probes: nat)
    requires Possible(w) && forall k :: 0 <= k < probes ==> Clock(w, start, k) < start + startupTimeoutMs
    ensures probes > 0 ==> Pauses(probes - 1) < startupTimeoutMs
    ensures startupTimeoutMs <= 0.0 ==> probes == 0
    ensures probes <= 7 || 2000.0 * (probes - 7) as real < startupTimeoutMs - 5195.3125
  {
    if probes > 0 {
      assert Clock(w, start, probes - 1) < start + startupTimeoutMs;
      ClockRuns(w, start, probes - 1);
      PausesGrow(0, probes - 1);
    }
    if probes > 7 { PausesAddUp(probes - 1); }
  }

  lemma {:induction false} PausesGrow(j: nat, k: nat)
    requires j <= k
    ensures Pauses(j) <= Pauses(k)
    decreases k
  {
    if j < k {
      PauseBounds(k - 1);
      PausesGrow(j, k - 1);
    }
  }

  /** An application that lives but never answers, in a world without delays. */
  const HOPELESS: World := World(_ => true, _ => false, _ => 0.0, _ => 0.0, _ => false)

  lemma {:induction false} HopelessClock(start: real, k: nat)
    ensures Clock(HOPELESS, start, k) == start + Pauses(k)
  {
    if k > 0 { HopelessClock(start, k - 1); }
  }

  /** The bound is reached: an application that never answers is probed as often as the pauses allow, and no more. */
  method ProbesToTheEnd(start: real, startupTimeoutMs: real) returns (probes: nat)
    ensures forall n: nat :: Pauses(n) < startupTimeoutMs <==> n < probes
  {
    var r;
    r, probes := WaitForHealthy(HOPELESS, start, startupTimeoutMs);
    HopelessClock(start, probes);
    forall n: nat ensures Pauses(n) < startupTimeoutMs <==> n < probes {
      HopelessClock(start, n);
      if n >= probes { PausesGrow(probes, n); }
    }
  }
}
