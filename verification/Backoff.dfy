/** The pause before a crashed application is started again. */
module Backoff {
  function Min(a: real, b: real): real {
    if a <= b then a else b
  }

  function Pow2(n: nat): real {
    if n == 0 then 1.0 else 2.0 * Pow2(n - 1)
  }

  /** Halves are rounded up, as JavaScript rounds them. */
  function Round(x: real): real {
    (x + 0.5).Floor as real
  }

  /** Doubles with every attempt after the first, up to the ceiling. */
  function Base(attempt: int, initialMs: real, maxMs: real): real {
    Min(maxMs, initialMs * Pow2(if attempt >= 1 then attempt - 1 else 0))
  }

  function Jittered(base: real, jitter: real): real {
    base * (0.85 + jitter * 0.3)
  }

  /** `jitter` stands for the random number, from 0 up to but not including 1. */
  function Delay(attempt: int, initialMs: real, maxMs: real, jitter: real): real {
    Min(maxMs, Round(Jittered(Base(attempt, initialMs, maxMs), jitter)))
  }

  lemma PowGrows(n: nat)
    ensures Pow2(n) >= 1.0
  {}

  lemma Monotone(b: real, jitter: real)
    requires b >= 0.0 && 0.0 <= jitter < 1.0
    ensures 0.85 * b <= Jittered(b, jitter) <= 1.15 * b
    ensures b > 0.0 ==> Jittered(b, jitter) < 1.15 * b
  {
    var f := 0.85 + jitter * 0.3;
    assert b * (f - 0.85) >= 0.0 && b * (1.15 - f) >= 0.0;
    assert b > 0.0 ==> b * (1.15 - f) > 0.0;
    assert b * (f - 0.85) == b * f - b * 0.85;
    assert b * (1.15 - f) == b * 1.15 - b * f;
  }

  lemma FloorBounds(x: real)
    ensures x.Floor as real <= x < x.Floor as real + 1.0
  {}

  lemma IntegersApart(m: int, n: int)
    ensures m as real < n as real + 1.0 ==> m <= n
    ensures m <= n ==> m as real <= n as real
  {}

  lemma RoundGrows(x: real, y: real)
    requires x <= y
    ensures Round(x) <= Round(y) && x - 0.5 < Round(x) <= x + 0.5
    ensures x + 1.0 <= y ==> Round(x) + 1.0 <= Round(y)
  {
    var m, n := (x + 0.5).Floor, (y + 0.5).Floor;
    FloorBounds(x + 0.5);
    FloorBounds(y + 0.5);
    IntegersApart(m, n);
    IntegersApart(m + 1, n);
  }

  /** The ceiling is hard, and the jitter moves a delay by 15 per cent at most (before rounding). */
  lemma DelayStaysClose(attempt: int, initialMs: real, maxMs: real, jitter: real)
    requires initialMs >= 0.0 && maxMs >= 0.0 && 0.0 <= jitter < 1.0
    ensures var b := Base(attempt, initialMs, maxMs);
      Min(maxMs, Round(0.85 * b)) <= Delay(attempt, initialMs, maxMs, jitter) <= Min(maxMs, Round(1.15 * b))
  {
    hide Base, Round, Jittered;
    var b := Base(attempt, initialMs, maxMs);
    BaseIsNotNegative(attempt, initialMs, maxMs);
    Monotone(b, jitter);
    RoundGrows(0.85 * b, Jittered(b, jitter));
    RoundGrows(Jittered(b, jitter), 1.15 * b);
  }

  /** The first pause is the initial one, each further one doubles it, and none is above the ceiling. */
  lemma BaseIsDoubled(attempt: int, initialMs: real, maxMs: real)
    requires initialMs >= 0.0 && maxMs >= 0.0
    ensures attempt <= 1 ==> Base(attempt, initialMs, maxMs) == Min(maxMs, initialMs)
    ensures attempt >= 1 ==> Base(attempt + 1, initialMs, maxMs) == Min(maxMs, 2.0 * Base(attempt, initialMs, maxMs))
  {
    if attempt >= 1 {
      PowGrows(attempt - 1);
      assert Pow2(attempt) == 2.0 * Pow2(attempt - 1);
      var x := initialMs * Pow2(attempt - 1);
      assert initialMs * (2.0 * Pow2(attempt - 1)) == 2.0 * x && x >= 0.0;
    }
  }

  lemma BaseDoubles(attempt: int, initialMs: real, maxMs: real)
    requires attempt >= 1 && initialMs >= 0.0 && 2.0 * Base(attempt, initialMs, maxMs) <= maxMs
    requires Base(attempt, initialMs, maxMs) > 0.0
    ensures Base(attempt + 1, initialMs, maxMs) == 2.0 * Base(attempt, initialMs, maxMs)
  {}

  /** Below the ceiling, from two milliseconds on, the next delay is longer whatever the two random numbers are. */
  lemma NextDelayIsLonger(attempt: int, initialMs: real, maxMs: real, jitter: real, next: real)
    requires attempt >= 1 && initialMs >= 0.0 && 0.0 <= jitter < 1.0 && 0.0 <= next < 1.0
    requires Base(attempt, initialMs, maxMs) >= 2.0 && 2.0 * Base(attempt, initialMs, maxMs) <= maxMs
    ensures Longer(attempt, initialMs, maxMs, jitter, next)
  {
    hide Base, Round, Jittered;
    var b := Base(attempt, initialMs, maxMs);
    BaseDoubles(attempt, initialMs, maxMs);
    Monotone(b, jitter);
    Monotone(2.0 * b, next);
    var x, y := Jittered(b, jitter), Jittered(2.0 * b, next);
    assert x + 1.0 <= y;
    RoundGrows(x, y);
  }

  /** The longest delay that the jitter can make of a base below the ceiling. */
  function Largest(b: real): int {
    -((-(1.15 * b + 0.5)).Floor) - 1
  }

  lemma LargestBounds(b: real)
    ensures Largest(b) as real < 1.15 * b + 0.5 <= Largest(b) as real + 1.0
  {
    FloorBounds(-(1.15 * b + 0.5));
  }

  lemma NoDelayIsLarger(b: real, jitter: real)
    requires b >= 0.0 && 0.0 <= jitter < 1.0
    ensures Round(Jittered(b, jitter)) <= Largest(b) as real
  {
    hide Jittered, Largest;
    Monotone(b, jitter);
    LargestBounds(b);
    FloorBounds(Jittered(b, jitter) + 0.5);
    IntegersApart((Jittered(b, jitter) + 0.5).Floor, Largest(b));
    if b == 0.0 { NoBase(jitter); }
  }

  lemma NoBase(jitter: real)
    ensures Jittered(0.0, jitter) == 0.0 && Largest(0.0) == 0
  {}

  /** The jitter that stretches a base to `x`. */
  lemma JitterFor(b: real, x: real) returns (jitter: real)
    requires b > 0.0 && 0.85 * b <= x < 1.15 * b
    ensures 0.0 <= jitter < 1.0 && Jittered(b, jitter) == x
  {
    var width := b * 0.3;
    jitter := (x - 0.85 * b) / width;
    Quotient(x - 0.85 * b, width);
    assert b * (0.85 + jitter * 0.3) == 0.85 * b + jitter * width;
  }

  lemma Quotient(y: real, w: real)
    requires 0.0 <= y < w
    ensures 0.0 <= y / w < 1.0 && (y / w) * w == y
  {}

  lemma LargestIsReached(b: real) returns (jitter: real)
    requires b >= 0.0
    ensures 0.0 <= jitter < 1.0 && Round(Jittered(b, jitter)) == Largest(b) as real
  {
    hide Jittered, Largest;
    if b == 0.0 {
      jitter := 0.0;
      NoBase(0.0);
    } else {
      LargestBounds(b);
      var x := if 0.85 * b <= Largest(b) as real - 0.5 then Largest(b) as real - 0.5 else 0.85 * b;
      jitter := JitterFor(b, x);
      NoDelayIsLarger(b, jitter);
      FloorBounds(x + 0.5);
      IntegersApart(Largest(b), (x + 0.5).Floor);
    }
  }

  lemma LeastIsReached(b: real)
    ensures Jittered(b, 0.0) == 0.85 * b
  {}

  /**
   * The exact condition, also for a ceiling that cuts the next base short: the next delay is longer whatever the two
   * random numbers are if and only if the longest delay of this base stays below the ceiling and below the shortest
   * delay of the next base.
   */
  lemma AlwaysLongerIff(attempt: int, initialMs: real, maxMs: real)
    requires attempt >= 1 && initialMs >= 0.0 && maxMs >= 0.0
    ensures var b, next := Base(attempt, initialMs, maxMs), Base(attempt + 1, initialMs, maxMs);
      AlwaysLonger(attempt, initialMs, maxMs) <==>
      Largest(b) as real < maxMs && Largest(b) as real < Round(0.85 * next)
  {
    hide Base, Round, Jittered, Largest;
    var b, next := Base(attempt, initialMs, maxMs), Base(attempt + 1, initialMs, maxMs);
    BaseIsNotNegative(attempt, initialMs, maxMs);
    BaseIsNotNegative(attempt + 1, initialMs, maxMs);
    if Largest(b) as real < maxMs && Largest(b) as real < Round(0.85 * next) {
      forall j: real, k: real | 0.0 <= j < 1.0 && 0.0 <= k < 1.0 ensures Longer(attempt, initialMs, maxMs, j, k) {
        NoDelayIsLarger(b, j);
        Monotone(next, k);
        RoundGrows(0.85 * next, Jittered(next, k));
      }
    } else {
      var j := LargestIsReached(b);
      LeastIsReached(next);
      assert !Longer(attempt, initialMs, maxMs, j, 0.0);
    }
  }

  /** For a base of whole milliseconds: the next delay is always longer exactly when the base is not zero. */
  lemma WholeMillisecondsGrow(attempt: int, initialMs: real, maxMs: real)
    requires attempt >= 1 && initialMs >= 0.0 && maxMs >= 0.0
    requires var b := Base(attempt, initialMs, maxMs); b == b.Floor as real && 2.0 * b <= maxMs
    ensures AlwaysLonger(attempt, initialMs, maxMs) <==> Base(attempt, initialMs, maxMs) >= 1.0
  {
    hide Base, Delay, Pow2;
    var b := Base(attempt, initialMs, maxMs);
    BaseIsNotNegative(attempt, initialMs, maxMs);
    if b < 1.0 {
      NoBaseNoDelay(attempt, initialMs, maxMs);
    } else {
      forall j: real, k: real | 0.0 <= j < 1.0 && 0.0 <= k < 1.0
        ensures Longer(attempt, initialMs, maxMs, j, k)
      {
        if b >= 2.0 { NextDelayIsLonger(attempt, initialMs, maxMs, j, k); } else { OneThenTwo(attempt, initialMs, maxMs, j, k); }
      }
    }
  }

  predicate Longer(attempt: int, initialMs: real, maxMs: real, jitter: real, next: real) {
    Delay(attempt, initialMs, maxMs, jitter) < Delay(attempt + 1, initialMs, maxMs, next)
  }

  ghost predicate AlwaysLonger(attempt: int, initialMs: real, maxMs: real) {
    forall j: real, k: real :: 0.0 <= j < 1.0 && 0.0 <= k < 1.0 ==> Longer(attempt, initialMs, maxMs, j, k)
  }

  lemma BaseIsNotNegative(attempt: int, initialMs: real, maxMs: real)
    requires initialMs >= 0.0 && maxMs >= 0.0
    ensures Base(attempt, initialMs, maxMs) >= 0.0
  {
    var n := if attempt >= 1 then attempt - 1 else 0;
    PowGrows(n);
    assert initialMs * Pow2(n) >= 0.0;
  }

  lemma NoBaseNoDelay(attempt: int, initialMs: real, maxMs: real)
    requires attempt >= 1 && initialMs >= 0.0 && maxMs >= 0.0 && Base(attempt, initialMs, maxMs) == 0.0
    ensures !AlwaysLonger(attempt, initialMs, maxMs)
  {
    var p := Pow2(attempt - 1);
    PowGrows(attempt - 1);
    assert Pow2(attempt) == 2.0 * p;
    if maxMs > 0.0 {
      assert initialMs * p == 0.0;
      assert initialMs * (2.0 * p) == 2.0 * (initialMs * p);
    } else {
      assert initialMs * (2.0 * p) >= 0.0;
    }
    assert Base(attempt + 1, initialMs, maxMs) == 0.0;
    assert Delay(attempt, initialMs, maxMs, 0.0) == 0.0 == Delay(attempt + 1, initialMs, maxMs, 0.0);
    assert !Longer(attempt, initialMs, maxMs, 0.0, 0.0);
  }

  lemma OneThenTwo(attempt: int, initialMs: real, maxMs: real, j: real, k: real)
    requires attempt >= 1 && initialMs >= 0.0 && Base(attempt, initialMs, maxMs) == 1.0 && maxMs >= 2.0
    requires 0.0 <= j < 1.0 && 0.0 <= k < 1.0
    ensures Delay(attempt, initialMs, maxMs, j) == 1.0 && Delay(attempt + 1, initialMs, maxMs, k) == 2.0
  {}
}
