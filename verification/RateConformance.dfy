/** The token bucket is exact: what it accepts is all that the rate allows, and no more. */
module RateConformance {
  import opened RateLimit

  /** What was let through for `key` from request number `k` on. */
  function SpentSince(l: Limits, m: Buckets, rs: seq<Request>, k: nat, key: string): real
    requires k <= |rs|
  {
    Spent(l, Run(l, m, rs[..k]), rs[k..], key)
  }

  /** In the stretch from request number `k` until now, `cost` more would stay within one bucket and the refill. */
  predicate Fits(l: Limits, m: Buckets, rs: seq<Request>, k: nat, key: string, cost: real, now: int)
    requires k < |rs|
  {
    SpentSince(l, m, rs, k, key) + cost <= l.capacity + Refill(l, now - rs[k].now)
  }

  /** It fits into every stretch that ends now, and into what was there at the beginning. */
  ghost predicate Conforms(l: Limits, m: Buckets, rs: seq<Request>, key: string, cost: real, from: int, now: int) {
    && cost <= l.capacity
    && Spent(l, m, rs, key) + cost <= Level(l, m, key, from) + Refill(l, now - from)
    && forall k :: 0 <= k < |rs| ==> Fits(l, m, rs, k, key, cost, now)
  }

  lemma ShiftStretch(l: Limits, m: Buckets, rs: seq<Request>, k: nat, key: string)
    requires 0 < k <= |rs|
    ensures SpentSince(l, m, rs, k, key) == SpentSince(l, After(l, m, rs[0]), rs[1..], k - 1, key)
  {
    assert rs[..k][1..] == rs[1..][..k - 1] && rs[..k][0] == rs[0];
    assert rs[k..] == rs[1..][k - 1..];
  }

  lemma WholeStretch(l: Limits, m: Buckets, rs: seq<Request>, key: string)
    ensures SpentSince(l, m, rs, 0, key) == Spent(l, m, rs, key)
  {
    assert rs[..0] == [] && rs[0..] == rs;
  }

  /** Without clearing, one request takes from the bucket what it was granted and nothing else. */
  lemma OneRequestExactly(l: Limits, m: Buckets, r: Request, key: string, from: int)
    requires Sane(l) && Inv(l, m, from) && from <= r.now && r.cost >= 0.0 && !Clears(l, m, r)
    ensures Level(l, After(l, m, r), key, r.now) + (if r.key == key && Accepted(l, m, r) then r.cost else 0.0)
         == Min(l.capacity, Level(l, m, key, from) + Refill(l, r.now - from))
  {
    hide Refill;
    RefillGrows(l, 0, 0);
    LevelBounds(l, m, key, from, r.now);
    if key in m { RefillGrows(l, from - m[key].updated, r.now - from); }
    RefillGrows(l, 0, r.now - from);
    LevelGrows(l, m, key, from, r.now);
    if r.key == key { LevelAfter(l, m, r); }
  }

  lemma LevelGrows(l: Limits, m: Buckets, key: string, from: int, now: int)
    requires Sane(l) && Inv(l, m, from) && from <= now
    ensures Level(l, m, key, now) == Min(l.capacity, Level(l, m, key, from) + Refill(l, now - from))
  {
    hide Refill;
    RefillGrows(l, 0, now - from);
    if key in m { RefillGrows(l, from - m[key].updated, now - from); }
  }

  lemma LevelAfter(l: Limits, m: Buckets, r: Request)
    requires Sane(l) && !Clears(l, m, r)
    ensures Level(l, After(l, m, r), r.key, r.now) ==
      Min(l.capacity, Level(l, m, r.key, r.now) - (if Accepted(l, m, r) then r.cost else 0.0))
  {
    hide Refill, Level;
    NoTimeNoRefill(l);
    AfterHolds(l, m, r);
  }

  lemma AfterHolds(l: Limits, m: Buckets, r: Request)
    requires !Clears(l, m, r) && Refill(l, 0) == 0.0
    ensures Level(l, After(l, m, r), r.key, r.now) ==
      Min(l.capacity, Level(l, m, r.key, r.now) - (if Accepted(l, m, r) then r.cost else 0.0))
  {
    hide Refill;
  }

  /** The level at the end of a run covers a cost if and only if the cost conforms. */
  lemma {:induction false} CoveredIffConforms(l: Limits, m: Buckets, rs: seq<Request>, key: string, cost: real, from: int, now: int)
    requires Sane(l) && Inv(l, m, from) && Timely(rs, from, now) && ClearCount(l, m, rs) == 0
    ensures cost <= Level(l, Run(l, m, rs), key, now) <==> Conforms(l, m, rs, key, cost, from, now)
    decreases |rs|
  {
    hide Level, Refill, Clears, After, Accepted, Inv, SpentSince;
    if rs == [] {
      LevelGrows(l, m, key, from, now);
    } else {
      var (r, rest, m1) := (rs[0], rs[1..], After(l, m, rs[0]));
      AfterKeeps(l, m, r, from);
      TimelyEnds(rest, r.now, now);
      CoveredIffConforms(l, m1, rest, key, cost, r.now, now);
      OneRequestExactly(l, m, r, key, from);
      RefillGrows(l, r.now - from, now - r.now);
      WholeStretch(l, m, rs, key);
      forall k | 1 <= k < |rs| ensures Fits(l, m, rs, k, key, cost, now) <==> Fits(l, m1, rest, k - 1, key, cost, now) {
        ShiftStretch(l, m, rs, k, key);
        assert rest[k - 1] == rs[k];
      }
      assert forall j :: 0 <= j < |rest| ==> (Fits(l, m1, rest, j, key, cost, now) <==> Fits(l, m, rs, j + 1, key, cost, now));
      assert Fits(l, m, rs, 0, key, cost, now) <==> Spent(l, m, rs, key) + cost <= l.capacity + Refill(l, now - r.now);
    }
  }

  /**
   * Over every run of a new limiter without clearing: a request is accepted if and only if in every stretch that ends with
   * it, what the client was granted and what it asks for stay within one capacity and the refill of the stretch.
   */
  lemma AcceptedIffItFits(l: Limits, rs: seq<Request>, r: Request, from: int)
    requires Sane(l) && Timely(rs, from, r.now) && ClearCount(l, map[], rs) == 0
    ensures Accepted(l, Run(l, map[], rs), r) <==>
      r.cost <= l.capacity && forall k :: 0 <= k < |rs| ==> Fits(l, map[], rs, k, r.key, r.cost, r.now)
  {
    hide Refill, SpentSince, Fits;
    CoveredIffConforms(l, map[], rs, r.key, r.cost, from, r.now);
    if rs != [] && Fits(l, map[], rs, 0, r.key, r.cost, r.now) { FirstStretchCovers(l, rs, r, from); }
    if rs == [] { RefillGrows(l, 0, r.now - from); }
  }

  lemma FirstStretchCovers(l: Limits, rs: seq<Request>, r: Request, from: int)
    requires Sane(l) && Timely(rs, from, r.now) && rs != [] && Fits(l, map[], rs, 0, r.key, r.cost, r.now)
    ensures Spent(l, map[], rs, r.key) + r.cost <= Level(l, map[], r.key, from) + Refill(l, r.now - from)
  {
    hide Refill, SpentSince, Spent;
    WholeStretch(l, map[], rs, r.key);
    TimelyEnds(rs[1..], rs[0].now, r.now);
    RefillGrows(l, rs[0].now - from, r.now - rs[0].now);
  }

  /** What was granted since the bucket was full, and this request, fit into one bucket: it is accepted. */
  lemma FullBucketServes(l: Limits, m: Buckets, rs: seq<Request>, r: Request, from: int)
    requires Sane(l) && Inv(l, m, from) && Timely(rs, from, r.now) && ClearCount(l, m, rs) == 0
    requires Level(l, m, r.key, from) == l.capacity && r.cost >= 0.0
    requires Spent(l, m, rs, r.key) + r.cost <= l.capacity
    ensures Accepted(l, Run(l, m, rs), r)
  {
    hide Refill, Inv, Level, SpentSince, Spent;
    TimelyEnds(rs, from, r.now);
    RefillGrows(l, 0, r.now - from);
    forall k | 0 <= k < |rs| ensures Fits(l, m, rs, k, r.key, r.cost, r.now) { LaterStretchFits(l, m, rs, k, r, from); }
    NotNegative(l, m, rs, r.key, from, r.now);
    CoveredIffConforms(l, m, rs, r.key, r.cost, from, r.now);
  }

  lemma LaterStretchFits(l: Limits, m: Buckets, rs: seq<Request>, k: nat, r: Request, from: int)
    requires Sane(l) && Timely(rs, from, r.now) && k < |rs| && Spent(l, m, rs, r.key) + r.cost <= l.capacity
    ensures Fits(l, m, rs, k, r.key, r.cost, r.now)
  {
    hide Refill, SpentSince, Spent;
    SpentSinceIsLess(l, m, rs, k, r.key, from, r.now);
    RefillGrows(l, 0, r.now - rs[k].now);
  }

  lemma {:induction false} NotNegative(l: Limits, m: Buckets, rs: seq<Request>, key: string, from: int, until: int)
    requires Timely(rs, from, until)
    ensures Spent(l, m, rs, key) >= 0.0
    decreases |rs|
  {
    hide After, Accepted;
    if rs != [] { NotNegative(l, After(l, m, rs[0]), rs[1..], key, rs[0].now, until); }
  }

  lemma {:induction false} SpentSinceIsLess(l: Limits, m: Buckets, rs: seq<Request>, k: nat, key: string, from: int, until: int)
    requires Timely(rs, from, until) && k < |rs|
    ensures SpentSince(l, m, rs, k, key) <= Spent(l, m, rs, key) && rs[k].now <= until
    decreases |rs|
  {
    hide After, Accepted, SpentSince;
    if k == 0 {
      WholeStretch(l, m, rs, key);
      TimelyEnds(rs[1..], rs[0].now, until);
    } else {
      ShiftStretch(l, m, rs, k, key);
      SpentSinceIsLess(l, After(l, m, rs[0]), rs[1..], k - 1, key, rs[0].now, until);
    }
  }

  // ── a burst ───────────────────────────────────────────────

  function Total(rs: seq<Request>): real {
    if rs == [] then 0.0 else rs[0].cost + Total(rs[1..])
  }

  /** All of them from one client, at one moment. */
  predicate Burst(rs: seq<Request>, key: string, now: int) {
    forall i :: 0 <= i < |rs| ==> rs[i].key == key && rs[i].now == now && rs[i].cost >= 0.0
  }

  ghost predicate AllYes(answers: seq<bool>) {
    forall i :: 0 <= i < |answers| ==> answers[i]
  }

  lemma {:induction false} BurstAgainst(l: Limits, m: Buckets, rs: seq<Request>, key: string, now: int)
    requires Sane(l) && Inv(l, m, now) && Burst(rs, key, now) && ClearCount(l, m, rs) == 0
    ensures AllYes(Answers(l, m, rs, key)) <==> Total(rs) <= Level(l, m, key, now)
    decreases |rs|
  {
    hide Level, Refill, Clears, After, Inv;
    if rs == [] {
      LevelBounds(l, m, key, now, now);
    } else {
      var (r, rest) := (rs[0], rs[1..]);
      AfterKeeps(l, m, r, now);
      assert forall i :: 0 <= i < |rest| ==> rest[i] == rs[i + 1];
      BurstAgainst(l, After(l, m, r), rest, key, now);
      OneRequestExactly(l, m, r, key, now);
      NoTimeNoRefill(l);
      LevelBounds(l, m, key, now, now);
      TotalIsNotNegative(rest, key, now);
      AnswersSplit(l, m, rs, key);
    }
  }

  lemma AnswersSplit(l: Limits, m: Buckets, rs: seq<Request>, key: string)
    requires rs != [] && rs[0].key == key
    ensures AllYes(Answers(l, m, rs, key)) <==> Accepted(l, m, rs[0]) && AllYes(Answers(l, After(l, m, rs[0]), rs[1..], key))
  {
    hide After, Accepted;
    var (a, rest) := (Answers(l, m, rs, key), Answers(l, After(l, m, rs[0]), rs[1..], key));
    assert a == [Accepted(l, m, rs[0])] + rest && a[0] == Accepted(l, m, rs[0]);
    assert forall i :: 1 <= i < |a| ==> a[i] == rest[i - 1];
    assert forall i :: 0 <= i < |rest| ==> rest[i] == a[i + 1];
  }

  lemma {:induction false} TotalIsNotNegative(rs: seq<Request>, key: string, now: int)
    requires Burst(rs, key, now)
    ensures Total(rs) >= 0.0
  {
    if rs != [] {
      assert forall i :: 0 <= i < |rs[1..]| ==> rs[1..][i] == rs[i + 1];
      TotalIsNotNegative(rs[1..], key, now);
    }
  }

  /** From a full bucket a burst is served completely if and only if it costs no more than the capacity. */
  lemma BurstServedIff(l: Limits, m: Buckets, rs: seq<Request>, key: string, now: int)
    requires Sane(l) && Inv(l, m, now) && Burst(rs, key, now) && ClearCount(l, m, rs) == 0
    requires Level(l, m, key, now) == l.capacity
    ensures AllYes(Answers(l, m, rs, key)) <==> Total(rs) <= l.capacity
  {
    BurstAgainst(l, m, rs, key, now);
  }

  // ── how much is remembered ────────────────────────────────

  /** A client's bucket is only forgotten when there would be more than ten thousand, and then all are. */
  lemma ForgottenIff(l: Limits, m: Buckets, r: Request, key: string)
    requires key in m || key == r.key
    ensures key !in After(l, m, r) <==> |m.Keys + {r.key}| > 10_000
    ensures key !in After(l, m, r) ==> After(l, m, r) == map[]
  {
    hide Level, Accepted;
    assert Charged(l, m, r).Keys == m.Keys + {r.key};
    assert |Charged(l, m, r)| == |Charged(l, m, r).Keys|;
  }

  /** In every run at most ten thousand clients are remembered. */
  lemma {:induction false} MemoryIsBounded(l: Limits, m: Buckets, rs: seq<Request>)
    requires |m| <= 10_000
    ensures |Run(l, m, rs)| <= 10_000
    decreases |rs|
  {
    hide Charged;
    if rs != [] { MemoryIsBounded(l, After(l, m, rs[0]), rs[1..]); }
  }
}
