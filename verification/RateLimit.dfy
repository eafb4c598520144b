/** The token bucket in front of the gateway: how much it lets through over any stretch of a run. */
module RateLimit {
  datatype Bucket = Bucket(tokens: real, updated: int)

  type Buckets = map<string, Bucket>

  /** Beyond this many clients the map is emptied. */
  const MAX_BUCKETS := 10_000

  datatype Limits = Limits(capacity: real, refillPerSec: real)

  /** One call: who asks, when, and for how much. */
  datatype Request = Request(key: string, now: int, cost: real)

  ghost predicate Sane(l: Limits) {
    l.capacity >= 0.0 && l.refillPerSec >= 0.0
  }

  function Min(a: real, b: real): real {
    if a <= b then a else b
  }

  /** What flows back in `ms` milliseconds. */
  function Refill(l: Limits, ms: int): real {
    ms as real / 1000.0 * l.refillPerSec
  }

  function Level(l: Limits, m: Buckets, key: string, now: int): real {
    if key in m then Min(l.capacity, m[key].tokens + Refill(l, now - m[key].updated)) else l.capacity
  }

  predicate Accepted(l: Limits, m: Buckets, r: Request) {
    Level(l, m, r.key, r.now) >= r.cost
  }

  function Charged(l: Limits, m: Buckets, r: Request): Buckets {
    m[r.key := Bucket(Level(l, m, r.key, r.now) - (if Accepted(l, m, r) then r.cost else 0.0), r.now)]
  }

  predicate Clears(l: Limits, m: Buckets, r: Request) {
    |Charged(l, m, r)| > MAX_BUCKETS
  }

  function After(l: Limits, m: Buckets, r: Request): Buckets {
    if Clears(l, m, r) then map[] else Charged(l, m, r)
  }

  lemma NoTimeNoRefill(l: Limits)
    ensures Refill(l, 0) == 0.0
  {}

  /** The object: `take` changes the map in place. */
  class RateLimiter {
    const limits: Limits
    var buckets: Buckets

    constructor (capacity: real, refillPerSec: real)
      ensures limits == Limits(capacity, refillPerSec) && buckets == map[]
    {
      limits := Limits(capacity, refillPerSec);
      buckets := map[];
    }

    method Take(key: string, now: int, cost: real) returns (ok: bool)
      modifies this
      ensures ok == Accepted(limits, old(buckets), Request(key, now, cost))
      ensures buckets == After(limits, old(buckets), Request(key, now, cost))
    {
      var b := if key in buckets then buckets[key] else Bucket(limits.capacity, now);
      var refill := (now - b.updated) as real / 1000.0 * limits.refillPerSec;
      assert refill == Refill(limits, now - b.updated);
      NoTimeNoRefill(limits);
      hide Refill;
      b := b.(tokens := Min(limits.capacity, b.tokens + refill));
      assert b.tokens == Level(limits, buckets, key, now);
      b := b.(updated := now);
      ok := b.tokens >= cost;
      if ok { b := b.(tokens := b.tokens - cost); }
      buckets := buckets[key := b];
      if |buckets| > MAX_BUCKETS { buckets := map[]; }
    }
  }

  // ── runs ──────────────────────────────────────────────────

  function Run(l: Limits, m: Buckets, rs: seq<Request>): Buckets
    decreases |rs|
  {
    if rs == [] then m else Run(l, After(l, m, rs[0]), rs[1..])
  }

  /** What the limiter let through for `key`. */
  function Spent(l: Limits, m: Buckets, rs: seq<Request>, key: string): real
    decreases |rs|
  {
    if rs == [] then 0.0
    else (if rs[0].key == key && Accepted(l, m, rs[0]) then rs[0].cost else 0.0) + Spent(l, After(l, m, rs[0]), rs[1..], key)
  }

  function ClearCount(l: Limits, m: Buckets, rs: seq<Request>): nat
    decreases |rs|
  {
    if rs == [] then 0 else (if Clears(l, m, rs[0]) then 1 else 0) + ClearCount(l, After(l, m, rs[0]), rs[1..])
  }

  /** Costs are not negative and the clock, at least `from` to begin with, does not go back. */
  predicate Timely(rs: seq<Request>, from: int, until: int)
    decreases |rs|
  {
    if rs == [] then from <= until else rs[0].cost >= 0.0 && from <= rs[0].now && Timely(rs[1..], rs[0].now, until)
  }

  /** Every bucket holds between nothing and the capacity and was written no later than `now`. */
  ghost predicate Inv(l: Limits, m: Buckets, now: int) {
    forall k :: k in m ==> 0.0 <= m[k].tokens <= l.capacity && m[k].updated <= now
  }

  lemma RefillGrows(l: Limits, a: int, b: int)
    requires Sane(l) && 0 <= a && 0 <= b
    ensures 0.0 <= Refill(l, a) <= Refill(l, a + b) == Refill(l, a) + Refill(l, b)
  {}

  lemma LevelBounds(l: Limits, m: Buckets, key: string, from: int, now: int)
    requires Sane(l) && Inv(l, m, from) && from <= now
    ensures 0.0 <= Level(l, m, key, from) <= Level(l, m, key, now) <= l.capacity
    ensures Level(l, m, key, now) <= Level(l, m, key, from) + Refill(l, now - from)
  {
    hide Refill;
    RefillGrows(l, 0, now - from);
    if key in m { RefillGrows(l, from - m[key].updated, now - from); }
  }

  lemma AfterKeeps(l: Limits, m: Buckets, r: Request, from: int)
    requires Sane(l) && Inv(l, m, from) && from <= r.now && r.cost >= 0.0
    ensures Inv(l, After(l, m, r), r.now)
  {
    LevelBounds(l, m, r.key, from, r.now);
  }

  /** Tokens stay within bounds in every run. */
  lemma {:induction false} TokensStayWithinBounds(l: Limits, m: Buckets, rs: seq<Request>, from: int, until: int)
    requires Sane(l) && Inv(l, m, from) && Timely(rs, from, until)
    ensures Inv(l, Run(l, m, rs), until)
    decreases |rs|
  {
    hide After;
    if rs != [] {
      AfterKeeps(l, m, rs[0], from);
      TokensStayWithinBounds(l, After(l, m, rs[0]), rs[1..], rs[0].now, until);
    }
  }

  /** One request: what is spent comes out of the level, apart from refill and clearing. */
  lemma OneRequest(l: Limits, m: Buckets, r: Request, key: string, from: int)
    requires Sane(l) && Inv(l, m, from) && from <= r.now && r.cost >= 0.0
    ensures (if r.key == key && Accepted(l, m, r) then r.cost else 0.0) + Level(l, After(l, m, r), key, r.now)
         <= Level(l, m, key, from) + Refill(l, r.now - from) + (if Clears(l, m, r) then l.capacity else 0.0)
  {
    hide Refill;
    LevelBounds(l, m, key, from, r.now);
    RefillGrows(l, 0, 0);
  }

  /** Spending is paid for out of the level at the start, the refill, and one capacity for each clearing. */
  lemma {:induction false} SpentIsPaidFor(l: Limits, m: Buckets, rs: seq<Request>, key: string, from: int, until: int)
    requires Sane(l) && Inv(l, m, from) && Timely(rs, from, until)
    ensures Spent(l, m, rs, key) + Level(l, Run(l, m, rs), key, until)
         <= Level(l, m, key, from) + Refill(l, until - from) + ClearCount(l, m, rs) as real * l.capacity
    decreases |rs|
  {
    hide Level, Refill, Clears, After, Accepted, Inv;
    if rs == [] {
      LevelBounds(l, m, key, from, until);
    } else {
      var r, rest := rs[0], rs[1..];
      AfterKeeps(l, m, r, from);
      TimelyEnds(rest, r.now, until);
      OneRequest(l, m, r, key, from);
      SpentIsPaidFor(l, After(l, m, r), rest, key, r.now, until);
      RefillGrows(l, r.now - from, until - r.now);
      var n := ClearCount(l, After(l, m, r), rest);
      assert (1 + n) as real * l.capacity == l.capacity + n as real * l.capacity;
    }
  }

  lemma {:induction false} TimelyEnds(rs: seq<Request>, from: int, until: int)
    requires Timely(rs, from, until)
    ensures from <= until
    decreases |rs|
  {
    if rs != [] { TimelyEnds(rs[1..], rs[0].now, until); }
  }

  /**
   * The promise of the bucket: in any stretch of a run one client gets at most a full bucket, another one for every
   * time the map was emptied, and the refill of the time that passed.
   */
  lemma RateIsLimited(l: Limits, m: Buckets, rs: seq<Request>, key: string, from: int, until: int)
    requires Sane(l) && Inv(l, m, from) && Timely(rs, from, until)
    ensures Spent(l, m, rs, key)
         <= l.capacity * (1.0 + ClearCount(l, m, rs) as real) + l.refillPerSec * (until - from) as real / 1000.0
  {
    hide Spent, Run, ClearCount, After;
    TimelyEnds(rs, from, until);
    SpentIsPaidFor(l, m, rs, key, from, until);
    LevelBounds(l, m, key, from, from);
    TokensStayWithinBounds(l, m, rs, from, until);
    LevelBounds(l, Run(l, m, rs), key, until, until);
    var n := ClearCount(l, m, rs) as real;
    assert l.capacity * (1.0 + n) == l.capacity + n * l.capacity;
    RefillDef(l, until - from);
  }

  lemma RefillDef(l: Limits, ms: int)
    ensures Refill(l, ms) == l.refillPerSec * ms as real / 1000.0
  {}

  // ── clients do not disturb each other ─────────────────────

  function Only(key: string, rs: seq<Request>): seq<Request> {
    if rs == [] then [] else (if rs[0].key == key then [rs[0]] else []) + Only(key, rs[1..])
  }

  /** The answers `key` gets, in order. */
  function Answers(l: Limits, m: Buckets, rs: seq<Request>, key: string): seq<bool>
    decreases |rs|
  {
    if rs == [] then []
    else (if rs[0].key == key then [Accepted(l, m, rs[0])] else []) + Answers(l, After(l, m, rs[0]), rs[1..], key)
  }

  ghost predicate SameFor(a: Buckets, b: Buckets, key: string) {
    (key in a <==> key in b) && (key in a ==> a[key] == b[key])
  }

  /** Between clearings a client is answered as if it were alone. */
  lemma {:induction false} OthersDoNotMatter(l: Limits, m: Buckets, alone: Buckets, rs: seq<Request>, key: string)
    requires SameFor(m, alone, key)
    requires ClearCount(l, m, rs) == 0 && ClearCount(l, alone, Only(key, rs)) == 0
    ensures Answers(l, m, rs, key) == Answers(l, alone, Only(key, rs), key)
    decreases |rs|
  {
    hide Level;
    if rs != [] {
      var r := rs[0];
      assert SameFor(m, alone, key) ==> Level(l, m, key, r.now) == Level(l, alone, key, r.now) by { SameLevel(l, m, alone, key, r.now); }
      if r.key == key {
        assert Only(key, rs) == [r] + Only(key, rs[1..]);
        assert Only(key, rs)[1..] == Only(key, rs[1..]);
        OthersDoNotMatter(l, After(l, m, r), After(l, alone, r), rs[1..], key);
      } else {
        assert Only(key, rs) == Only(key, rs[1..]);
        OthersDoNotMatter(l, After(l, m, r), alone, rs[1..], key);
      }
    }
  }

  lemma SameLevel(l: Limits, a: Buckets, b: Buckets, key: string, now: int)
    requires SameFor(a, b, key)
    ensures Level(l, a, key, now) == Level(l, b, key, now)
  {}

  // ── a client that keeps its pace is always served ─────────

  /** Each request of `key` costs at most what flowed back since its last one, `last`. */
  ghost predicate Paced(l: Limits, rs: seq<Request>, key: string, last: int)
    decreases |rs|
  {
    rs == [] ||
    (if rs[0].key != key then Paced(l, rs[1..], key, last)
     else rs[0].cost <= l.capacity && rs[0].cost <= Refill(l, rs[0].now - last) && Paced(l, rs[1..], key, rs[0].now))
  }

  /** Whatever the others do, and however often the map is emptied. */
  lemma {:induction false} PacedClientsAreServed(l: Limits, m: Buckets, rs: seq<Request>, key: string, last: int, from: int, until: int)
    requires Sane(l) && Inv(l, m, from) && last <= from && Timely(rs, from, until) && Paced(l, rs, key, last)
    requires key in m ==> m[key].updated <= last
    ensures forall i :: 0 <= i < |Answers(l, m, rs, key)| ==> Answers(l, m, rs, key)[i]
    decreases |rs|
  {
    hide Refill;
    if rs != [] {
      var r := rs[0];
      AfterKeeps(l, m, r, from);
      if r.key == key {
        if key in m { RefillGrows(l, r.now - last, last - m[key].updated); }
        assert Accepted(l, m, r);
        PacedClientsAreServed(l, After(l, m, r), rs[1..], key, r.now, r.now, until);
      } else {
        PacedClientsAreServed(l, After(l, m, r), rs[1..], key, last, r.now, until);
      }
    }
  }
}
