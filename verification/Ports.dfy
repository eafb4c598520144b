/** Choosing a port: what a project may be given, and which of several free ports it gets. */
module Ports {
  import opened Wrappers

  /** Project ids are never empty, so a holder is always a truthy value. */
  type ProjectId = string

  type Reservations = map<nat, ProjectId>

  /** Ports commonly used by other tools, skipped when scanning. */
  const AVOID: set<int> := {3306, 5432, 5672, 6379, 8888, 9000, 9090, 9200, 9229, 9876, 7777, 27017}

  datatype Range = Range(lo: int, hi: int)

  /** What a project asks for. */
  datatype Wish = Wish(project: ProjectId, preferred: Option<int>, strict: bool)

  datatype PortError = PORT_UNAVAILABLE

  // ── reservations ──────────────────────────────────────────

  /** No project holds two ports. */
  ghost predicate OnePort(r: Reservations) {
    forall p, q :: p in r && q in r && r[p] == r[q] ==> p == q
  }

  ghost predicate Holds(r: Reservations, project: ProjectId, p: int) {
    p in r && r[p] == project
  }

  function Without(r: Reservations, project: ProjectId): Reservations {
    map p | p in r && r[p] != project :: r[p]
  }

  /** `commit`: the project gives up what it holds and takes `port`. */
  function Commit(r: Reservations, project: ProjectId, port: nat): Reservations {
    Without(r, project)[port := project]
  }

  /** After a commit the project holds exactly `port`; others lose something only if they held that very port. */
  lemma CommitHolds(r: Reservations, project: ProjectId, port: nat)
    ensures OnePort(r) ==> OnePort(Commit(r, project, port))
    ensures forall p :: Holds(Commit(r, project, port), project, p) <==> p == port
    ensures forall p, other :: other != project ==>
      (Holds(Commit(r, project, port), other, p) <==> Holds(r, other, p) && p != port)
  {}

  // ── candidates ────────────────────────────────────────────

  /** Neither out of range nor reserved for another project; the probe decides the rest. */
  predicate Grantable(r: Reservations, project: ProjectId, p: int) {
    1 <= p <= 65535 && (p in r ==> r[p] == project)
  }

  predicate Acceptable(r: Reservations, project: ProjectId, p: int, probe: int -> bool) {
    Grantable(r, project, p) && probe(p)
  }

  function Repeat(p: int, n: nat): seq<int> {
    if n == 0 then [] else [p] + Repeat(p, n - 1)
  }

  /** Five tries for the port the project had before, one for any other. */
  function Grace(last: Option<int>, p: int): seq<int> {
    Repeat(p, if last == Some(p) then 5 else 1)
  }

  function Scan(lo: int, hi: int): seq<int>
    decreases hi - lo
  {
    if lo > hi then [] else (if lo in AVOID then [] else [lo]) + Scan(lo + 1, hi)
  }

  function Min(a: int, b: int): int {
    if a <= b then a else b
  }

  /** Every attempt `choose` makes, in order, when the project cannot simply keep its port. */
  function Plan(last: Option<int>, w: Wish, range: Range): seq<int> {
    var first := if w.preferred.Some? then Grace(last, w.preferred.value) else [];
    if w.preferred.Some? && w.strict then first
    else
      var start := if w.preferred.Some? then w.preferred.value else range.lo;
      first
      + (if last.Some? && last != w.preferred then Grace(last, last.value) else [])
      + Scan(start + 1, Min(start + 100, range.hi))
      + Scan(range.lo, range.hi)
  }

  function FirstAcceptable(plan: seq<int>, r: Reservations, project: ProjectId, probe: int -> bool): Result<int, PortError> {
    if plan == [] then Err(PORT_UNAVAILABLE)
    else if Acceptable(r, project, plan[0], probe) then Ok(plan[0])
    else FirstAcceptable(plan[1..], r, project, probe)
  }

  // ── what the choice promises ──────────────────────────────

  ghost predicate KeepsOwn(r: Reservations, w: Wish) {
    exists p :: Holds(r, w.project, p) && (w.preferred == None || w.preferred == Some(p))
  }

  /** A port the scans may give out. */
  predicate Open(r: Reservations, project: ProjectId, p: int, probe: int -> bool) {
    p !in AVOID && Acceptable(r, project, p, probe)
  }

  ghost predicate LeastOpen(r: Reservations, project: ProjectId, lo: int, hi: int, probe: int -> bool, p: int) {
    lo <= p <= hi && Open(r, project, p, probe) && forall q :: lo <= q < p ==> !Open(r, project, q, probe)
  }

  ghost predicate NoneOpen(r: Reservations, project: ProjectId, lo: int, hi: int, probe: int -> bool) {
    forall q :: lo <= q <= hi ==> !Open(r, project, q, probe)
  }

  /**
   * The documented order of preference: the port the project holds, the preferred one, nothing else when strict, the
   * sticky one, the least open port of the next hundred, the least open port of the range, and otherwise an error.
   */
  ghost predicate Choice(r: Reservations, last: Option<int>, w: Wish, range: Range, probe: int -> bool, c: Result<int, PortError>) {
    var start := if w.preferred.Some? then w.preferred.value else range.lo;
    var next := Min(start + 100, range.hi);
    if KeepsOwn(r, w) then
      c.Ok? && Holds(r, w.project, c.value)
    else if w.preferred.Some? && Acceptable(r, w.project, w.preferred.value, probe) then
      c == Ok(w.preferred.value)
    else if w.preferred.Some? && w.strict then
      c == Err(PORT_UNAVAILABLE)
    else if last.Some? && Acceptable(r, w.project, last.value, probe) then
      c == Ok(last.value)
    else if !NoneOpen(r, w.project, start + 1, next, probe) then
      c.Ok? && LeastOpen(r, w.project, start + 1, next, probe, c.value)
    else if !NoneOpen(r, w.project, range.lo, range.hi, probe) then
      c.Ok? && LeastOpen(r, w.project, range.lo, range.hi, probe, c.value)
    else
      c == Err(PORT_UNAVAILABLE)
  }

  /** The specification leaves no freedom. */
  lemma ChoiceIsUnique(r: Reservations, last: Option<int>, w: Wish, range: Range, probe: int -> bool,
                       a: Result<int, PortError>, b: Result<int, PortError>)
    requires OnePort(r) && Choice(r, last, w, range, probe, a) && Choice(r, last, w, range, probe, b)
    ensures a == b
  {}

  /** Failure means that there was no candidate at all; strict mode gives the preferred port or fails. */
  lemma FailureIsHonest(r: Reservations, last: Option<int>, w: Wish, range: Range, probe: int -> bool, c: Result<int, PortError>)
    requires OnePort(r) && Choice(r, last, w, range, probe, c)
    ensures w.preferred.Some? && w.strict && c.Ok? ==> c.value == w.preferred.value
    ensures c.Err? && !(w.preferred.Some? && w.strict) ==> NoneOpen(r, w.project, range.lo, range.hi, probe)
    ensures var start := if w.preferred.Some? then w.preferred.value else range.lo;
      c.Err? && !(w.preferred.Some? && w.strict) ==>
        && (last.Some? ==> !Acceptable(r, w.project, last.value, probe))
        && NoneOpen(r, w.project, start + 1, Min(start + 100, range.hi), probe)
    ensures c.Err? && w.preferred.Some? ==> !Acceptable(r, w.project, w.preferred.value, probe)
    ensures c.Err? && !(w.preferred.Some? && w.strict) ==>
      forall q :: range.lo <= q <= range.hi && 1 <= q <= 65535 && q !in AVOID && (q in r ==> r[q] == w.project) ==> !probe(q)
    ensures c.Ok? ==> (c.value in r && r[c.value] == w.project) || (1 <= c.value <= 65535 && c.value !in r && probe(c.value))
  {
    forall q | range.lo <= q <= range.hi && 1 <= q <= 65535 && q !in AVOID && (q in r ==> r[q] == w.project)
      ensures c.Err? && !(w.preferred.Some? && w.strict) ==> !probe(q)
    {
      assert Open(r, w.project, q, probe) <==> probe(q);
    }
  }

  // ── the plan implements the choice ────────────────────────

  lemma {:induction false} FirstOfConcat(a: seq<int>, b: seq<int>, r: Reservations, project: ProjectId, probe: int -> bool)
    ensures FirstAcceptable(a + b, r, project, probe) ==
      if FirstAcceptable(a, r, project, probe).Ok? then FirstAcceptable(a, r, project, probe) else FirstAcceptable(b, r, project, probe)
  {
    if a == [] {
      assert a + b == b;
    } else {
      assert (a + b)[1..] == a[1..] + b;
      FirstOfConcat(a[1..], b, r, project, probe);
    }
  }

  lemma {:induction false} FirstOfRepeat(p: int, n: nat, r: Reservations, project: ProjectId, probe: int -> bool)
    ensures FirstAcceptable(Repeat(p, n), r, project, probe) ==
      if n > 0 && Acceptable(r, project, p, probe) then Ok(p) else Err(PORT_UNAVAILABLE)
  {
    if n == 0 {
    } else {
      assert Repeat(p, n)[1..] == Repeat(p, n - 1);
      FirstOfRepeat(p, n - 1, r, project, probe);
    }
  }

  lemma {:induction false} FirstOfScan(lo: int, hi: int, r: Reservations, project: ProjectId, probe: int -> bool)
    ensures var c := FirstAcceptable(Scan(lo, hi), r, project, probe);
      if NoneOpen(r, project, lo, hi, probe) then c == Err(PORT_UNAVAILABLE)
      else c.Ok? && LeastOpen(r, project, lo, hi, probe, c.value)
    decreases hi - lo
  {
    if lo > hi {
    } else {
      FirstOfScan(lo + 1, hi, r, project, probe);
      FirstOfConcat(if lo in AVOID then [] else [lo], Scan(lo + 1, hi), r, project, probe);
      assert Open(r, project, lo, probe) <==> lo !in AVOID && Acceptable(r, project, lo, probe);
      if lo !in AVOID { assert [lo][1..] == []; }
      if Open(r, project, lo, probe) {
        assert LeastOpen(r, project, lo, hi, probe, lo);
      } else if !NoneOpen(r, project, lo + 1, hi, probe) {
        var c := FirstAcceptable(Scan(lo + 1, hi), r, project, probe);
        assert LeastOpen(r, project, lo, hi, probe, c.value);
      }
    }
  }

  /** With a fixed probe, trying the plan from the front gives exactly the promised choice. */
  lemma PlanMeetsChoice(r: Reservations, last: Option<int>, w: Wish, range: Range, probe: int -> bool)
    requires !KeepsOwn(r, w)
    ensures Choice(r, last, w, range, probe, FirstAcceptable(Plan(last, w, range), r, w.project, probe))
  {
    hide LeastOpen, NoneOpen, FirstAcceptable, Acceptable, Scan, Repeat;
    var start := if w.preferred.Some? then w.preferred.value else range.lo;
    var first := if w.preferred.Some? then Grace(last, w.preferred.value) else [];
    var second := if last.Some? && last != w.preferred then Grace(last, last.value) else [];
    var third, fourth := Scan(start + 1, Min(start + 100, range.hi)), Scan(range.lo, range.hi);
    NothingFirst(r, w.project, probe);
    if w.preferred.Some? { FirstOfRepeat(w.preferred.value, if last == w.preferred then 5 else 1, r, w.project, probe); }
    if last.Some? { FirstOfRepeat(last.value, 5, r, w.project, probe); }
    FirstOfScan(start + 1, Min(start + 100, range.hi), r, w.project, probe);
    FirstOfScan(range.lo, range.hi, r, w.project, probe);
    FirstOfConcat(first + second + third, fourth, r, w.project, probe);
    FirstOfConcat(first + second, third, r, w.project, probe);
    FirstOfConcat(first, second, r, w.project, probe);
  }

  lemma NothingFirst(r: Reservations, project: ProjectId, probe: int -> bool)
    ensures FirstAcceptable([], r, project, probe) == Err(PORT_UNAVAILABLE)
  {}

  // ── consequences ──────────────────────────────────────────

  /**
   * A project that gave its port back gets the same port again, with the oracle still accepting it and all other
   * reservations unchanged, if and only if it does not now prefer a different port that is acceptable, or insist on one.
   */
  lemma ReleaseThenAllocate(r: Reservations, w: Wish, q: nat, range: Range, probe: int -> bool, c: Result<int, PortError>)
    requires OnePort(r) && Holds(r, w.project, q) && 1 <= q <= 65535 && probe(q)
    requires Choice(Without(r, w.project), Some(q), w, range, probe, c)
    ensures c == Ok(q) <==>
      || w.preferred == None || w.preferred == Some(q)
      || (!w.strict && !Acceptable(Without(r, w.project), w.project, w.preferred.value, probe))
  {}
}
