/** Application logs: a hot ring, a write batch and a pruned table that must answer as one history. */
module Logs {
  import opened Wrappers

  type ProjectId = string

  /** Everything else an entry carries is kept as it is in `rest`. */
  datatype Entry = Entry(project: ProjectId, timestamp: int, message: string, node: Option<string>, rest: string)

  const RING_SIZE := 2000
  const BATCH_SIZE := 500
  const MAX_LOGS := 10_000
  const MAX_MESSAGE := 16_384

  /** `history` is every entry ever written, the first `saved` of them before the last flush. */
  datatype State = State(
    node: Option<string>,
    history: seq<Entry>,
    saved: nat,
    rings: map<ProjectId, seq<Entry>>,
    buffer: seq<Entry>,
    rows: seq<Entry>)

  // ── selecting ─────────────────────────────────────────────

  function Of(s: seq<Entry>, project: ProjectId): seq<Entry> {
    if s == [] then [] else (if s[0].project == project then [s[0]] else []) + Of(s[1..], project)
  }

  /** No bound, or zero, means every entry. */
  predicate IsNewer(e: Entry, since: Option<int>) {
    since.None? || since.value == 0 || e.timestamp > since.value
  }

  function Newer(s: seq<Entry>, since: Option<int>): seq<Entry> {
    if s == [] then [] else (if IsNewer(s[0], since) then [s[0]] else []) + Newer(s[1..], since)
  }

  function LastN<T>(s: seq<T>, n: nat): seq<T> {
    if n >= |s| then s else s[|s| - n..]
  }

  /** What a query for the newest entries of a project is meant to answer. */
  function Wanted(history: seq<Entry>, project: ProjectId, limit: nat, since: Option<int>): seq<Entry> {
    LastN(Newer(Of(history, project), since), limit)
  }

  // ── the parts ─────────────────────────────────────────────

  function Cut(m: string): string {
    if |m| > MAX_MESSAGE then m[..MAX_MESSAGE] else m
  }

  /** A row of the table: the message is cut and the node is not stored. */
  function Row(e: Entry): Entry {
    e.(message := Cut(e.message), node := None)
  }

  function Rows(s: seq<Entry>): seq<Entry> {
    if s == [] then [] else [Row(s[0])] + Rows(s[1..])
  }

  function Stamp(e: Entry, node: Option<string>): Entry {
    if node.Some? && e.node.None? then e.(node := node) else e
  }

  function StampAll(s: seq<Entry>, node: Option<string>): seq<Entry> {
    if s == [] then [] else [Stamp(s[0], node)] + StampAll(s[1..], node)
  }

  function RingPush<T>(ring: seq<T>, e: T, capacity: nat): seq<T> {
    LastN(ring + [e], capacity)
  }

  /** A tail of zero entries is the whole ring: the log manager slices from minus zero. */
  function Tail<T>(ring: seq<T>, n: nat): seq<T> {
    if n == 0 then ring else LastN(ring, n)
  }

  function CountOf(s: seq<Entry>, project: ProjectId): nat {
    |Of(s, project)|
  }

  /** A row goes when `keep` newer rows of its project exist. */
  function Pruned(rows: seq<Entry>, keep: nat): seq<Entry> {
    if rows == [] then []
    else (if CountOf(rows[1..], rows[0].project) < keep then [rows[0]] else []) + Pruned(rows[1..], keep)
  }

  // ── operations ────────────────────────────────────────────

  function Ring(s: State, project: ProjectId): seq<Entry> {
    if project in s.rings then s.rings[project] else []
  }

  function Flushed(s: State): State {
    s.(rows := s.rows + Rows(s.buffer), buffer := [], saved := |s.history|)
  }

  function Append(s: State, e: Entry): State {
    var t := s.(buffer := s.buffer + [e]);
    if |t.buffer| >= BATCH_SIZE then Flushed(t) else t
  }

  function Written(s: State, e: Entry): State {
    Append(s.(history := s.history + [e], rings := s.rings[e.project := RingPush(Ring(s, e.project), e, RING_SIZE)]), e)
  }

  datatype Op = Write(project: ProjectId, timestamp: int, message: string, rest: string) | Flush | Prune | Clear(project: ProjectId)

  function Step(s: State, op: Op): State {
    match op
    case Write(project, timestamp, message, rest) => Written(s, Entry(project, timestamp, message, s.node, rest))
    case Flush => Flushed(s)
    case Prune => s.(rows := Pruned(s.rows, MAX_LOGS))
    case Clear(project) => s.(rings := s.rings - {project})
  }

  function Run(s: State, ops: seq<Op>): State
    decreases |ops|
  {
    if ops == [] then s else Run(Step(s, ops[0]), ops[1..])
  }

  function Start(node: Option<string>): State {
    State(node, [], 0, map[], [], [])
  }

  /** The synchronous part of `recent`: the ring, if it has enough, or a flush and a query still to come. */
  function Hot(s: State, project: ProjectId, limit: nat, since: Option<int>): seq<Entry> {
    Newer(Tail(Ring(s, project), limit), since)
  }

  function Select(s: State, project: ProjectId, limit: nat, since: Option<int>): seq<Entry> {
    StampAll(LastN(Newer(Of(s.rows, project), since), limit), s.node)
  }

  // ── invariants ────────────────────────────────────────────

  predicate EndsWith<T(==)>(whole: seq<T>, end: seq<T>) {
    |end| <= |whole| && whole[|whole| - |end|..] == end
  }

  /** Of each project the table has the newest entries, and at least as many as pruning leaves. */
  ghost predicate TableHolds(s: State, project: ProjectId)
    requires s.saved <= |s.history|
  {
    var all, have := Rows(Of(s.history[..s.saved], project)), Of(s.rows, project);
    EndsWith(all, have) && (|have| >= MAX_LOGS || have == all)
  }

  ghost predicate Inv(s: State) {
    && s.saved <= |s.history| && s.buffer == s.history[s.saved..]
    && (forall i :: 0 <= i < |s.history| ==> s.history[i].node == s.node)
    && (forall p :: p in s.rings ==> EndsWith(Of(s.history, p), s.rings[p]))
    && (forall p :: TableHolds(s, p))
  }

  // ── sequences ─────────────────────────────────────────────

  lemma {:induction false} OfConcat(a: seq<Entry>, b: seq<Entry>, project: ProjectId)
    ensures Of(a + b, project) == Of(a, project) + Of(b, project)
  {
    if a == [] {
      assert a + b == b;
    } else {
      assert (a + b)[1..] == a[1..] + b;
      OfConcat(a[1..], b, project);
    }
  }

  lemma {:induction false} NewerConcat(a: seq<Entry>, b: seq<Entry>, since: Option<int>)
    ensures Newer(a + b, since) == Newer(a, since) + Newer(b, since)
  {
    if a == [] {
      assert a + b == b;
    } else {
      assert (a + b)[1..] == a[1..] + b;
      NewerConcat(a[1..], b, since);
    }
  }

  lemma {:induction false} RowsConcat(a: seq<Entry>, b: seq<Entry>)
    ensures Rows(a + b) == Rows(a) + Rows(b)
  {
    if a == [] {
      assert a + b == b;
    } else {
      assert (a + b)[1..] == a[1..] + b;
      RowsConcat(a[1..], b);
    }
  }

  lemma {:induction false} RowsAt(s: seq<Entry>)
    ensures |Rows(s)| == |s| && forall i :: 0 <= i < |s| ==> Rows(s)[i] == Row(s[i])
  {
    if s != [] { RowsAt(s[1..]); }
  }

  lemma {:induction false} OfRows(s: seq<Entry>, project: ProjectId)
    ensures Of(Rows(s), project) == Rows(Of(s, project))
  {
    if s != [] {
      OfRows(s[1..], project);
      assert Rows(s)[1..] == Rows(s[1..]);
      RowsConcat(if s[0].project == project then [s[0]] else [], Of(s[1..], project));
    }
  }

  lemma {:induction false} NewerRows(s: seq<Entry>, since: Option<int>)
    ensures Newer(Rows(s), since) == Rows(Newer(s, since))
  {
    if s != [] {
      NewerRows(s[1..], since);
      assert Rows(s)[1..] == Rows(s[1..]);
      RowsConcat(if IsNewer(s[0], since) then [s[0]] else [], Newer(s[1..], since));
    }
  }

  lemma RowsOfLast(s: seq<Entry>, n: nat)
    ensures Rows(LastN(s, n)) == LastN(Rows(s), n)
  {
    RowsAt(s);
    if n < |s| {
      assert s == s[..|s| - n] + s[|s| - n..];
      RowsConcat(s[..|s| - n], s[|s| - n..]);
      RowsAt(s[..|s| - n]);
    }
  }

  lemma LastNCons<T>(x: T, s: seq<T>, n: nat)
    ensures |s| < n ==> LastN([x] + s, n) == [x] + LastN(s, n)
    ensures |s| >= n ==> LastN([x] + s, n) == LastN(s, n)
  {}

  /** Pruning keeps the newest rows of every project. */
  lemma {:induction false} PrunedKeepsNewest(rows: seq<Entry>, keep: nat, project: ProjectId)
    ensures Of(Pruned(rows, keep), project) == LastN(Of(rows, project), keep)
  {
    hide LastN;
    if rows == [] {
      NothingLast<Entry>(keep);
    } else {
      PrunedKeepsNewest(rows[1..], keep, project);
      var head := if CountOf(rows[1..], rows[0].project) < keep then [rows[0]] else [];
      OfConcat(head, Pruned(rows[1..], keep), project);
      LastNCons(rows[0], Of(rows[1..], project), keep);
      assert Of(head, project) == if rows[0].project == project then head else [];
      assert Of(rows, project) == (if rows[0].project == project then [rows[0]] else []) + Of(rows[1..], project);
      assert [] + Of(rows[1..], project) == Of(rows[1..], project);
      assert [] + LastN(Of(rows[1..], project), keep) == LastN(Of(rows[1..], project), keep);
    }
  }

  lemma NothingLast<T>(n: nat)
    ensures LastN<T>([], n) == []
  {}

  // ── every operation keeps the invariant ───────────────────

  lemma EndsWithConcat<T>(a: seq<T>, b: seq<T>, more: seq<T>)
    requires EndsWith(a, b)
    ensures EndsWith(a + more, b + more)
  {}

  lemma EndsWithLast<T>(a: seq<T>, b: seq<T>, n: nat)
    requires EndsWith(a, b)
    ensures EndsWith(a, LastN(b, n))
  {}

  lemma PushKeeps(s: State, e: Entry)
    requires Inv(s) && e.node == s.node
    ensures var t := s.(history := s.history + [e], rings := s.rings[e.project := RingPush(Ring(s, e.project), e, RING_SIZE)],
                        buffer := s.buffer + [e]); Inv(t)
  {
    hide TableHolds, LastN;
    var t := s.(history := s.history + [e], rings := s.rings[e.project := RingPush(Ring(s, e.project), e, RING_SIZE)],
                buffer := s.buffer + [e]);
    assert t.history[..s.saved] == s.history[..s.saved];
    assert t.history[s.saved..] == s.buffer + [e];
    forall p | p in t.rings ensures EndsWith(Of(t.history, p), t.rings[p]) {
      OfConcat(s.history, [e], p);
      assert Of([e], p) == if e.project == p then [e] else [];
      if p == e.project {
        EndsWithConcat(Of(s.history, p), Ring(s, p), [e]);
        EndsWithLast(Of(t.history, p), Ring(s, p) + [e], RING_SIZE);
      }
    }
    forall p ensures TableHolds(t, p) { assert TableHolds(s, p); SameTable(s, t, p); }
  }

  lemma SameTable(s: State, t: State, p: ProjectId)
    requires s.saved <= |s.history| && t.saved <= |t.history|
    requires t.history[..t.saved] == s.history[..s.saved] && t.rows == s.rows
    ensures TableHolds(t, p) <==> TableHolds(s, p)
  {}

  lemma FlushKeeps(s: State)
    requires Inv(s)
    ensures Inv(Flushed(s))
  {
    var t := Flushed(s);
    forall p ensures TableHolds(t, p) {
      assert TableHolds(s, p);
      FlushFillsTable(s, p);
    }
  }

  lemma FlushFillsTable(s: State, p: ProjectId)
    requires s.saved <= |s.history| && s.buffer == s.history[s.saved..] && TableHolds(s, p)
    ensures TableHolds(Flushed(s), p)
  {
    var past, batch := s.history[..s.saved], s.buffer;
    assert s.history == past + batch && s.history[..|s.history|] == s.history;
    OfConcat(past, batch, p);
    RowsConcat(Of(past, p), Of(batch, p));
    OfConcat(s.rows, Rows(batch), p);
    OfRows(batch, p);
    EndsWithConcat(Rows(Of(past, p)), Of(s.rows, p), Rows(Of(batch, p)));
  }

  lemma PruneKeeps(s: State)
    requires Inv(s)
    ensures Inv(Step(s, Prune))
  {
    hide Pruned;
    var t := Step(s, Prune);
    forall p ensures TableHolds(t, p) {
      assert TableHolds(s, p);
      PrunedKeepsNewest(s.rows, MAX_LOGS, p);
      EndsWithLast(Rows(Of(s.history[..s.saved], p)), Of(s.rows, p), MAX_LOGS);
    }
  }

  lemma StepKeeps(s: State, op: Op)
    requires Inv(s)
    ensures Inv(Step(s, op)) && s.history <= Step(s, op).history && Step(s, op).node == s.node
    ensures s.saved <= Step(s, op).saved
  {
    hide TableHolds, Pruned, Rows;
    match op
    case Write(project, timestamp, message, rest) =>
      var e := Entry(project, timestamp, message, s.node, rest);
      PushKeeps(s, e);
      var t := s.(history := s.history + [e], rings := s.rings[e.project := RingPush(Ring(s, e.project), e, RING_SIZE)],
                  buffer := s.buffer + [e]);
      FlushKeeps(t);
    case Flush => FlushKeeps(s);
    case Prune => PruneKeeps(s);
    case Clear(project) =>
      forall p ensures TableHolds(Step(s, op), p) { assert TableHolds(s, p); SameTable(s, Step(s, op), p); }
  }

  lemma {:induction false} RunKeeps(s: State, ops: seq<Op>)
    requires Inv(s)
    ensures Inv(Run(s, ops)) && s.history <= Run(s, ops).history && Run(s, ops).node == s.node
    ensures s.saved <= Run(s, ops).saved
    decreases |ops|
  {
    hide Inv, Step;
    if ops != [] {
      StepKeeps(s, ops[0]);
      RunKeeps(Step(s, ops[0]), ops[1..]);
    }
  }
}
