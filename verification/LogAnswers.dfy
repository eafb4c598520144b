/** The ring and the table answer as one history. */
module LogAnswers {
  import opened Wrappers
  import opened Logs

  /** The clock does not go back, or the query has no lower bound. */
  ghost predicate Ordered(s: seq<Entry>, since: Option<int>) {
    since.None? || since.value == 0 || forall i, j :: 0 <= i < j < |s| ==> s[i].timestamp <= s[j].timestamp
  }

  lemma {:induction false} NewerSome(s: seq<Entry>, since: Option<int>)
    ensures |Newer(s, since)| <= |s|
    ensures |Newer(s, since)| == |s| ==> Newer(s, since) == s
    ensures (forall i :: 0 <= i < |s| ==> IsNewer(s[i], since)) ==> Newer(s, since) == s
    ensures (forall i :: 0 <= i < |s| ==> !IsNewer(s[i], since)) ==> Newer(s, since) == []
  {
    if s != [] {
      NewerSome(s[1..], since);
      assert s == [s[0]] + s[1..];
      assert forall i :: 0 <= i < |s[1..]| ==> s[1..][i] == s[i + 1];
    }
  }

  lemma LastOfConcat<T>(a: seq<T>, b: seq<T>, n: nat)
    requires a == [] || n <= |b|
    ensures LastN(a + b, n) == LastN(b, n)
  {}

  /** A long enough end of an ordered history has the same newest entries. */
  lemma EndIsEnough(pre: seq<Entry>, end: seq<Entry>, limit: nat, since: Option<int>)
    requires Ordered(pre + end, since) && (pre == [] || |end| >= limit)
    ensures LastN(Newer(pre + end, since), limit) == LastN(Newer(end, since), limit)
  {
    hide LastN;
    NewerConcat(pre, end, since);
    NewerSome(pre, since);
    if i :| 0 <= i < |pre| && IsNewer(pre[i], since) {
      LaterAreNewer(pre, end, i, since);
      NewerSome(end, since);
      LastOfConcat(Newer(pre, since), end, limit);
    } else {
      LastOfConcat([], Newer(end, since), limit);
    }
  }

  lemma LaterAreNewer(pre: seq<Entry>, end: seq<Entry>, i: nat, since: Option<int>)
    requires Ordered(pre + end, since) && i < |pre| && IsNewer(pre[i], since)
    ensures forall j :: 0 <= j < |end| ==> IsNewer(end[j], since)
  {
    var all := pre + end;
    forall j | 0 <= j < |end| ensures IsNewer(end[j], since) {
      assert all[i] == pre[i] && all[|pre| + j] == end[j];
    }
  }

  // ── what a query asks for ─────────────────────────────────

  /** An entry of the project that is newer than the bound; a bound of zero is none. */
  predicate Matches(e: Entry, project: ProjectId, since: Option<int>) {
    e.project == project && (since.Some? && since.value != 0 ==> e.timestamp > since.value)
  }

  /** The answer is the entries at these positions of the history, in order: all that match, or the newest `limit` of them. */
  ghost predicate NewestMatching(history: seq<Entry>, project: ProjectId, limit: nat, since: Option<int>, at: seq<nat>, answer: seq<Entry>) {
    && |answer| == |at| <= limit
    && (forall k :: 0 <= k < |at| ==> at[k] < |history| && answer[k] == history[at[k]] && Matches(answer[k], project, since))
    && (forall j, k :: 0 <= j < k < |at| ==> at[j] < at[k])
    && (forall i: nat :: i < |history| && Matches(history[i], project, since) && !Among(at, i) ==>
          |at| == limit && forall k :: 0 <= k < |at| ==> i < at[k])
  }

  lemma MatchingOne(e: Entry, project: ProjectId, since: Option<int>)
    ensures Newer(Of([e], project), since) == if Matches(e, project, since) then [e] else []
  {
    assert Of([e][1..], project) == [];
  }

  /** The positions of all that match, and the entries there. */
  ghost predicate AllAt(s: seq<Entry>, project: ProjectId, since: Option<int>, at: seq<nat>, entries: seq<Entry>) {
    && |entries| == |at|
    && (forall k :: 0 <= k < |at| ==> at[k] < |s| && entries[k] == s[at[k]] && Matches(entries[k], project, since))
    && (forall j, k :: 0 <= j < k < |at| ==> at[j] < at[k])
    && (forall i: nat :: i < |s| && Matches(s[i], project, since) ==> Among(at, i))
  }

  predicate Among(at: seq<nat>, i: nat) {
    i in at
  }

  lemma AmongGrows(at: seq<nat>, n: nat)
    ensures Among(at + [n], n) && forall i: nat :: Among(at, i) ==> Among(at + [n], i)
  {}

  lemma AllAtGrows(s: seq<Entry>, e: Entry, project: ProjectId, since: Option<int>, at: seq<nat>, entries: seq<Entry>)
    requires AllAt(s, project, since, at, entries)
    ensures if Matches(e, project, since) then AllAt(s + [e], project, since, at + [|s|], entries + [e])
            else AllAt(s + [e], project, since, at, entries)
  {
    hide Matches, Among;
    var (t, n) := (s + [e], |s|);
    AmongGrows(at, n);
    assert t[n] == e && forall i :: 0 <= i < n ==> t[i] == s[i];
  }

  lemma NothingMatching(project: ProjectId, since: Option<int>)
    ensures AllAt([], project, since, [], Newer(Of([], project), since))
  {}

  lemma MatchingSplits(s: seq<Entry>, e: Entry, project: ProjectId, since: Option<int>)
    ensures Newer(Of(s + [e], project), since) ==
      if Matches(e, project, since) then Newer(Of(s, project), since) + [e] else Newer(Of(s, project), since)
  {
    hide Of, Newer, Matches;
    OfConcat(s, [e], project);
    NewerConcat(Of(s, project), Of([e], project), since);
    MatchingOne(e, project, since);
    assert Newer(Of(s, project), since) + [] == Newer(Of(s, project), since);
  }

  lemma {:induction false} AllMatching(s: seq<Entry>, project: ProjectId, since: Option<int>) returns (at: seq<nat>)
    ensures AllAt(s, project, since, at, Newer(Of(s, project), since))
  {
    hide *;
    if s == [] {
      at := [];
      NothingMatching(project, since);
    } else {
      var n := |s| - 1;
      var (init, e) := (s[..n], s[n]);
      at := AllMatching(init, project, since);
      assert s == init + [e] && |init| == n;
      MatchingSplits(init, e, project, since);
      AllAtGrows(init, e, project, since, at, Newer(Of(init, project), since));
      if Matches(e, project, since) { at := at + [n]; }
    }
  }

  lemma NewestOfAll(s: seq<Entry>, project: ProjectId, limit: nat, since: Option<int>, all: seq<nat>, entries: seq<Entry>, cut: nat)
    requires AllAt(s, project, since, all, entries) && cut == (if limit >= |all| then 0 else |all| - limit)
    ensures NewestMatching(s, project, limit, since, all[cut..], entries[cut..])
  {
    hide Matches, Among;
    var at := all[cut..];
    assert forall k :: 0 <= k < |at| ==> at[k] == all[cut + k] && entries[cut..][k] == entries[cut + k];
    forall i: nat | i < |s| && Matches(s[i], project, since) && !Among(at, i)
      ensures |at| == limit && forall k :: 0 <= k < |at| ==> i < at[k]
    {
      LeftOut(all, i, cut);
    }
  }

  lemma LeftOut(all: seq<nat>, i: nat, cut: nat)
    requires Among(all, i) && cut <= |all| && !Among(all[cut..], i) && forall j, k :: 0 <= j < k < |all| ==> all[j] < all[k]
    ensures cut > 0 && forall k :: cut <= k < |all| ==> i < all[k]
  {
    var j :| 0 <= j < |all| && all[j] == i;
    assert forall k :: 0 <= k < |all| - cut ==> all[cut..][k] == all[cut + k];
    assert j < cut;
  }

  /** What a query is meant to answer are the newest matching entries, in order. */
  lemma WantedIsNewest(history: seq<Entry>, project: ProjectId, limit: nat, since: Option<int>) returns (at: seq<nat>)
    ensures NewestMatching(history, project, limit, since, at, Wanted(history, project, limit, since))
  {
    hide Of, Newer, NewestMatching;
    var all := AllMatching(history, project, since);
    var entries := Newer(Of(history, project), since);
    var cut := if limit >= |all| then 0 else |all| - limit;
    NewestOfAll(history, project, limit, since, all, entries, cut);
    assert |entries| == |all|;
    assert entries[cut..] == LastN(entries, limit);
    at := all[cut..];
  }

  // ── the ring ──────────────────────────────────────────────

  lemma LastIsLast<T>(whole: seq<T>, end: seq<T>, n: nat)
    requires EndsWith(whole, end) && n <= |end|
    ensures EndsWith(whole, LastN(end, n)) && |LastN(end, n)| == n
  {}

  /** When the ring has enough new entries, they are the wanted ones, whole and in order. */
  lemma RingIsRight(s: State, project: ProjectId, limit: nat, since: Option<int>)
    requires Inv(s) && 1 <= limit <= |Hot(s, project, limit, since)|
    ensures Hot(s, project, limit, since) == Wanted(s.history, project, limit, since)
  {
    hide TableHolds, Of;
    var all, ring := Of(s.history, project), Ring(s, project);
    var last := LastN(ring, limit);
    NewerSome(last, since);
    assert |last| == limit;
    LastIsLast(all, ring, limit);
    var pre := all[..|all| - limit];
    assert all == pre + last;
    NewerConcat(pre, last, since);
    LastOfConcat(Newer(pre, since), last, limit);
  }

  /** What was written to a project since its logs were cleared, `before` being there already. */
  function Kept(before: seq<Entry>, ops: seq<Op>, project: ProjectId, node: Option<string>): seq<Entry>
    decreases |ops|
  {
    if ops == [] then before
    else
      var next := match ops[0]
        case Write(p, timestamp, message, rest) => if p == project then before + [Entry(p, timestamp, message, node, rest)] else before
        case Clear(p) => if p == project then [] else before
        case _ => before;
      Kept(next, ops[1..], project, node)
  }

  /** In every run the ring of a project holds the newest two thousand of them, and nothing else changes it. */
  lemma {:induction false} RingHoldsNewest(s: State, ops: seq<Op>, project: ProjectId, before: seq<Entry>)
    requires Ring(s, project) == LastN(before, 2_000)
    ensures Ring(Run(s, ops), project) == LastN(Kept(before, ops, project, s.node), 2_000)
    decreases |ops|
  {
    hide Rows, Pruned;
    if ops != [] {
      var t := Step(s, ops[0]);
      assert t.node == s.node;
      match ops[0]
      case Write(p, timestamp, message, rest) =>
        var e := Entry(p, timestamp, message, s.node, rest);
        if p == project {
          PushKeepsNewest(before, e, 2_000);
          RingHoldsNewest(t, ops[1..], project, before + [e]);
        } else {
          RingHoldsNewest(t, ops[1..], project, before);
        }
      case Clear(p) => RingHoldsNewest(t, ops[1..], project, if p == project then [] else before);
      case _ => RingHoldsNewest(t, ops[1..], project, before);
    }
  }

  lemma PushKeepsNewest(before: seq<Entry>, e: Entry, n: nat)
    ensures RingPush(LastN(before, n), e, n) == LastN(before + [e], n)
  {}

  /** At most 499 entries ever wait for the table. */
  lemma {:induction false} BatchStaysSmall(s: State, ops: seq<Op>)
    requires |s.buffer| < 500
    ensures |Run(s, ops).buffer| < 500
    decreases |ops|
  {
    hide Rows, Pruned, RingPush;
    if ops != [] { BatchStaysSmall(Step(s, ops[0]), ops[1..]); }
  }

  // ── the table ─────────────────────────────────────────────

  /** An entry as a reader may see it: the message cut, the node stamped on. */
  function Shown(s: seq<Entry>, node: Option<string>): seq<Entry> {
    StampAll(Rows(s), node)
  }

  /** A reader sees the first 16,384 characters of every message and this node's name, and the rest as it was written. */
  lemma {:induction false} ShownToReaders(s: seq<Entry>, node: Option<string>)
    ensures |Shown(s, node)| == |s|
    ensures forall k :: 0 <= k < |s| ==>
      Shown(s, node)[k] == s[k].(message := if |s[k].message| <= 16_384 then s[k].message else s[k].message[..16_384], node := node)
  {
    if s != [] {
      ShownToReaders(s[1..], node);
      assert Rows(s)[1..] == Rows(s[1..]);
      assert forall k :: 1 <= k < |s| ==> s[k] == s[1..][k - 1] && Shown(s, node)[k] == Shown(s[1..], node)[k - 1];
    }
  }

  /** The table answers for everything that has been flushed. */
  lemma TableIsRight(s: State, project: ProjectId, limit: nat, since: Option<int>)
    requires Inv(s) && limit <= MAX_LOGS && Ordered(Of(s.history[..s.saved], project), since)
    ensures Select(s, project, limit, since) == Shown(Wanted(s.history[..s.saved], project, limit, since), s.node)
  {
    hide Of, Rows, StampAll, LastN, Newer;
    assert TableHolds(s, project);
    var entries := Of(s.history[..s.saved], project);
    var have, all := Of(s.rows, project), Rows(entries);
    var pre := all[..|all| - |have|];
    assert all == pre + have;
    RowsKeepOrder(entries, since);
    EndIsEnough(pre, have, limit, since);
    NewerRows(entries, since);
    RowsOfLast(Newer(entries, since), limit);
  }

  lemma RowsKeepOrder(s: seq<Entry>, since: Option<int>)
    requires Ordered(s, since)
    ensures Ordered(Rows(s), since)
  {
    RowsAt(s);
  }

  // ── recent ────────────────────────────────────────────────

  /** `recent`, with `ops` happening between its flush and its query. */
  function Recent(s: State, ops: seq<Op>, project: ProjectId, limit: nat, since: Option<int>): seq<Entry> {
    if |Hot(s, project, limit, since)| >= limit then StampAll(Hot(s, project, limit, since), s.node)
    else Select(Run(Flushed(s), ops), project, limit, since)
  }

  lemma {:induction false} ShownOfStamped(s: seq<Entry>, node: Option<string>)
    ensures Shown(StampAll(s, node), node) == Shown(s, node)
  {
    if s != [] {
      ShownOfStamped(s[1..], node);
      assert StampAll(s, node)[1..] == StampAll(s[1..], node);
      assert Rows(StampAll(s, node))[1..] == Rows(StampAll(s[1..], node));
      assert Rows(s)[1..] == Rows(s[1..]);
    }
  }

  lemma {:induction false} ShownTwice(s: seq<Entry>, node: Option<string>)
    ensures Shown(Shown(s, node), node) == Shown(s, node)
  {
    if s != [] {
      ShownTwice(s[1..], node);
      assert Rows(s)[1..] == Rows(s[1..]);
      assert Shown(s, node)[1..] == Shown(s[1..], node);
      assert Rows(Shown(s, node))[1..] == Rows(Shown(s[1..], node));
    }
  }

  ghost predicate AnswersFor(s: State, n: nat, project: ProjectId, limit: nat, since: Option<int>, answer: seq<Entry>) {
    n <= |s.history| && Shown(answer, s.node) == Shown(Wanted(s.history[..n], project, limit, since), s.node)
  }

  lemma SavedBounds(s: State)
    requires Inv(s)
    ensures s.saved <= |s.history|
  {}

  lemma PrefixOrdered(h: seq<Entry>, n: nat, project: ProjectId, since: Option<int>)
    requires n <= |h| && Ordered(Of(h, project), since)
    ensures Ordered(Of(h[..n], project), since)
  {
    assert h == h[..n] + h[n..];
    OfConcat(h[..n], h[n..], project);
    var a, b := Of(h[..n], project), Of(h, project);
    assert forall i :: 0 <= i < |a| ==> a[i] == b[i];
  }

  /**
   * Whichever of ring and table answers, and whatever is written, flushed and pruned meanwhile: `recent` gives the
   * newest entries of the project's whole history as it was at some moment between the call and the answer.
   */
  lemma RecentIsOneHistory(s: State, ops: seq<Op>, project: ProjectId, limit: nat, since: Option<int>)
    requires Inv(s) && 1 <= limit <= MAX_LOGS
    requires Ordered(Of(Run(Flushed(s), ops).history, project), since)
    ensures var t := Run(Flushed(s), ops);
      exists n :: |s.history| <= n <= |t.history| && AnswersFor(t, n, project, limit, since, Recent(s, ops, project, limit, since))
  {
    hide Inv, Shown, Wanted, Hot, Select, Of, Run, StampAll;
    var t, answer := Run(Flushed(s), ops), Recent(s, ops, project, limit, since);
    FlushKeeps(s);
    RunKeeps(Flushed(s), ops);
    SavedBounds(t);
    if |Hot(s, project, limit, since)| >= limit {
      RingIsRight(s, project, limit, since);
      ShownOfStamped(Hot(s, project, limit, since), s.node);
      assert t.history[..|s.history|] == s.history;
      assert AnswersFor(t, |s.history|, project, limit, since, answer);
    } else {
      PrefixOrdered(t.history, t.saved, project, since);
      TableIsRight(t, project, limit, since);
      ShownTwice(Wanted(t.history[..t.saved], project, limit, since), t.node);
      assert AnswersFor(t, t.saved, project, limit, since, answer);
    }
  }

  /**
   * A limit of zero is not honoured: the whole ring passes for a tail of nothing. Nothing is answered, as asked,
   * exactly when the ring has no new entry either.
   */
  lemma LimitZero(s: State, ops: seq<Op>, project: ProjectId, since: Option<int>)
    ensures Recent(s, ops, project, 0, since) == Wanted(s.history, project, 0, since) <==>
            forall i :: 0 <= i < |Ring(s, project)| ==> !IsNewer(Ring(s, project)[i], since)
  {
    var ring := Ring(s, project);
    StampLength(Newer(ring, since), s.node);
    SomeNewer(ring, since);
  }

  lemma {:induction false} StampLength(s: seq<Entry>, node: Option<string>)
    ensures |StampAll(s, node)| == |s|
  {
    if s != [] { StampLength(s[1..], node); }
  }

  lemma {:induction false} SomeNewer(s: seq<Entry>, since: Option<int>)
    ensures Newer(s, since) == [] <==> forall i :: 0 <= i < |s| ==> !IsNewer(s[i], since)
  {
    if s != [] {
      SomeNewer(s[1..], since);
      assert forall i :: 0 <= i < |s[1..]| ==> s[1..][i] == s[i + 1];
      assert forall i :: 1 <= i < |s| ==> s[i] == s[1..][i - 1];
    }
  }
}
