/** What every step of the gateway keeps: the shape of the table, the connection accounting and the limits. */
module AccessInvariants {
  import opened Wrappers
  import opened Access

  // ── the shape of the table ────────────────────────────────

  ghost predicate Distinct(order: seq<SessionId>) {
    forall i, j :: 0 <= i < j < |order| ==> order[i] != order[j]
  }

  ghost predicate TableOk(t: Table) {
    Distinct(t.order) && forall id :: id in t.order ==> id in t.records
  }

  /** Nothing that decides about activity or connections differs. */
  predicate Alike(a: Session, b: Session) {
    b == a.(invited := b.invited, redeemed := b.redeemed)
  }

  predicate SameConnections(a: Session, b: Session) {
    a.openConnections == b.openConnections && a.sockets == b.sockets && a.ended == b.ended
  }

  /** What admission may do to a table: touch one session, or add one, and redeem an invite. */
  ghost predicate AdmitShape(t: Table, t': Table, w: Verdict, newId: SessionId) {
    && TableOk(t') && t'.policy == t.policy && t'.blocked == t.blocked
    && (forall id :: id in t.records ==> id in t'.records && SameConnections(t.records[id], t'.records[id]))
    && (forall id :: id in t.records && w != Admitted(id) ==> Alike(t.records[id], t'.records[id]))
    && (w.Admitted? ==> Listed(t', w.session) && (Listed(t, w.session) || w.session == newId))
    && (if w == Admitted(newId) then
          && t'.order == t.order + [newId] && t'.records.Keys == t.records.Keys + {newId}
          && t'.records[newId].openConnections == 0 && t'.records[newId].sockets == {}
        else t'.order == t.order && t'.records.Keys == t.records.Keys)
  }

  lemma SeatHasShape(t: Table, v: Visit, found: Option<SessionId>, viaCookie: bool, invited: bool, now: int, newId: SessionId)
    requires TableOk(t) && (found.Some? ==> Listed(t, found.value)) && newId !in t.records && newId !in t.order
    ensures var (t', w) := Seat(t, v, found, viaCookie, invited, now, newId); AdmitShape(t, t', w, newId)
  {}

  lemma MarkKeepsShape(t: Table, found: Option<SessionId>, invites: seq<Invite>)
    requires TableOk(t) && (found.Some? ==> Listed(t, found.value))
    ensures var t1 := MarkInvited(t, found, invites);
      && TableOk(t1) && t1.order == t.order && t1.records.Keys == t.records.Keys
      && t1.policy == t.policy && t1.blocked == t.blocked
      && (forall id :: id in t.records ==> Alike(t.records[id], t1.records[id]))
  {}

  lemma MarkHasShape(t: Table, found: Option<SessionId>, invites: seq<Invite>, v: Visit, now: int, newId: SessionId)
    requires TableOk(t) && (found.Some? ==> Listed(t, found.value)) && newId !in t.records && newId !in t.order
    ensures var (t', w) := Seat(MarkInvited(t, found, invites), v, found, ViaCookie(t, v), true, now, newId);
      AdmitShape(t, t', w, newId)
  {
    hide Seat, MarkInvited, Distinct;
    MarkKeepsShape(t, found, invites);
    SeatHasShape(MarkInvited(t, found, invites), v, found, ViaCookie(t, v), true, now, newId);
  }

  lemma AdmitHasShape(t: Table, v: Visit, now: int, newId: SessionId)
    requires TableOk(t) && newId !in t.records && newId !in t.order
    ensures var (t', w) := Admit(t, v, now, newId); AdmitShape(t, t', w, newId)
  {
    var found := Lookup(t, v, now);
    if v.address in t.blocked || (ViaCookie(t, v) && t.records[v.cookie.value].ended) {
    } else if v.token.None? {
      SeatHasShape(t, v, found, ViaCookie(t, v), found.Some? && t.records[found.value].invited, now, newId);
    } else {
      var used := Redeem(t.invites, v.token.value, now);
      if used.Some? { MarkHasShape(t, found, used.value, v, now, newId); }
    }
  }

  // ── connection accounting ─────────────────────────────────

  /** The requests of a session whose response has not closed; `open` picks those whose `done` has not fired. */
  function Requests(streams: map<RequestId, Stream>, id: SessionId, open: bool): set<RequestId> {
    set r | r in streams && streams[r].session == id && !(open && streams[r].finished)
  }

  /** The two counters of a session are exactly the requests they stand for, and no limit is passed. */
  ghost predicate Accounted(g: Gateway, id: SessionId)
    requires id in g.table.records
  {
    var s := g.table.records[id];
    && s.openConnections == |Requests(g.streams, id, true)|
    && Inflight(g, id) == |Requests(g.streams, id, false)| <= g.limits.maxConcurrent
    && |s.sockets| <= g.limits.maxSockets
  }

  ghost predicate Inv(g: Gateway) {
    && TableOk(g.table)
    && (forall r :: r in g.streams ==> g.streams[r].session in g.table.records)
    && (forall h :: h in g.owner ==> g.owner[h] in g.table.records)
    && (forall id, h :: id in g.table.records && h in g.table.records[id].sockets ==> h in g.owner && g.owner[h] == id)
    && (forall id :: id in g.inflight ==> id in g.table.records)
    && (forall id :: id in g.table.records ==> Accounted(g, id))
  }

  /** A step that leaves streams, sockets and their owners alone and adds at most sessions without connections. */
  lemma QuietKeeps(g: Gateway, t: Table)
    requires Inv(g) && TableOk(t)
    requires forall id :: id in g.table.records ==> id in t.records
    requires forall id :: id in g.table.records ==>
      t.records[id].openConnections == g.table.records[id].openConnections
      && (t.records[id].sockets == g.table.records[id].sockets || t.records[id].sockets == {})
    requires forall id :: id in t.records && id !in g.table.records ==>
      t.records[id].openConnections == 0 && t.records[id].sockets == {}
    ensures Inv(g.(table := t))
  {
    hide Requests, Distinct;
    var g' := g.(table := t);
    forall id | id in t.records ensures Accounted(g', id) {
      if id in g.table.records { assert Accounted(g, id); } else { NoRequests(g, id); }
    }
  }

  lemma NoRequests(g: Gateway, id: SessionId)
    requires forall r :: r in g.streams ==> g.streams[r].session != id
    ensures Requests(g.streams, id, true) == {} && Requests(g.streams, id, false) == {}
  {}

  lemma AdmitKeeps(g: Gateway, v: Visit, newId: SessionId)
    requires Inv(g) && newId !in g.table.records && newId !in g.table.order
    ensures Inv(g.(table := Admit(g.table, v, g.now, newId).0))
  {
    AdmitHasShape(g.table, v, g.now, newId);
    QuietKeeps(g, Admit(g.table, v, g.now, newId).0);
  }

  // How the request sets of session `x` change with one request.

  lemma StreamAdded(streams: map<RequestId, Stream>, r: RequestId, id: SessionId, x: SessionId, open: bool)
    requires r !in streams
    ensures |Requests(streams[r := Stream(id, false)], x, open)| == |Requests(streams, x, open)| + (if x == id then 1 else 0)
  {
    var extra := if x == id then {r} else {};
    assert Requests(streams[r := Stream(id, false)], x, open) == Requests(streams, x, open) + extra;
  }

  lemma StreamFinished(streams: map<RequestId, Stream>, r: RequestId, x: SessionId)
    requires r in streams && !streams[r].finished
    ensures var (id, s) := (streams[r].session, streams[r := Stream(streams[r].session, true)]);
      && |Requests(s, x, true)| == |Requests(streams, x, true)| - (if x == id then 1 else 0)
      && Requests(s, x, false) == Requests(streams, x, false)
  {
    var (id, s) := (streams[r].session, streams[r := Stream(streams[r].session, true)]);
    var gone := if x == id then {r} else {};
    assert Requests(streams, x, true) == Requests(s, x, true) + gone;
    assert Requests(s, x, false) == Requests(streams, x, false);
  }

  lemma StreamDropped(streams: map<RequestId, Stream>, r: RequestId, x: SessionId)
    requires r in streams && streams[r].finished
    ensures Requests(streams - {r}, x, true) == Requests(streams, x, true)
    ensures |Requests(streams - {r}, x, false)| == |Requests(streams, x, false)| - (if x == streams[r].session then 1 else 0)
  {
    var gone := if x == streams[r].session then {r} else {};
    assert Requests(streams, x, false) == Requests(streams - {r}, x, false) + gone;
  }

  /** Starting to proxy an admitted request: both counters of its session go up by one. */
  lemma BeginStreamKeeps(g: Gateway, id: SessionId, r: RequestId)
    requires Inv(g) && id in g.table.records && r !in g.streams && Inflight(g, id) < g.limits.maxConcurrent
    ensures var s := g.table.records[id];
      Inv(g.(inflight := g.inflight[id := Inflight(g, id) + 1], streams := g.streams[r := Stream(id, false)],
             table := Put(g.table, id, s.(openConnections := s.openConnections + 1))))
  {
    hide Accounted, Distinct;
    var s := g.table.records[id];
    var g' := g.(inflight := g.inflight[id := Inflight(g, id) + 1], streams := g.streams[r := Stream(id, false)],
                 table := Put(g.table, id, s.(openConnections := s.openConnections + 1)));
    forall x | x in g'.table.records ensures Accounted(g', x) { BeginIsAccounted(g, id, r, x); }
  }

  lemma BeginIsAccounted(g: Gateway, id: SessionId, r: RequestId, x: SessionId)
    requires id in g.table.records && x in g.table.records && Accounted(g, x)
    requires r !in g.streams && Inflight(g, id) < g.limits.maxConcurrent
    ensures var s := g.table.records[id];
      Accounted(g.(inflight := g.inflight[id := Inflight(g, id) + 1], streams := g.streams[r := Stream(id, false)],
                   table := Put(g.table, id, s.(openConnections := s.openConnections + 1))), x)
  {
    hide Requests;
    StreamAdded(g.streams, r, id, x, true);
    StreamAdded(g.streams, r, id, x, false);
  }

  lemma RequestKeeps(g: Gateway, v: Visit, r: RequestId, newId: SessionId)
    requires Inv(g) && r !in g.streams && newId !in g.table.records && newId !in g.table.order
    ensures Inv(HandleRequest(g, v, r, newId))
  {
    hide Inv, Admit;
    AdmitKeeps(g, v, newId);
    var (t, w) := Admit(g.table, v, g.now, newId);
    var g1 := g.(table := t);
    if w.Admitted? && v.token.None? && g.available && w.session in t.records && Inflight(g, w.session) < g.limits.maxConcurrent {
      BeginStreamKeeps(g1, w.session, r);
    }
  }

  /** The clamp at zero never acts: a request that has not finished is counted in its session. */
  lemma ClampNeverActs(g: Gateway, r: RequestId)
    requires Inv(g) && r in g.streams && !g.streams[r].finished
    ensures g.streams[r].session in g.table.records
    ensures g.table.records[g.streams[r].session].openConnections >= 1
  {
    var id := g.streams[r].session;
    assert Accounted(g, id);
    assert r in Requests(g.streams, id, true);
  }

  lemma FinishKeeps(g: Gateway, r: RequestId)
    requires Inv(g)
    ensures Inv(FinishStream(g, r))
  {
    hide Requests, Distinct;
    if r in g.streams && !g.streams[r].finished {
      ClampNeverActs(g, r);
      var g' := FinishStream(g, r);
      forall x | x in g'.table.records ensures Accounted(g', x) {
        assert Accounted(g, x);
        StreamFinished(g.streams, r, x);
      }
    }
  }

  function DropRequest(g: Gateway, r: RequestId): Gateway
    requires r in g.streams
  {
    var n := Inflight(g, g.streams[r].session) - 1;
    g.(streams := g.streams - {r},
       inflight := if n <= 0 then g.inflight - {g.streams[r].session} else g.inflight[g.streams[r].session := n])
  }

  lemma InflightHasRequest(g: Gateway, r: RequestId)
    requires Inv(g) && r in g.streams
    ensures g.streams[r].session in g.inflight && g.inflight[g.streams[r].session] >= 1
  {
    var id := g.streams[r].session;
    assert Accounted(g, id);
    assert r in Requests(g.streams, id, false);
  }

  lemma DropKeeps(g: Gateway, r: RequestId)
    requires Inv(g) && r in g.streams && g.streams[r].finished
    ensures Inv(DropRequest(g, r))
  {
    hide Requests, TableOk;
    InflightHasRequest(g, r);
    var g' := DropRequest(g, r);
    forall x | x in g'.table.records ensures Accounted(g', x) {
      assert Accounted(g, x);
      StreamDropped(g.streams, r, x);
    }
  }

  lemma StreamHasSession(g: Gateway, r: RequestId)
    requires Inv(g) && r in g.streams
    ensures g.streams[r].session in g.table.records
  {}

  lemma CloseKeeps(g: Gateway, r: RequestId)
    requires Inv(g)
    ensures Inv(CloseResponse(g, r))
  {
    hide Inv;
    if r in g.streams {
      InflightHasRequest(g, r);
      FinishKeeps(g, r);
      StreamHasSession(g, r);
      var g1 := FinishStream(g, r);
      DropKeeps(g1, r);
      assert CloseResponse(g, r) == DropRequest(g1, r);
    }
  }

  lemma SocketsKeep(g: Gateway, id: SessionId, s: Session, owner: map<SocketId, SessionId>)
    requires Inv(g) && id in g.table.records
    requires s.openConnections == g.table.records[id].openConnections && |s.sockets| <= g.limits.maxSockets
    requires forall h :: h in g.owner ==> h in owner && owner[h] == g.owner[h]
    requires forall h :: h in owner ==> owner[h] in g.table.records
    requires forall h :: h in s.sockets ==> h in owner && owner[h] == id
    ensures Inv(g.(owner := owner, table := Put(g.table, id, s)))
  {
    var g' := g.(owner := owner, table := Put(g.table, id, s));
    forall x | x in g'.table.records ensures Accounted(g', x) { assert Accounted(g, x); }
  }

  lemma UpgradeKeeps(g: Gateway, v: Visit, h: SocketId, newId: SessionId)
    requires Inv(g) && h !in g.owner && newId !in g.table.records && newId !in g.table.order
    ensures Inv(UpgradeSocket(g, v, h, newId))
  {
    var v' := v.(token := None);
    var (t, w) := Admit(g.table, v', g.now, newId);
    AdmitKeeps(g, v', newId);
    var g1 := g.(table := t);
    if w.Admitted? && g.available && w.session in t.records && |t.records[w.session].sockets| < g.limits.maxSockets {
      var id, s := w.session, t.records[w.session];
      SocketsKeep(g1, id, s.(sockets := s.sockets + {h}), g.owner[h := id]);
    }
  }

  lemma CleanupKeeps(g: Gateway, h: SocketId)
    requires Inv(g)
    ensures Inv(CleanupSocket(g, h))
  {
    if h in g.owner {
      var id := g.owner[h];
      assert Accounted(g, id);
      SubsetSize(g.table.records[id].sockets - {h}, g.table.records[id].sockets);
      SocketsKeep(g, id, Detach(g.table.records[id], h, g.now), g.owner);
    }
  }

  lemma {:induction false} SubsetSize<T>(a: set<T>, b: set<T>)
    requires a <= b
    ensures |a| <= |b|
  {
    assert b == a + (b - a);
  }

  // ── maintenance ───────────────────────────────────────────

  /** A sub-sequence keeps its ids apart and names no new one. */
  lemma {:induction false} SurvivorsShape(order: seq<SessionId>, records: map<SessionId, Session>, now: int, p: Policy)
    requires Distinct(order)
    ensures var r := Survivors(order, records, now, p);
      && Distinct(r)
      && forall id :: id in r <==> id in order && !(id in records && Forgotten(records[id], now, p))
  {
    if order == [] {
    } else {
      var init, id := order[..|order| - 1], order[|order| - 1];
      SurvivorsShape(init, records, now, p);
      assert id !in init;
      assert order == init + [id];
    }
  }

  lemma {:induction false} RemoveShape(order: seq<SessionId>, id: SessionId)
    requires Distinct(order)
    ensures var r := Remove(order, id); Distinct(r) && forall x :: x in r <==> x in order && x != id
  {
    if order == [] {
    } else {
      var init, last := order[..|order| - 1], order[|order| - 1];
      RemoveShape(init, id);
      assert last !in init;
      assert order == init + [last];
    }
  }

  lemma SweepKeeps(g: Gateway)
    requires Inv(g)
    ensures Inv(g.(table := Sweep(g.table, g.now)))
  {
    SurvivorsShape(g.table.order, g.table.records, g.now, g.table.policy);
    QuietKeeps(g, Sweep(g.table, g.now));
  }

  lemma TombstoneKeeps(g: Gateway, id: SessionId)
    requires Inv(g)
    ensures Inv(g.(table := g.table.(order := Remove(g.table.order, id))))
  {
    RemoveShape(g.table.order, id);
    QuietKeeps(g, g.table.(order := Remove(g.table.order, id)));
  }

  lemma PolicyKeeps(g: Gateway, mode: Option<Mode>, maxUsers: Option<int>)
    requires Inv(g)
    ensures Inv(UpdatePolicy(g, mode, maxUsers))
  {
    var p := Patched(g.project, mode, maxUsers);
    QuietKeeps(g, Grandfather(g.table).(policy := p));
    QuietKeeps(g, g.table.(policy := p));
    ConfigKeeps(g, UpdatePolicy(g, mode, maxUsers));
  }

  /** Availability, the clock and the project's own configuration do not matter here. */
  lemma ConfigKeeps(g: Gateway, g': Gateway)
    requires Inv(g'.(now := g.now, available := g.available, project := g.project, attached := g.attached))
    ensures Inv(g')
  {}

  lemma {:induction false} RunKeeps(g: Gateway, events: seq<Event>)
    requires Inv(g)
    ensures Inv(Run(g, events))
  {
    if events == [] {
    } else {
      RunKeeps(g, events[..|events| - 1]);
      StepKeeps(Run(g, events[..|events| - 1]), events[|events| - 1]);
    }
  }

  lemma EndKeeps(g: Gateway, id: SessionId, block: bool)
    requires Inv(g)
    ensures Inv(g.(table := End(g.table, id, block)))
  {
    QuietKeeps(g, End(g.table, id, block));
  }

  lemma StopKeeps(g: Gateway)
    requires Inv(g)
    ensures Inv(g.(table := g.table.(order := [])))
  {}

  lemma StepKeeps(g: Gateway, e: Event)
    requires Inv(g)
    ensures Inv(Step(g, e))
  {
    hide Inv, HandleRequest, UpgradeSocket, CloseResponse, CleanupSocket, FinishStream, Sweep, UpdatePolicy;
    match e
    case Request(v, r, newId, passes) =>
      if Step(g, e) != g { RequestKeeps(g, v, r, newId); }
    case Upgrade(v, h, newId, passes) =>
      if Step(g, e) != g { UpgradeKeeps(g, v, h, newId); }
    case StreamFails(r) => FinishKeeps(g, r);
    case ResponseCloses(r) => CloseKeeps(g, r);
    case Cleanup(h) => CleanupKeeps(g, h);
    case SweepTimer => SweepKeeps(g);
    case Disconnect(id, block) => EndKeeps(g, id, block);
    case TombstoneTimer(id) => TombstoneKeeps(g, id);
    case UpdateAccess(mode, max) => PolicyKeeps(g, mode, max);
    case Stop => StopKeeps(g);
    case Tick(_) => ConfigKeeps(g, Step(g, e));
    case SetAvailable(_) => ConfigKeeps(g, Step(g, e));
    case Attach => ConfigKeeps(g, Step(g, e));
    case Unblock(a) => TableConfigKeeps(g, g.table.(blocked := g.table.blocked - {a}));
    case CreateInvite(id, hash, ttl, max) =>
      TableConfigKeeps(g, g.table.(invites := g.table.invites + [Invite(id, hash, g.now + ttl, max, 0, false)]));
    case RevokeInvite(id) => TableConfigKeeps(g, g.table.(invites := Revoke(g.table.invites, id)));
  }

  /** Neither do blocked addresses and invites. */
  lemma TableConfigKeeps(g: Gateway, t: Table)
    requires Inv(g) && t.records == g.table.records && t.order == g.table.order
    ensures Inv(g.(table := t))
  {}
}
