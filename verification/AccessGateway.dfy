/** The gateway's own classes, method by method, tied to the steps of the access model. */
module AccessGateway {
  import opened Wrappers
  import opened Access
  import opened AccessInvariants
  import Runs = AccessRuns

  class SessionTable {
    var policy: Policy
    var records: map<SessionId, Session>
    var order: seq<SessionId>
    var blocked: set<Address>
    var invites: seq<Invite>

    ghost function Snapshot(): Table
      reads this
    {
      Table(policy, records, order, blocked, invites)
    }

    constructor (policy: Policy)
      ensures Snapshot() == Table(policy, map[], [], {}, [])
    {
      this.policy, records, order, blocked, invites := policy, map[], [], {}, [];
    }

    // ── lookups ─────────────────────────────────────────────

    predicate Holds(id: SessionId)
      reads this
    {
      id in order && id in records
    }

    method FindByFingerprint(fp: Fingerprint, now: int) returns (r: Option<SessionId>)
      ensures r == ByFingerprint(Snapshot(), fp, now, 0)
    {
      for i := 0 to |order|
        invariant ByFingerprint(Snapshot(), fp, now, 0) == ByFingerprint(Snapshot(), fp, now, i)
      {
        var id := order[i];
        if id !in records { continue; }
        var s := records[id];
        if s.fingerprint != fp || s.ended || s.status == Closed { continue; }
        if !s.cookieConfirmed || now - s.connectedAt < FINGERPRINT_WINDOW_MS { return Some(id); }
      }
      return None;
    }

    /** Counting the active sessions one by one gives the size of the set of active ids. */
    method ActiveCount(now: int) returns (n: nat)
      requires Distinct(order)
      ensures n == |ActiveIds(Snapshot(), now)|
    {
      n := 0;
      ghost var seen: set<SessionId> := {};
      for i := 0 to |order|
        invariant n == |seen|
        invariant seen == set id | id in order[..i] && id in records && IsActive(records[id], now, policy.idleTimeoutMs)
      {
        var id := order[i];
        assert id !in order[..i];
        assert order[..i + 1] == order[..i] + [id];
        if id in records && IsActive(records[id], now, policy.idleTimeoutMs) {
          n := n + 1;
          seen := seen + {id};
        }
      }
      assert order[..|order|] == order;
      assert seen == ActiveIds(Snapshot(), now);
    }

    method Capacity(now: int) returns (ok: bool)
      requires Distinct(order)
      ensures ok == HasCapacity(Snapshot(), now)
    {
      if policy.maxUsers <= 0 { return true; }
      var n := ActiveCount(now);
      return n < policy.maxUsers;
    }

    // ── sessions ────────────────────────────────────────────

    method Create(id: SessionId, v: Visit, now: int, invited: bool)
      requires id !in records && id !in order
      modifies this
      ensures var t := old(Snapshot());
        Snapshot() == Put(t.(order := t.order + [id]), id, NewSession(v, now, invited, v.token.Some?))
    {
      records := records[id := NewSession(v, now, invited, v.token.Some?)];
      order := order + [id];
    }

    method TouchSession(id: SessionId, viaCookie: bool, now: int)
      requires id in records
      modifies this
      ensures var t := old(Snapshot()); Snapshot() == Put(t, id, Touch(t.records[id], viaCookie, now))
    {
      var s := records[id];
      var wasActive := IsActive(s, now, policy.idleTimeoutMs);
      s := s.(lastSeenAt := now, requests := s.requests + 1);
      if viaCookie && !s.cookieConfirmed { s := s.(cookieConfirmed := true); }
      if !wasActive || s.status != Active { s := s.(status := Active); }
      records := records[id := s];
    }

    method BeginStream(id: SessionId)
      requires id in records
      modifies this
      ensures var t := old(Snapshot());
        Snapshot() == Put(t, id, t.records[id].(openConnections := t.records[id].openConnections + 1))
    {
      records := records[id := records[id].(openConnections := records[id].openConnections + 1)];
    }

    method FinishStream(id: SessionId, now: int)
      requires id in records
      modifies this
      ensures var t := old(Snapshot()); Snapshot() == Put(t, id, EndStream(t.records[id], now))
    {
      var n := records[id].openConnections - 1;
      records := records[id := records[id].(openConnections := if n > 0 then n else 0, lastSeenAt := now)];
    }

    method AttachSocket(id: SessionId, h: SocketId)
      requires id in records
      modifies this
      ensures var t := old(Snapshot()); Snapshot() == Put(t, id, t.records[id].(sockets := t.records[id].sockets + {h}))
    {
      records := records[id := records[id].(sockets := records[id].sockets + {h})];
    }

    method DetachSocket(id: SessionId, h: SocketId, now: int)
      requires id in records
      modifies this
      ensures var t := old(Snapshot()); Snapshot() == Put(t, id, Detach(t.records[id], h, now))
    {
      records := records[id := records[id].(sockets := records[id].sockets - {h})];
      records := records[id := records[id].(lastSeenAt := now)];
    }

    /** Ends a session at once; the result tells whether there was one. */
    method EndSession(id: SessionId, block: bool) returns (found: bool)
      modifies this
      ensures Snapshot() == End(old(Snapshot()), id, block) && found == Listed(old(Snapshot()), id)
    {
      if !Holds(id) { return false; }
      var s := records[id];
      records := records[id := s.(ended := true, status := Closed, sockets := {})];
      if block { blocked := blocked + {s.address}; }
      return true;
    }

    /** The records once the sweep has passed the first `i` ids of the order. */
    static ghost function Swept(t: Table, now: int, i: nat): map<SessionId, Session>
      requires i <= |t.order|
    {
      map id | id in t.records :: if id in t.order[..i] then SweepSession(t.records[id], now, t.policy) else t.records[id]
    }

    static lemma SweptOneMore(t: Table, now: int, i: nat)
      requires TableOk(t) && i < |t.order|
      ensures var id := t.order[i];
        && id in Swept(t, now, i) && Swept(t, now, i)[id] == t.records[id]
        && Swept(t, now, i + 1) == Swept(t, now, i)[id := SweepSession(t.records[id], now, t.policy)]
        && Survivors(t.order[..i + 1], t.records, now, t.policy) ==
             Survivors(t.order[..i], t.records, now, t.policy) + (if Forgotten(t.records[id], now, t.policy) then [] else [id])
    {
      hide SweepSession, Forgotten;
      assert t.order[i] !in t.order[..i];
      assert t.order[..i + 1] == t.order[..i] + [t.order[i]];
    }

    static lemma SweptAll(t: Table, now: int)
      ensures Swept(t, now, |t.order|) == Sweep(t, now).records
      ensures Survivors(t.order[..|t.order|], t.records, now, t.policy) == Sweep(t, now).order
    {
      hide SweepSession, Survivors;
      assert t.order[..|t.order|] == t.order;
    }

    static lemma SweptNothing(t: Table, now: int)
      ensures Swept(t, now, 0) == t.records && Survivors(t.order[..0], t.records, now, t.policy) == []
    {}

    /** The periodic sweep: idle sessions are marked, long idle ones forgotten. */
    method SweepSessions(now: int)
      requires TableOk(Snapshot())
      modifies this
      ensures Snapshot() == Sweep(old(Snapshot()), now)
    {
      hide SweepSession, Forgotten, Survivors, Swept;
      ghost var t := Snapshot();
      var ids, kept := order, [];
      SweptNothing(t, now);
      for i := 0 to |ids|
        invariant Snapshot() == t.(records := Swept(t, now, i))
        invariant kept == Survivors(ids[..i], t.records, now, t.policy)
      {
        SweptOneMore(t, now, i);
        var keep := SweepOne(ids[i], now);
        if keep { kept := kept + [ids[i]]; }
      }
      SweptAll(t, now);
      order := kept;
    }

    method SweepOne(id: SessionId, now: int) returns (keep: bool)
      requires id in records
      modifies this
      ensures var t := old(Snapshot());
        && Snapshot() == Put(t, id, SweepSession(t.records[id], now, t.policy))
        && keep == !Forgotten(t.records[id], now, t.policy)
    {
      var s := records[id];
      if s.ended { records := records[id := s]; return true; }
      var active := IsActive(s, now, policy.idleTimeoutMs);
      if !active && s.status == Active { s := s.(status := Idle); }
      keep := active || now - s.lastSeenAt <= policy.retentionMs;
      if !keep { s := s.(status := Closed); }
      records := records[id := s];
    }

    // ── invites ─────────────────────────────────────────────

    /** Uses up an invite once, if the token belongs to one that can still be used. */
    method RedeemToken(hash: TokenHash, now: int) returns (ok: bool)
      modifies this
      ensures var t := old(Snapshot()); var r := Redeem(t.invites, hash, now);
        ok == r.Some? && Snapshot() == if ok then t.(invites := r.value) else t
    {
      for i := 0 to |invites|
        invariant Snapshot() == old(Snapshot())
        invariant FindInvite(invites, hash, 0) == FindInvite(invites, hash, i)
      {
        if invites[i].hash != hash { continue; }
        var inv := invites[i];
        if inv.revoked || inv.expiresAt < now || inv.uses >= inv.maxUses { return false; }
        invites := invites[i := inv.(uses := inv.uses + 1)];
        return true;
      }
      return false;
    }

    /** Marks every session that has not ended as invited, as the engine does before it turns protected mode on. */
    method InviteEveryone()
      requires Distinct(order)
      modifies this
      ensures Snapshot() == Grandfather(old(Snapshot()))
    {
      ghost var t := Snapshot();
      for i := 0 to |order|
        invariant policy == t.policy && order == t.order && blocked == t.blocked && invites == t.invites
        invariant records.Keys == t.records.Keys
        invariant forall id :: id in records ==>
          records[id] == if id in order[..i] && !t.records[id].ended then t.records[id].(invited := true) else t.records[id]
      {
        var id := order[i];
        assert id !in order[..i] && order[..i + 1] == order[..i] + [id];
        if id in records && !records[id].ended { records := records[id := records[id].(invited := true)]; }
      }
      assert order[..|order|] == order;
      assert records == Grandfather(t).records;
    }

    // ── admission ───────────────────────────────────────────

    /** The verdict on a request, and everything that changes while it is reached. */
    method AdmitVisit(v: Visit, now: int, newId: SessionId) returns (w: Verdict)
      requires TableOk(Snapshot()) && newId !in records && newId !in order
      modifies this
      ensures (Snapshot(), w) == Admit(old(Snapshot()), v, now, newId)
    {
      hide Seat, Redeem;
      if v.address in blocked { return Denied(Blocked); }
      var viaCookie := v.cookie.Some? && Holds(v.cookie.value);
      if viaCookie && records[v.cookie.value].ended { return Denied(EndedSession); }
      var found := v.cookie;
      if !viaCookie { found := FindByFingerprint(v.fingerprint, now); }
      var invited := found.Some? && records[found.value].invited;
      if v.token.Some? {
        var ok := RedeemToken(v.token.value, now);
        if !ok { return Denied(InviteInvalid); }
        invited := true;
        MarkFound(found);
      }
      w := TakeSeat(v, found, viaCookie, invited, now, newId);
    }

    method MarkFound(found: Option<SessionId>)
      requires found.Some? ==> Holds(found.value)
      modifies this
      ensures var t := old(Snapshot()); Snapshot() == MarkInvited(t, found, t.invites)
    {
      if found.Some? {
        records := records[found.value := records[found.value].(invited := true, redeemed := true)];
      }
    }

    method TakeSeat(v: Visit, found: Option<SessionId>, viaCookie: bool, invited: bool, now: int, newId: SessionId)
      returns (w: Verdict)
      requires Distinct(order) && (found.Some? ==> Holds(found.value)) && newId !in records && newId !in order
      modifies this
      ensures (Snapshot(), w) == Seat(old(Snapshot()), v, found, viaCookie, invited, now, newId)
    {
      if policy.mode == Protected && !invited { return Denied(NotInvited); }
      if found.None? || !IsActive(records[found.value], now, policy.idleTimeoutMs) {
        var room := Capacity(now);
        if !room { return Denied(Limit); }
      }
      if found.Some? {
        TouchSession(found.value, viaCookie, now);
        return Admitted(found.value);
      }
      ghost var t := Snapshot();
      Create(newId, v, now, invited);
      TouchSession(newId, viaCookie, now);
      ghost var s := NewSession(v, now, invited, v.token.Some?);
      assert t.records[newId := s][newId := Touch(s, viaCookie, now)] == t.records[newId := Touch(s, viaCookie, now)];
      return Admitted(newId);
    }
  }

  /** The gateway with the engine's side of its configuration. */
  class GatewayServer {
    const table: SessionTable
    const limits: Limits
    var clock: int
    var available: bool
    var inflight: map<SessionId, int>
    var streams: map<RequestId, Stream>
    var owner: map<SocketId, SessionId>
    var project: Policy
    var attached: bool

    ghost function Snapshot(): Gateway
      reads this, table
    {
      Gateway(table.Snapshot(), clock, available, inflight, streams, owner, limits, project, attached)
    }

    /** Exact accounting and all limits, in every state of the object. */
    ghost predicate Valid()
      reads this, table
    {
      Inv(Snapshot()) && Runs.IdleFixed(Snapshot())
    }

    /** A limit of users is set, and with it at most this many may be active. */
    ghost function Cap(): nat
      reads this, table
    {
      var g := Snapshot();
      var n := |Runs.ActiveNow(g)|;
      if g.table.policy.maxUsers > n then g.table.policy.maxUsers else n
    }

    constructor (policy: Policy, now: int, limits: Limits)
      ensures Valid() && Snapshot() == NewGateway(policy, now, limits) && fresh(table)
    {
      table := new SessionTable(policy);
      this.limits := limits;
      clock, available, inflight, streams, owner := now, false, map[], map[], map[];
      project, attached := policy, false;
      new;
      Runs.NewGatewayOk(policy, now, limits);
    }

    /**
     * `handle`, for a request that passed the probe, rate, size and path checks. With a limit of users set, it does not
     * take the active ones above the limit, or above what they were.
     */
    method HandleVisit(v: Visit, r: RequestId, newId: SessionId) returns (proxied: bool)
      requires Valid() && r !in streams && newId !in table.records && newId !in table.order
      modifies this, table
      ensures Valid() && Snapshot() == HandleRequest(old(Snapshot()), v, r, newId) && (proxied <==> r in streams)
      ensures old(table.policy).maxUsers > 0 ==> |Runs.ActiveNow(Snapshot())| <= old(Cap())
    {
      hide Admit, Inv, Runs.ActiveNow, Runs.IdleFixed;
      ghost var g := Snapshot();
      RequestKeeps(g, v, r, newId);
      Runs.IdleStaysFixed(g, Request(v, r, newId, true));
      if table.policy.maxUsers > 0 { Runs.RequestIsCapped(g, v, r, newId); }
      TableIsOk(g);
      proxied := Serve(v, r, newId);
    }

    /** What the rest of `handle` comes to, once a visit has been admitted. */
    static lemma ServeShows(g: Gateway, v: Visit, r: RequestId, newId: SessionId)
      ensures var (t, w) := Admit(g.table, v, g.now, newId);
        HandleRequest(g, v, r, newId) ==
          if w.Denied? || v.token.Some? || !g.available || w.session !in t.records
             || Inflight(g, w.session) >= g.limits.maxConcurrent then g.(table := t)
          else
            var s := t.records[w.session];
            g.(inflight := g.inflight[w.session := Inflight(g, w.session) + 1],
               streams := g.streams[r := Stream(w.session, false)],
               table := Put(t, w.session, s.(openConnections := s.openConnections + 1)))
    {
      hide Admit;
    }

    method Serve(v: Visit, r: RequestId, newId: SessionId) returns (proxied: bool)
      requires r !in streams && TableOk(table.Snapshot()) && newId !in table.records && newId !in table.order
      modifies this, table
      ensures Snapshot() == HandleRequest(old(Snapshot()), v, r, newId) && (proxied <==> r in streams)
    {
      hide Admit, HandleRequest, TableOk;
      ghost var t := table.Snapshot();
      AdmitHasShape(t, v, clock, newId);
      ServeShows(Snapshot(), v, r, newId);
      var verdict := table.AdmitVisit(v, clock, newId);
      if verdict.Denied? { return false; }
      if v.token.Some? || !available { return false; }
      var id := verdict.session;
      var n := if id in inflight then inflight[id] else 0;
      if n >= limits.maxConcurrent { return false; }
      inflight := inflight[id := n + 1];
      streams := streams[r := Stream(id, false)];
      table.BeginStream(id);
      return true;
    }

    /** `done`: the first call counts, later ones do nothing. */
    method Done(r: RequestId)
      requires Valid() && r in streams
      modifies this, table
      ensures Valid() && Snapshot() == Access.FinishStream(old(Snapshot()), r)
    {
      hide Inv, Runs.IdleFixed;
      ghost var g := Snapshot();
      StreamHasSession(g, r);
      FinishKeeps(g, r);
      Runs.IdleStaysFixed(g, StreamFails(r));
      FinishOnce(r);
    }

    method FinishOnce(r: RequestId)
      requires r in streams && streams[r].session in table.records
      modifies this, table
      ensures Snapshot() == Access.FinishStream(old(Snapshot()), r)
    {
      if streams[r].finished { return; }
      var id := streams[r].session;
      streams := streams[r := Stream(id, true)];
      table.FinishStream(id, clock);
    }

    /** The response closes: one request less in flight, and `done` if it has not run. */
    method ResponseClosed(r: RequestId)
      requires Valid() && r in streams
      modifies this, table
      ensures Valid() && Snapshot() == CloseResponse(old(Snapshot()), r)
    {
      hide Inv, Runs.IdleFixed;
      ghost var g := Snapshot();
      StreamHasSession(g, r);
      CloseKeeps(g, r);
      Runs.IdleStaysFixed(g, ResponseCloses(r));
      CloseOnce(r);
    }

    method CloseOnce(r: RequestId)
      requires r in streams && streams[r].session in table.records
      modifies this, table
      ensures Snapshot() == CloseResponse(old(Snapshot()), r)
    {
      var id := streams[r].session;
      var n := (if id in inflight then inflight[id] else 1) - 1;
      if n <= 0 { inflight := inflight - {id}; } else { inflight := inflight[id := n]; }
      FinishOnce(r);
      streams := streams - {r};
    }

    /** `upgrade`, for a request that passed the path and rate checks; it keeps to the limit of users as `handle` does. */
    method UpgradeVisit(v: Visit, h: SocketId, newId: SessionId) returns (open: bool)
      requires Valid() && h !in owner && newId !in table.records && newId !in table.order
      modifies this, table
      ensures Valid() && Snapshot() == UpgradeSocket(old(Snapshot()), v, h, newId) && (open <==> h in owner)
      ensures old(table.policy).maxUsers > 0 ==> |Runs.ActiveNow(Snapshot())| <= old(Cap())
    {
      hide Admit, Inv, Runs.ActiveNow, Runs.IdleFixed;
      ghost var g := Snapshot();
      UpgradeKeeps(g, v, h, newId);
      Runs.IdleStaysFixed(g, Upgrade(v, h, newId, true));
      if table.policy.maxUsers > 0 { Runs.UpgradeIsCapped(g, v, h, newId); }
      TableIsOk(g);
      open := Connect(v, h, newId);
    }

    static lemma TableIsOk(g: Gateway)
      requires Inv(g)
      ensures TableOk(g.table)
    {}

    method Connect(v: Visit, h: SocketId, newId: SessionId) returns (open: bool)
      requires h !in owner && TableOk(table.Snapshot()) && newId !in table.records && newId !in table.order
      modifies this, table
      ensures Snapshot() == UpgradeSocket(old(Snapshot()), v, h, newId) && (open <==> h in owner)
    {
      hide Admit;
      ghost var t := table.Snapshot();
      AdmitHasShape(t, v.(token := None), clock, newId);
      var verdict := table.AdmitVisit(v.(token := None), clock, newId);
      if verdict.Denied? { return false; }
      if !available { return false; }
      var id := verdict.session;
      if |table.records[id].sockets| >= limits.maxSockets { return false; }
      owner := owner[h := id];
      table.AttachSocket(id, h);
      return true;
    }

    /** One of the four events after which a connection is given up; the socket may be detached already. */
    method CleanedUp(h: SocketId)
      requires Valid() && h in owner
      modifies table
      ensures Valid() && Snapshot() == CleanupSocket(old(Snapshot()), h)
    {
      ghost var g := Snapshot();
      CleanupKeeps(g, h);
      Runs.IdleStaysFixed(g, Cleanup(h));
      table.DetachSocket(owner[h], h, clock);
    }

    /** The engine's `updateAccess` on this gateway. */
    method UpdateAccessPolicy(mode: Option<Mode>, maxUsers: Option<int>)
      requires Valid()
      modifies this, table
      ensures Valid() && Snapshot() == UpdatePolicy(old(Snapshot()), mode, maxUsers)
    {
      hide Inv, Runs.IdleFixed;
      ghost var g := Snapshot();
      PolicyKeeps(g, mode, maxUsers);
      Runs.IdleStaysFixed(g, UpdateAccess(mode, maxUsers));
      TableIsOk(g);
      ApplyPolicy(mode, maxUsers);
    }

    method ApplyPolicy(mode: Option<Mode>, maxUsers: Option<int>)
      requires TableOk(table.Snapshot())
      modifies this, table
      ensures Snapshot() == UpdatePolicy(old(Snapshot()), mode, maxUsers)
    {
      if mode == Some(Protected) && project.mode != Protected && attached { table.InviteEveryone(); }
      if mode.Some? { project := project.(mode := mode.value); }
      if maxUsers.Some? { project := project.(maxUsers := maxUsers.value); }
      if attached { table.policy := project; }
    }
  }
}
