/** What a client can count on: when it is served, what its session remembers, and how long an invite works. */
module AccessHistory {
  import opened Wrappers
  import opened Access
  import opened AccessInvariants
  import opened AccessAdmission
  import Invites = AccessInvites
  import Runs = AccessRuns

  // ── when a request is served ──────────────────────────────

  /** The visit is admitted as this session. */
  ghost predicate AdmittedAs(t: Table, v: Visit, now: int, newId: SessionId, id: SessionId) {
    && Refusal(t, v, now) == None
    && if exists x :: BelongsTo(t, v, now, x) then BelongsTo(t, v, now, id) else id == newId
  }

  ghost function RequestsOf(g: Gateway, id: SessionId): set<RequestId> {
    set r | r in g.streams && g.streams[r].session == id
  }

  lemma AdmitsAs(t: Table, v: Visit, now: int, newId: SessionId, id: SessionId)
    ensures Admit(t, v, now, newId).1 == Admitted(id) <==> AdmittedAs(t, v, now, newId, id)
  {
    hide Admit, Refusal, BelongsTo, UsersNow;
    AdmitIffEntitled(t, v, now, newId);
    if AdmittedAs(t, v, now, newId, id) {
      var w := Admit(t, v, now, newId).1;
      if x :| BelongsTo(t, v, now, x) { OneOwner(t, v, now, id, w.session); }
    }
  }

  lemma InflightIsCounted(g: Gateway, id: SessionId)
    requires Inv(g)
    ensures Inflight(g, id) == |RequestsOf(g, id)|
  {
    assert RequestsOf(g, id) == Requests(g.streams, id, false);
    if id in g.table.records { assert Accounted(g, id); } else { assert RequestsOf(g, id) == {}; }
  }

  /**
   * A request that reaches the admission is proxied if and only if it is admitted, does not just trade in a token, the
   * application is available, and its session has fewer requests in flight than allowed.
   */
  lemma ProxiedIff(g: Gateway, v: Visit, r: RequestId, newId: SessionId, id: SessionId)
    requires Inv(g) && r !in g.streams && newId !in g.table.records && newId !in g.table.order
    ensures var g' := Step(g, Request(v, r, newId, true));
      (r in g'.streams && g'.streams[r] == Stream(id, false)) <==>
      (AdmittedAs(g.table, v, g.now, newId, id) && v.token.None? && g.available && |RequestsOf(g, id)| < g.limits.maxConcurrent)
    ensures var g' := Step(g, Request(v, r, newId, true));
      && (forall q :: q in g.streams ==> q in g'.streams && g'.streams[q] == g.streams[q]) && g'.streams.Keys <= g.streams.Keys + {r}
      && (r in g'.streams ==> var s := g'.streams[r].session; s in g'.table.records && g'.table.records[s].openConnections > 0)
  {
    hide Admit, AdmittedAs, RequestsOf, Inv, TableOk, Accounted;
    AdmitsAs(g.table, v, g.now, newId, id);
    InflightIsCounted(g, id);
    assert TableOk(g.table) by { InvHasTable(g); }
    AdmitHasShape(g.table, v, g.now, newId);
    RequestKeeps(g, v, r, newId);
    CountedIsOpen(Step(g, Request(v, r, newId, true)), r);
  }

  lemma InvHasTable(g: Gateway)
    requires Inv(g)
    ensures TableOk(g.table)
  {}

  lemma CountedIsOpen(g: Gateway, r: RequestId)
    requires Inv(g)
    ensures r in g.streams && !g.streams[r].finished ==>
      g.streams[r].session in g.table.records && g.table.records[g.streams[r].session].openConnections > 0
  {
    hide Distinct;
    if r in g.streams && !g.streams[r].finished {
      var id := g.streams[r].session;
      assert Accounted(g, id);
      assert r in Requests(g.streams, id, true);
    }
  }

  /** An upgrade is attached if and only if it is admitted, without its token, and its session has a socket left. */
  lemma AttachedIff(g: Gateway, v: Visit, h: SocketId, newId: SessionId, id: SessionId)
    requires Inv(g) && h !in g.owner && newId !in g.table.records && newId !in g.table.order
    ensures var g' := Step(g, Upgrade(v, h, newId, true));
      (h in g'.owner && g'.owner[h] == id && id in g'.table.records && h in g'.table.records[id].sockets) <==>
      (AdmittedAs(g.table, v.(token := None), g.now, newId, id) && g.available
       && (if id in g.table.records then |g.table.records[id].sockets| else 0) < g.limits.maxSockets)
  {
    hide Admit, AdmittedAs, Inv, TableOk, Accounted;
    AdmitsAs(g.table, v.(token := None), g.now, newId, id);
    assert TableOk(g.table) by { InvHasTable(g); }
    AdmitHasShape(g.table, v.(token := None), g.now, newId);
  }

  // ── when a client was heard of last ───────────────────────

  /** The event is a sign of life of this session: an admitted visit, the end of a stream, or a close of a socket. */
  ghost predicate SignOfLife(g: Gateway, e: Event, id: SessionId) {
    match e
    case Request(v, r, newId, passes) =>
      passes && r !in g.streams && newId !in g.table.records && newId !in g.table.order && AdmittedAs(g.table, v, g.now, newId, id)
    case Upgrade(v, h, newId, passes) =>
      passes && h !in g.owner && newId !in g.table.records && newId !in g.table.order
      && AdmittedAs(g.table, v.(token := None), g.now, newId, id)
    case StreamFails(r) => r in g.streams && !g.streams[r].finished && g.streams[r].session == id
    case ResponseCloses(r) => r in g.streams && !g.streams[r].finished && g.streams[r].session == id
    case Cleanup(h) => h in g.owner && g.owner[h] == id
    case _ => false
  }

  /** When a run last heard of this session. */
  ghost function LastHeard(g: Gateway, events: seq<Event>, id: SessionId): Option<int> {
    if events == [] then None
    else
      var before, e := events[..|events| - 1], events[|events| - 1];
      if SignOfLife(Run(g, before), e, id) then Some(Run(g, before).now) else LastHeard(g, before, id)
  }

  lemma VisitIsHeard(g: Gateway, v: Visit, newId: SessionId, id: SessionId)
    requires newId !in g.table.records
    ensures var t' := Admit(g.table, v, g.now, newId).0;
      && (AdmittedAs(g.table, v, g.now, newId, id) ==> id in t'.records && t'.records[id].lastSeenAt == g.now)
      && (!AdmittedAs(g.table, v, g.now, newId, id) ==>
            if id in g.table.records then id in t'.records && t'.records[id].lastSeenAt == g.table.records[id].lastSeenAt
            else id !in t'.records)
  {
    hide Admit, AdmittedAs, BelongsTo, InviteUsed, UsesToken;
    AdmitsAs(g.table, v, g.now, newId, id);
    AdmissionLeaves(g.table, v, g.now, newId);
  }

  lemma ArrivalIsHeard(g: Gateway, e: Event, id: SessionId)
    requires e.Request? || e.Upgrade?
    ensures var r := Step(g, e).table.records;
      if SignOfLife(g, e, id) then id in r && r[id].lastSeenAt == g.now
      else if id in g.table.records then id in r && r[id].lastSeenAt == g.table.records[id].lastSeenAt
      else id !in r
  {
    hide Admit, AdmittedAs;
    var v := if e.Request? then e.visit else e.visit.(token := None);
    if e.newId !in g.table.records { VisitIsHeard(g, v, e.newId, id); }
  }

  /** The end of a stream, or a close. */
  predicate Closes(e: Event) {
    e.StreamFails? || e.ResponseCloses? || e.Cleanup?
  }

  lemma ClosesAreHeard(g: Gateway, e: Event, id: SessionId)
    requires Inv(g) && Closes(e)
    ensures var r := Step(g, e).table.records;
      if SignOfLife(g, e, id) then id in r && r[id].lastSeenAt == g.now
      else if id in g.table.records then id in r && r[id].lastSeenAt == g.table.records[id].lastSeenAt
      else id !in r
  {
    hide Sweep, Remove, Revoke, Accounted, TableOk, Grandfather, End;
  }

  lemma OthersAreSilent(g: Gateway, e: Event, id: SessionId)
    requires !e.Request? && !e.Upgrade? && !Closes(e)
    ensures var r := Step(g, e).table.records;
      (id in r <==> id in g.table.records) && (id in r ==> r[id].lastSeenAt == g.table.records[id].lastSeenAt)
  {
    hide Survivors, Remove, Revoke;
  }

  lemma SilentEvents(g: Gateway, e: Event, id: SessionId)
    requires !e.Request? && !e.Upgrade? && !Closes(e)
    ensures !SignOfLife(g, e, id)
  {}

  /** In every run the time a session was last seen is the time of its last sign of life. */
  lemma {:induction false} SeenIsHistory(p: Policy, now: int, limits: Limits, events: seq<Event>, id: SessionId)
    ensures var (g, heard) := (NewGateway(p, now, limits), LastHeard(NewGateway(p, now, limits), events, id));
      var records := Run(g, events).table.records;
      (id in records <==> heard.Some?) && (id in records ==> records[id].lastSeenAt == heard.value)
  {
    hide Step, SignOfLife, Inv;
    var g := NewGateway(p, now, limits);
    if events != [] {
      var (before, e) := (events[..|events| - 1], events[|events| - 1]);
      SeenIsHistory(p, now, limits, before, id);
      Runs.NewGatewayOk(p, now, limits);
      RunKeeps(g, before);
      var u := Run(g, before);
      if e.Request? || e.Upgrade? {
        ArrivalIsHeard(u, e, id);
      } else if Closes(e) {
        ClosesAreHeard(u, e, id);
      } else {
        OthersAreSilent(u, e, id);
        assert !SignOfLife(u, e, id) by { SilentEvents(u, e, id); }
      }
    }
  }

  // ── how long an invite works ──────────────────────────────

  lemma RevokedOnlyByName(g: Gateway, e: Event, i: nat)
    requires i < |g.table.invites|
    ensures i < |Step(g, e).table.invites|
    ensures Step(g, e).table.invites[i].revoked <==> g.table.invites[i].revoked || e == RevokeInvite(g.table.invites[i].id)
  {
    hide Step, Admit;
    Invites.StepInvitesLater(g, e);
    if e.Request? || e.Upgrade? {
      ArrivalRevokesNothing(g, e, i);
    } else {
      OthersRevoke(g, e, i);
    }
  }

  lemma ArrivalRevokesNothing(g: Gateway, e: Event, i: nat)
    requires (e.Request? || e.Upgrade?) && i < |g.table.invites|
    ensures i < |Step(g, e).table.invites| && Step(g, e).table.invites[i].revoked == g.table.invites[i].revoked
  {
    hide Admit;
    AdmitRevokesNothing(g.table, if e.Request? then e.visit else e.visit.(token := None), g.now, e.newId, i);
  }

  lemma AdmitRevokesNothing(t: Table, v: Visit, now: int, newId: SessionId, i: nat)
    requires i < |t.invites|
    ensures var t' := Admit(t, v, now, newId).0; i < |t'.invites| && t'.invites[i].revoked == t.invites[i].revoked
  {}

  lemma OthersRevoke(g: Gateway, e: Event, i: nat)
    requires !e.Request? && !e.Upgrade? && i < |g.table.invites|
    ensures i < |Step(g, e).table.invites|
    ensures Step(g, e).table.invites[i].revoked <==> g.table.invites[i].revoked || e == RevokeInvite(g.table.invites[i].id)
  {
    hide Sweep, End, Remove, EndStream, Detach, Grandfather;
    if e.SweepTimer? { Invites.SweepKeepsInvites(g.table, g.now); }
    if e.Disconnect? { Invites.EndKeepsInvites(g.table, e.session, e.block); }
    if e.UpdateAccess? { Invites.GrandfatherKeepsInvites(g.table); }
  }

  lemma {:induction false} InvitesKeepTheirTerms(g: Gateway, more: seq<Event>, i: nat)
    requires i < |g.table.invites|
    ensures var r := Run(g, more);
      i < |r.table.invites|
      && var (a, b) := (g.table.invites[i], r.table.invites[i]);
         b.id == a.id && b.hash == a.hash && b.expiresAt == a.expiresAt && b.maxUses == a.maxUses
         && (b.revoked <==> a.revoked || RevokeInvite(a.id) in more)
  {
    hide Step;
    if more != [] {
      var n := |more| - 1;
      assert more == more[..n] + [more[n]];
      InvitesKeepTheirTerms(g, more[..n], i);
      var p := Run(g, more[..n]);
      Invites.StepInvitesLater(p, more[n]);
      RevokedOnlyByName(p, more[n], i);
    } else {
      assert Run(g, more) == g;
    }
  }

  lemma FirstDecides(invites: seq<Invite>, hash: TokenHash, now: int, i: nat)
    requires i < |invites| && invites[i].hash == hash && forall j :: 0 <= j < i ==> invites[j].hash != hash
    ensures ValidToken(invites, hash, now) <==> !invites[i].revoked && now <= invites[i].expiresAt && invites[i].uses < invites[i].maxUses
  {
    assert NotBefore(invites, hash, i);
  }

  lemma InviteIsMade(g: Gateway, id: string, hash: TokenHash, ttl: int, max: int)
    ensures Step(g, CreateInvite(id, hash, ttl, max)).table.invites == g.table.invites + [Invite(id, hash, g.now + ttl, max, 0, false)]
  {}

  /**
   * A new invite works for exactly as long as it was made for, and as often, unless it is revoked: in every continuation a
   * visit with its token is let through the invite check under this condition and no other.
   */
  lemma InviteLasts(g: Gateway, id: string, hash: TokenHash, ttl: int, max: int, more: seq<Event>)
    requires forall j :: 0 <= j < |g.table.invites| ==> g.table.invites[j].hash != hash
    ensures var (r, i) := (Run(Step(g, CreateInvite(id, hash, ttl, max)), more), |g.table.invites|);
      && i < |r.table.invites|
      && (ValidToken(r.table.invites, hash, r.now) <==>
            r.now <= g.now + ttl && RevokeInvite(id) !in more && r.table.invites[i].uses < max)
  {
    hide Step, Run, ValidToken;
    var g1 := Step(g, CreateInvite(id, hash, ttl, max));
    InviteIsMade(g, id, hash, ttl, max);
    var (r, i) := (Run(g1, more), |g.table.invites|);
    InvitesKeepTheirTerms(g1, more, i);
    forall j | 0 <= j < i ensures r.table.invites[j].hash != hash { InvitesKeepTheirTerms(g1, more, j); }
    FirstDecides(r.table.invites, hash, r.now, i);
  }

  // ── what the operator changes ─────────────────────────────

  /** The new mode and limit are the project's at once, and the gateway's if it is attached; nothing else of either changes. */
  lemma PolicyIsSet(g: Gateway, mode: Option<Mode>, maxUsers: Option<int>)
    ensures var r := Step(g, UpdateAccess(mode, maxUsers));
      && r.project.mode == (if mode.Some? then mode.value else g.project.mode)
      && r.project.maxUsers == (if maxUsers.Some? then maxUsers.value else g.project.maxUsers)
      && r.project.idleTimeoutMs == g.project.idleTimeoutMs && r.project.retentionMs == g.project.retentionMs
      && r.table.policy == (if g.attached then r.project else g.table.policy)
      && r.table.order == g.table.order && r.table.blocked == g.table.blocked && r.table.invites == g.table.invites
      && r.table.records.Keys == g.table.records.Keys
      && var closes := g.attached && mode == Some(Protected) && g.project.mode != Protected;
         forall id :: id in g.table.records ==>
           var s := g.table.records[id];
           r.table.records[id] == s.(invited := s.invited || (closes && id in g.table.order && !s.ended))
  {}

  /** The other switches, each of which changes one thing. */
  lemma SwitchesAreSet(g: Gateway, value: bool, ms: nat)
    ensures Step(g, SetAvailable(value)) == g.(available := value)
    ensures Step(g, Attach) == g.(attached := true) && Step(g, Tick(ms)).now == g.now + ms
    ensures Step(g, Stop).table.order == [] && Step(g, Stop).table.records == g.table.records
  {}

  /** The tombstone of an ended session is removed after its time, and only that. */
  lemma TombstoneGoes(g: Gateway, id: SessionId, other: SessionId)
    requires TableOk(g.table)
    ensures var r := Step(g, TombstoneTimer(id));
      && r.table.records == g.table.records
      && (other in r.table.order <==>
            other in g.table.order && !(other == id && id in g.table.records && g.table.records[id].ended))
  {
    RemoveShape(g.table.order, id);
  }
}
