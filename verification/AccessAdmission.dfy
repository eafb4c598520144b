/** Who gets in and who is forgotten, stated without the steps that decide it. */
module AccessAdmission {
  import opened Wrappers
  import opened Access
  import opened AccessInvariants
  import AccessRuns

  // ── whose session it is ───────────────────────────────────

  /** Milliseconds after its creation in which a session whose cookie came back is still shared. */
  const SHARED_FOR := 15_000

  predicate BringsCookie(t: Table, v: Visit) {
    v.cookie.Some? && v.cookie.value in t.order && v.cookie.value in t.records
  }

  /** Same address and agent, not closed, and either its client never sends cookies back or it is very new. */
  predicate MayShare(t: Table, v: Visit, now: int, id: SessionId) {
    id in t.records
    && var s := t.records[id];
       s.fingerprint == v.fingerprint && !s.ended && s.status != Closed && (s.cookieConfirmed ==> now - s.connectedAt < SHARED_FOR)
  }

  /** The session of the cookie; without one that is known, the oldest that may be shared. */
  ghost predicate BelongsTo(t: Table, v: Visit, now: int, id: SessionId) {
    if BringsCookie(t, v) then id == v.cookie.value
    else exists i :: 0 <= i < |t.order| && t.order[i] == id && SharesFirst(t, v, now, i)
  }

  ghost predicate SharesFirst(t: Table, v: Visit, now: int, i: int)
    requires 0 <= i < |t.order|
  {
    MayShare(t, v, now, t.order[i]) && forall j :: 0 <= j < i ==> !MayShare(t, v, now, t.order[j])
  }

  lemma {:induction false} SharedIsFirst(t: Table, v: Visit, now: int, from: nat)
    requires !BringsCookie(t, v) && from <= |t.order|
    requires forall j :: 0 <= j < from ==> !MayShare(t, v, now, t.order[j])
    ensures var r := ByFingerprint(t, v.fingerprint, now, from);
      if r.Some? then BelongsTo(t, v, now, r.value) else forall id :: !BelongsTo(t, v, now, id)
    decreases |t.order| - from
  {
    if from < |t.order| {
      if MayShare(t, v, now, t.order[from]) {
        assert SharesFirst(t, v, now, from);
      } else {
        SharedIsFirst(t, v, now, from + 1);
      }
    }
  }

  lemma OneOwner(t: Table, v: Visit, now: int, a: SessionId, b: SessionId)
    requires BelongsTo(t, v, now, a) && BelongsTo(t, v, now, b)
    ensures a == b
  {}

  lemma LookupFindsOwner(t: Table, v: Visit, now: int)
    ensures var r := Lookup(t, v, now);
      && (r.Some? ==> BelongsTo(t, v, now, r.value))
      && (forall id :: BelongsTo(t, v, now, id) ==> r == Some(id))
  {
    if !BringsCookie(t, v) { SharedIsFirst(t, v, now, 0); }
    var r := Lookup(t, v, now);
    assert r.Some? ==> BelongsTo(t, v, now, r.value);
    hide BelongsTo, Lookup;
    forall id | BelongsTo(t, v, now, id) ensures r == Some(id) {
      if r.Some? { OneOwner(t, v, now, id, r.value); } else { OwnerIsFound(t, v, now, id); }
    }
  }

  lemma OwnerIsFound(t: Table, v: Visit, now: int, id: SessionId)
    requires BelongsTo(t, v, now, id)
    ensures Lookup(t, v, now).Some?
  {
    if !BringsCookie(t, v) { SharedIsFirst(t, v, now, 0); }
  }

  // ── who gets in ───────────────────────────────────────────

  /** The first invite with this hash is neither revoked nor expired nor used up. */
  ghost predicate ValidToken(invites: seq<Invite>, hash: TokenHash, now: int) {
    exists i :: 0 <= i < |invites| && invites[i].hash == hash && NotBefore(invites, hash, i)
      && !invites[i].revoked && now <= invites[i].expiresAt && invites[i].uses < invites[i].maxUses
  }

  ghost predicate NotBefore(invites: seq<Invite>, hash: TokenHash, i: int) {
    forall j :: 0 <= j < i && j < |invites| ==> invites[j].hash != hash
  }

  /** It has not ended, and it has an open connection or was heard of lately. */
  predicate InUse(t: Table, id: SessionId, now: int) {
    id in t.records && !t.records[id].ended
    && (t.records[id].sockets != {} || t.records[id].openConnections > 0 || now < t.records[id].lastSeenAt + t.policy.idleTimeoutMs)
  }

  function UsersNow(t: Table, now: int): set<SessionId> {
    set id | id in t.order && InUse(t, id, now)
  }

  ghost predicate HasSeat(t: Table, v: Visit, now: int) {
    || (exists id :: BelongsTo(t, v, now, id) && InUse(t, id, now))
    || t.policy.maxUsers <= 0 || |UsersNow(t, now)| < t.policy.maxUsers
  }

  ghost predicate Invited(t: Table, v: Visit, now: int) {
    v.token.Some? || exists id :: BelongsTo(t, v, now, id) && id in t.records && t.records[id].invited
  }

  /** Why a visit is turned away, the first reason that applies. */
  ghost function Refusal(t: Table, v: Visit, now: int): Option<Denial> {
    if v.address in t.blocked then Some(Blocked)
    else if BringsCookie(t, v) && t.records[v.cookie.value].ended then Some(EndedSession)
    else if v.token.Some? && !ValidToken(t.invites, v.token.value, now) then Some(InviteInvalid)
    else if t.policy.mode == Protected && !Invited(t, v, now) then Some(NotInvited)
    else if !HasSeat(t, v, now) then Some(Limit)
    else None
  }

  lemma UsersAreActive(t: Table, now: int)
    ensures UsersNow(t, now) == ActiveIds(t, now)
  {}

  lemma {:induction false} FindsFirst(invites: seq<Invite>, hash: TokenHash, from: nat)
    requires from <= |invites| && NotBefore(invites, hash, from)
    ensures NotBefore(invites, hash, FindInvite(invites, hash, from))
    decreases |invites| - from
  {
    if from < |invites| && invites[from].hash != hash { FindsFirst(invites, hash, from + 1); }
  }

  lemma RedeemsValid(invites: seq<Invite>, hash: TokenHash, now: int)
    ensures Redeem(invites, hash, now).Some? <==> ValidToken(invites, hash, now)
  {
    FindsFirst(invites, hash, 0);
  }

  /** The seat as the steps look for it, given the session that was found. */
  predicate SeatFor(t: Table, found: Option<SessionId>, now: int)
    requires found.Some? ==> Listed(t, found.value)
  {
    (found.Some? && IsActive(t.records[found.value], now, t.policy.idleTimeoutMs)) || HasCapacity(t, now)
  }

  lemma SeatForOwner(t: Table, v: Visit, now: int)
    ensures SeatFor(t, Lookup(t, v, now), now) <==> HasSeat(t, v, now)
    ensures v.token.Some? || (Lookup(t, v, now).Some? && t.records[Lookup(t, v, now).value].invited) <==> Invited(t, v, now)
  {
    hide BelongsTo, ActiveIds, UsersNow, Lookup;
    LookupFindsOwner(t, v, now);
    UsersAreActive(t, now);
  }

  lemma SeatIff(t: Table, v: Visit, found: Option<SessionId>, viaCookie: bool, invited: bool, now: int, newId: SessionId)
    requires found.Some? ==> Listed(t, found.value)
    ensures var (t', w) := Seat(t, v, found, viaCookie, invited, now, newId);
      && w == (if t.policy.mode == Protected && !invited then Denied(NotInvited)
               else if !SeatFor(t, found, now) then Denied(Limit)
               else Admitted(if found.Some? then found.value else newId))
      && (w.Admitted? && (found.Some? ==> !t.records[found.value].ended) && t.policy.idleTimeoutMs > 0 ==>
            w.session in ActiveIds(t', now))
  {
    hide HasCapacity;
  }

  lemma MarkedSeat(t: Table, found: Option<SessionId>, invites: seq<Invite>, now: int)
    requires found.Some? ==> Listed(t, found.value)
    ensures SeatFor(MarkInvited(t, found, invites), found, now) <==> SeatFor(t, found, now)
  {
    AccessRuns.MarkKeepsActive(t, found, invites, now);
    hide ActiveIds;
  }

  lemma FoundIsLive(t: Table, v: Visit, now: int)
    requires ViaCookie(t, v) ==> !t.records[v.cookie.value].ended
    ensures Lookup(t, v, now).Some? ==> !t.records[Lookup(t, v, now).value].ended
  {}

  lemma AdmitAsFound(t: Table, v: Visit, now: int, newId: SessionId)
    ensures var (w, found) := (Admit(t, v, now, newId).1, Lookup(t, v, now));
      && w == (if Refusal(t, v, now).Some? then Denied(Refusal(t, v, now).value)
               else Admitted(if found.Some? then found.value else newId))
      && (w.Admitted? && t.policy.idleTimeoutMs > 0 ==> w.session in ActiveIds(Admit(t, v, now, newId).0, now))
  {
    hide Seat, SeatFor, HasSeat, Invited, ValidToken, Redeem, Lookup, ActiveIds;
    var found := Lookup(t, v, now);
    if ViaCookie(t, v) ==> !t.records[v.cookie.value].ended { FoundIsLive(t, v, now); }
    SeatForOwner(t, v, now);
    SeatIff(t, v, found, ViaCookie(t, v), found.Some? && t.records[found.value].invited, now, newId);
    if v.token.Some? {
      RedeemsValid(t.invites, v.token.value, now);
      var used := Redeem(t.invites, v.token.value, now);
      if used.Some? {
        MarkedSeat(t, found, used.value, now);
        SeatIff(MarkInvited(t, found, used.value), v, found, ViaCookie(t, v), true, now, newId);
      }
    }
  }

  /**
   * Exactly who is admitted, why others are not, and as whom: the session a visit belongs to, or a new one if it belongs
   * to none. That session is active from then on.
   */
  lemma AdmitIffEntitled(t: Table, v: Visit, now: int, newId: SessionId)
    ensures var w := Admit(t, v, now, newId).1;
      && (w.Denied? <==> Refusal(t, v, now).Some?) && (w.Denied? ==> Some(w.reason) == Refusal(t, v, now))
      && (w.Admitted? ==> if exists id :: BelongsTo(t, v, now, id) then BelongsTo(t, v, now, w.session) else w.session == newId)
      && (w.Admitted? && t.policy.idleTimeoutMs > 0 ==> w.session in UsersNow(Admit(t, v, now, newId).0, now))
  {
    hide Admit, Refusal, Lookup, BelongsTo, UsersNow, ActiveIds;
    AdmitAsFound(t, v, now, newId);
    LookupFindsOwner(t, v, now);
    UsersAreActive(Admit(t, v, now, newId).0, now);
  }

  /** A session whose cookie came back is only reached through this cookie, once it is older than the shared window. */
  lemma ConfirmedNeedsItsCookie(t: Table, v: Visit, now: int, newId: SessionId, id: SessionId)
    requires id in t.records && t.records[id].cookieConfirmed && now - t.records[id].connectedAt >= SHARED_FOR && id != newId
    ensures Admit(t, v, now, newId).1 == Admitted(id) ==> v.cookie == Some(id)
  {
    hide Admit, UsersNow;
    AdmitIffEntitled(t, v, now, newId);
  }

  // ── what a visit leaves behind ────────────────────────────

  /** The session of an admitted visit afterwards. */
  function Visited(t: Table, v: Visit, now: int, id: SessionId): Session {
    if id in t.records then
      var s := t.records[id];
      s.(lastSeenAt := now, requests := s.requests + 1, status := Active, cookieConfirmed := s.cookieConfirmed || BringsCookie(t, v),
         invited := s.invited || v.token.Some?, redeemed := s.redeemed || v.token.Some?)
    else Session(v.address, v.fingerprint, now, now, Active, 1, 0, v.token.Some?, v.token.Some?, false, {}, false)
  }

  /** Only a token whose visit gets as far as its invite uses it, even if there is no seat in the end. */
  ghost predicate UsesToken(t: Table, v: Visit, now: int) {
    v.token.Some? && (Refusal(t, v, now) == None || Refusal(t, v, now) == Some(Limit))
  }

  /** The first invite with this hash is used once more, and no other changes. */
  ghost predicate UsedAt(t: Table, t': Table, hash: TokenHash, i: int)
    requires 0 <= i < |t.invites|
  {
    && t.invites[i].hash == hash && NotBefore(t.invites, hash, i)
    && t'.invites == t.invites[i := t.invites[i].(uses := t.invites[i].uses + 1)]
  }

  ghost predicate InviteUsed(t: Table, t': Table, v: Visit, now: int) {
    if UsesToken(t, v, now) then exists i :: 0 <= i < |t.invites| && UsedAt(t, t', v.token.value, i)
    else t'.invites == t.invites
  }

  lemma RedeemUsesFirst(t: Table, t': Table, hash: TokenHash, now: int)
    requires Redeem(t.invites, hash, now) == Some(t'.invites)
    ensures exists i :: 0 <= i < |t.invites| && UsedAt(t, t', hash, i)
  {
    FindsFirst(t.invites, hash, 0);
    assert UsedAt(t, t', hash, FindInvite(t.invites, hash, 0));
  }

  lemma AdmitUsesInvite(t: Table, v: Visit, now: int, newId: SessionId)
    ensures InviteUsed(t, Admit(t, v, now, newId).0, v, now)
  {
    hide Seat, HasSeat, ValidToken, Redeem, Lookup, NotBefore;
    if v.token.Some? {
      RedeemsValid(t.invites, v.token.value, now);
      if UsesToken(t, v, now) { RedeemUsesFirst(t, Admit(t, v, now, newId).0, v.token.value, now); }
    }
  }

  lemma CookieIsFound(t: Table, v: Visit, now: int)
    requires ViaCookie(t, v)
    ensures Lookup(t, v, now) == v.cookie
  {}

  /** What the steps write into the records, in terms of the session that was found. */
  lemma AdmitWrites(t: Table, v: Visit, now: int, newId: SessionId)
    requires newId !in t.records
    ensures var ((t', w), found) := (Admit(t, v, now, newId), Lookup(t, v, now));
      if w.Admitted? then
        t'.records == t.records[w.session := Visited(t, v, now, w.session)]
        && t'.order == t.order + (if found.Some? then [] else [newId]) && t'.blocked == t.blocked
      else
        && t'.order == t.order && t'.blocked == t.blocked
        && t'.records == (if w.reason == Limit && v.token.Some? && found.Some?
                          then t.records[found.value := t.records[found.value].(invited := true, redeemed := true)] else t.records)
  {
    hide Redeem, Lookup, HasCapacity, IsActive;
    if ViaCookie(t, v) { CookieIsFound(t, v, now); }
    var (t', w) := Admit(t, v, now, newId);
    if w.Admitted? { assert t'.records == t.records[w.session := Visited(t, v, now, w.session)]; }
  }

  /**
   * All that an admission changes: the session it answers is touched, or opened; a session that brought a good token is
   * invited even if there is no seat for it; and the token's invite, the first with its hash, is used once.
   */
  lemma AdmissionLeaves(t: Table, v: Visit, now: int, newId: SessionId)
    requires newId !in t.records
    ensures var (t', w) := Admit(t, v, now, newId);
      && InviteUsed(t, t', v, now) && t'.blocked == t.blocked && t'.policy == t.policy
      && (w.Admitted? ==>
            && t'.records == t.records[w.session := Visited(t, v, now, w.session)]
            && t'.order == t.order + (if exists id :: BelongsTo(t, v, now, id) then [] else [newId]))
      && (w.Denied? ==>
            && t'.order == t.order && t'.records.Keys == t.records.Keys
            && forall id :: id in t.records ==>
                 t'.records[id] == if UsesToken(t, v, now) && BelongsTo(t, v, now, id) then t.records[id].(invited := true, redeemed := true)
                                   else t.records[id])
  {
    hide Admit, Visited, Lookup, BelongsTo, InviteUsed, Refusal;
    AdmitUsesInvite(t, v, now, newId);
    AdmitWrites(t, v, now, newId);
    AdmitAsFound(t, v, now, newId);
    LookupFindsOwner(t, v, now);
  }

  // ── forgetting ────────────────────────────────────────────

  /** Out of use, and silent for longer than sessions are kept. */
  predicate Outlived(t: Table, id: SessionId, now: int)
    requires id in t.records
  {
    !t.records[id].ended && !InUse(t, id, now) && now > t.records[id].lastSeenAt + t.policy.retentionMs
  }

  /** In this order one id stands before the other. */
  predicate Before(order: seq<SessionId>, a: SessionId, b: SessionId) {
    exists p, q :: 0 <= p < q < |order| && order[p] == a && order[q] == b
  }

  lemma BeforeGrows(order: seq<SessionId>, n: nat, a: SessionId, b: SessionId)
    requires n <= |order| && Before(order[..n], a, b)
    ensures Before(order, a, b)
  {
    var p, q :| 0 <= p < q < n && order[..n][p] == a && order[..n][q] == b;
    assert order[p] == a && order[q] == b;
  }

  lemma {:induction false} SurvivorsKeepOrder(order: seq<SessionId>, records: map<SessionId, Session>, now: int, p: Policy)
    ensures var r := Survivors(order, records, now, p);
      && (forall k :: 0 <= k < |r| ==> r[k] in order) && |r| <= |order|
      && forall i, j :: 0 <= i < j < |r| ==> Before(order, r[i], r[j])
  {
    if order != [] {
      var n := |order| - 1;
      var (r, kept) := (Survivors(order, records, now, p), Survivors(order[..n], records, now, p));
      SurvivorsKeepOrder(order[..n], records, now, p);
      assert kept <= r <= kept + [order[n]];
      forall i, j | 0 <= i < j < |r| ensures Before(order, r[i], r[j]) {
        if j < |kept| {
          BeforeGrows(order, n, r[i], r[j]);
        } else {
          var k :| 0 <= k < n && order[..n][k] == kept[i];
          assert order[k] == r[i] && order[n] == r[j];
        }
      }
    }
  }

  /**
   * A sweep forgets exactly the sessions that have outlived their time and keeps the others in order. Nobody who is in use
   * is touched, and whoever is not in use is marked.
   */
  lemma SweepForgetsExactly(t: Table, now: int, id: SessionId)
    requires TableOk(t) && Listed(t, id)
    ensures var (t', s) := (Sweep(t, now), t.records[id]);
      && (id in t'.order <==> !Outlived(t, id, now))
      && id in t'.records
      && t'.records[id] == (if s.ended || InUse(t, id, now) then s
                            else if Outlived(t, id, now) then s.(status := Closed)
                            else s.(status := if s.status == Active then Idle else s.status))
      && (forall i, j :: 0 <= i < j < |t'.order| ==> Before(t.order, t'.order[i], t'.order[j]))
      && UsersNow(t', now) == UsersNow(t, now)
  {
    hide Before;
    SurvivorsShape(t.order, t.records, now, t.policy);
    SurvivorsKeepOrder(t.order, t.records, now, t.policy);
  }
}
