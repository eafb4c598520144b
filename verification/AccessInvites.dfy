/** Invite links: bounded uses, no use after revocation or expiry, and no more invited sessions than uses. */
module AccessInvites {
  import opened Wrappers
  import opened Access
  import opened AccessInvariants

  // ── one invite ────────────────────────────────────────────

  predicate Dead(inv: Invite, now: int) {
    inv.revoked || inv.expiresAt < now
  }

  /** How an invite may change in one step: only forwards, and not at all in its uses once it is dead. */
  predicate Later(a: Invite, b: Invite, now: int) {
    && b.id == a.id && b.hash == a.hash && b.expiresAt == a.expiresAt && b.maxUses == a.maxUses
    && (a.revoked ==> b.revoked)
    && (b.uses == a.uses || (b.uses == a.uses + 1 && Redeemable(a, now)))
  }

  ghost predicate AllLater(a: seq<Invite>, b: seq<Invite>, now: int) {
    |a| <= |b| && forall i :: 0 <= i < |a| ==> Later(a[i], b[i], now)
  }

  ghost predicate Bounded(invites: seq<Invite>) {
    forall i :: 0 <= i < |invites| ==> 0 <= invites[i].uses <= Max(0, invites[i].maxUses)
  }

  lemma AdmitInvitesLater(t: Table, v: Visit, now: int, newId: SessionId)
    ensures AllLater(t.invites, Admit(t, v, now, newId).0.invites, now)
    ensures |Admit(t, v, now, newId).0.invites| == |t.invites|
  {}

  lemma StepInvitesLater(g: Gateway, e: Event)
    ensures AllLater(g.table.invites, Step(g, e).table.invites, g.now)
    ensures Bounded(g.table.invites) ==> Bounded(Step(g, e).table.invites)
    ensures Step(g, e).now >= g.now
  {
    hide Step, AllLater, Bounded;
    if e.Request? || e.Upgrade? { ArrivalInvitesLater(g, e); } else { OtherInvitesLater(g, e); }
    LaterIsBounded(g.table.invites, Step(g, e).table.invites, g.now);
  }

  lemma ArrivalInvitesLater(g: Gateway, e: Event)
    requires e.Request? || e.Upgrade?
    ensures Step(g, e).now == g.now && AllLater(g.table.invites, Step(g, e).table.invites, g.now)
    ensures |Step(g, e).table.invites| == |g.table.invites|
  {
    hide Admit, Redeemable;
    AdmitInvitesLater(g.table, if e.Request? then e.visit else e.visit.(token := None), g.now, e.newId);
  }

  lemma SweepKeepsInvites(t: Table, now: int)
    ensures Sweep(t, now).invites == t.invites
  {}

  lemma EndKeepsInvites(t: Table, id: SessionId, block: bool)
    ensures End(t, id, block).invites == t.invites
  {}

  lemma GrandfatherKeepsInvites(t: Table)
    ensures Grandfather(t).invites == t.invites
  {}

  lemma OtherInvitesLater(g: Gateway, e: Event)
    requires !e.Request? && !e.Upgrade?
    ensures Step(g, e).now >= g.now && AllLater(g.table.invites, Step(g, e).table.invites, g.now)
    ensures forall i :: |g.table.invites| <= i < |Step(g, e).table.invites| ==> Step(g, e).table.invites[i].uses == 0
  {
    hide Redeemable, Sweep, End, Remove, EndStream, Detach, Grandfather;
    if e.SweepTimer? { SweepKeepsInvites(g.table, g.now); }
    if e.Disconnect? { EndKeepsInvites(g.table, e.session, e.block); }
    if e.UpdateAccess? { GrandfatherKeepsInvites(g.table); }
  }

  lemma LaterIsBounded(a: seq<Invite>, b: seq<Invite>, now: int)
    requires AllLater(a, b, now) && forall i :: |a| <= i < |b| ==> b[i].uses == 0
    ensures Bounded(a) ==> Bounded(b)
  {}

  /** A revoked or expired invite is never used again, and no invite is ever used more often than allowed. */
  lemma {:induction false} DeadInvitesStayUnused(g: Gateway, events: seq<Event>, i: nat)
    requires i < |g.table.invites| && Bounded(g.table.invites)
    ensures var r := Run(g, events);
      && i < |r.table.invites| && r.now >= g.now && Bounded(r.table.invites)
      && r.table.invites[i].uses <= Max(0, g.table.invites[i].maxUses)
      && r.table.invites[i].maxUses == g.table.invites[i].maxUses
      && (Dead(g.table.invites[i], g.now) ==>
            Dead(r.table.invites[i], r.now) && r.table.invites[i].uses == g.table.invites[i].uses)
  {
    hide Step;
    if events == [] {
    } else {
      var before := events[..|events| - 1];
      DeadInvitesStayUnused(g, before, i);
      var p := Run(g, before);
      StepInvitesLater(p, events[|events| - 1]);
      assert Later(p.table.invites[i], Step(p, events[|events| - 1]).table.invites[i], p.now);
    }
  }

  // ── all invites ───────────────────────────────────────────

  function TotalUses(invites: seq<Invite>): int {
    if invites == [] then 0 else TotalUses(invites[..|invites| - 1]) + invites[|invites| - 1].uses
  }

  lemma {:induction false} UsesAfterUpdate(invites: seq<Invite>, i: nat, inv: Invite)
    requires i < |invites|
    ensures TotalUses(invites[i := inv]) == TotalUses(invites) - invites[i].uses + inv.uses
  {
    var n := |invites| - 1;
    var updated := invites[i := inv];
    if i == n {
      assert updated[..n] == invites[..n];
    } else {
      assert updated[..n] == invites[..n][i := inv];
      UsesAfterUpdate(invites[..n], i, inv);
    }
  }

  lemma {:induction false} UsesAfterRevoke(invites: seq<Invite>, id: string)
    ensures TotalUses(Revoke(invites, id)) == TotalUses(invites)
  {
    if invites == [] {
    } else {
      var n := |invites| - 1;
      assert Revoke(invites, id)[..n] == Revoke(invites[..n], id);
      UsesAfterRevoke(invites[..n], id);
    }
  }

  function RedeemedIds(t: Table): set<SessionId> {
    set id | id in t.records && t.records[id].redeemed
  }

  /** The number of sessions that owe their invitation to a token is covered by the uses of all invites. */
  ghost predicate Covered(t: Table) {
    |RedeemedIds(t)| <= TotalUses(t.invites)
  }

  lemma SameRedeemed(t: Table, t': Table)
    requires Covered(t) && TotalUses(t'.invites) == TotalUses(t.invites)
    requires RedeemedIds(t') <= RedeemedIds(t)
    ensures Covered(t')
  {
    SubsetSize(RedeemedIds(t'), RedeemedIds(t));
  }

  lemma SeatRedeems(t: Table, v: Visit, found: Option<SessionId>, viaCookie: bool, invited: bool, now: int, newId: SessionId)
    requires found.Some? ==> Listed(t, found.value)
    ensures var t' := Seat(t, v, found, viaCookie, invited, now, newId).0;
      RedeemedIds(t') <= RedeemedIds(t) + (if v.token.Some? && found.None? then {newId} else {})
  {}

  lemma AdmitCovers(t: Table, v: Visit, now: int, newId: SessionId)
    requires Covered(t)
    ensures Covered(Admit(t, v, now, newId).0)
  {
    hide Seat;
    var found := Lookup(t, v, now);
    if v.token.None? {
      SeatRedeems(t, v, found, ViaCookie(t, v), found.Some? && t.records[found.value].invited, now, newId);
      SameRedeemed(t, Seat(t, v, found, ViaCookie(t, v), found.Some? && t.records[found.value].invited, now, newId).0);
    } else {
      var used := Redeem(t.invites, v.token.value, now);
      if used.Some? { UseCovers(t, v, found, used.value, now, newId); }
    }
  }

  lemma MarkRedeems(t: Table, found: Option<SessionId>, used: seq<Invite>)
    requires found.Some? ==> Listed(t, found.value)
    ensures var t1 := MarkInvited(t, found, used);
      && t1.invites == used && RedeemedIds(t1) <= RedeemedIds(t) + (if found.Some? then {found.value} else {})
      && (found.Some? ==> Listed(t1, found.value))
  {}

  lemma RedeemUsesOne(invites: seq<Invite>, hash: TokenHash, now: int)
    requires Redeem(invites, hash, now).Some?
    ensures TotalUses(Redeem(invites, hash, now).value) == TotalUses(invites) + 1
  {
    var i := FindInvite(invites, hash, 0);
    UsesAfterUpdate(invites, i, invites[i].(uses := invites[i].uses + 1));
  }

  lemma UseCovers(t: Table, v: Visit, found: Option<SessionId>, used: seq<Invite>, now: int, newId: SessionId)
    requires Covered(t) && v.token.Some? && Redeem(t.invites, v.token.value, now) == Some(used)
    requires found.Some? ==> Listed(t, found.value)
    ensures Covered(Seat(MarkInvited(t, found, used), v, found, ViaCookie(t, v), true, now, newId).0)
  {
    hide Seat, MarkInvited, RedeemedIds, TotalUses, Redeem, ViaCookie;
    var t1 := MarkInvited(t, found, used);
    MarkRedeems(t, found, used);
    SeatRedeems(t1, v, found, ViaCookie(t, v), true, now, newId);
    RedeemUsesOne(t.invites, v.token.value, now);
    var t' := Seat(t1, v, found, ViaCookie(t, v), true, now, newId).0;
    SubsetSize(RedeemedIds(t'), RedeemedIds(t) + {if found.Some? then found.value else newId});
  }

  /** After its admission a visit redeems nothing. */
  lemma ArrivalRedeems(g: Gateway, e: Event)
    requires (e.Request? || e.Upgrade?) && Step(g, e) != g
    ensures var t := Admit(g.table, if e.Request? then e.visit else e.visit.(token := None), g.now, e.newId).0;
      Step(g, e).table.invites == t.invites && RedeemedIds(Step(g, e).table) <= RedeemedIds(t)
  {
    hide Admit;
  }

  lemma ArrivalCovers(g: Gateway, e: Event)
    requires Covered(g.table) && (e.Request? || e.Upgrade?)
    ensures Covered(Step(g, e).table)
  {
    hide Admit, Step, Covered, RedeemedIds, TotalUses;
    if Step(g, e) != g {
      var v := if e.Request? then e.visit else e.visit.(token := None);
      AdmitCovers(g.table, v, g.now, e.newId);
      ArrivalRedeems(g, e);
      SameRedeemed(Admit(g.table, v, g.now, e.newId).0, Step(g, e).table);
    }
  }

  lemma OthersRedeemNothing(g: Gateway, e: Event)
    requires !e.Request? && !e.Upgrade?
    ensures RedeemedIds(Step(g, e).table) <= RedeemedIds(g.table)
  {
    hide Survivors, Remove, Revoke, Sweep;
    if e.SweepTimer? { SweepRedeemsNothing(g.table, g.now); }
  }

  lemma SweepRedeemsNothing(t: Table, now: int)
    ensures RedeemedIds(Sweep(t, now)) <= RedeemedIds(t)
  {
    hide Survivors;
  }

  lemma OthersUseNothing(g: Gateway, e: Event)
    requires !e.Request? && !e.Upgrade?
    ensures TotalUses(Step(g, e).table.invites) == TotalUses(g.table.invites)
  {
    hide Sweep, End, Remove, EndStream, Detach, Grandfather, Revoke;
    if e.CreateInvite? { assert Step(g, e).table.invites[..|g.table.invites|] == g.table.invites; }
    if e.RevokeInvite? { UsesAfterRevoke(g.table.invites, e.id); }
    if e.SweepTimer? { SweepKeepsInvites(g.table, g.now); }
    if e.Disconnect? { EndKeepsInvites(g.table, e.session, e.block); }
    if e.UpdateAccess? { GrandfatherKeepsInvites(g.table); }
  }

  lemma StepCovers(g: Gateway, e: Event)
    requires Covered(g.table)
    ensures Covered(Step(g, e).table)
  {
    hide Step, Covered, RedeemedIds, TotalUses;
    if e.Request? || e.Upgrade? {
      ArrivalCovers(g, e);
    } else {
      OthersRedeemNothing(g, e);
      OthersUseNothing(g, e);
      SameRedeemed(g.table, Step(g, e).table);
    }
  }

  /** In every run the sessions invited through a token are at most as many as the uses of all invites together. */
  lemma {:induction false} InvitedSessionsArePaidFor(p: Policy, now: int, limits: Limits, events: seq<Event>)
    ensures var t := Run(NewGateway(p, now, limits), events).table; |RedeemedIds(t)| <= TotalUses(t.invites)
  {
    if events == [] {
      assert RedeemedIds(NewGateway(p, now, limits).table) == {};
    } else {
      InvitedSessionsArePaidFor(p, now, limits, events[..|events| - 1]);
      StepCovers(Run(NewGateway(p, now, limits), events[..|events| - 1]), events[|events| - 1]);
    }
  }
}
