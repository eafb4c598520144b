/** What the end of a session means for its client, from then on. */
module AccessEndings {
  import opened Wrappers
  import opened Access
  import opened AccessAdmission

  /** Ended, closed, and without a socket. */
  predicate Gone(g: Gateway, id: SessionId) {
    id in g.table.records && g.table.records[id].ended && g.table.records[id].status == Closed && g.table.records[id].sockets == {}
  }

  /** Disconnecting a listed session ends it and nobody else; its address is blocked if that was asked for. */
  lemma DisconnectEnds(g: Gateway, id: SessionId, block: bool)
    requires Listed(g.table, id)
    ensures var g' := Step(g, Disconnect(id, block));
      && Gone(g', id) && g'.table.order == g.table.order
      && (forall other :: other in g.table.records && other != id ==>
            other in g'.table.records && g'.table.records[other] == g.table.records[other])
      && (forall a :: a in g'.table.blocked <==> a in g.table.blocked || (block && a == g.table.records[id].address))
  {}

  /** Nobody is admitted as a session that has ended, whatever the visit brings. */
  lemma EndedIsShut(t: Table, v: Visit, now: int, newId: SessionId, id: SessionId)
    requires id in t.records && t.records[id].ended && newId !in t.records
    ensures Admit(t, v, now, newId).1 != Admitted(id)
  {
    hide Admit, UsersNow;
    AdmitIffEntitled(t, v, now, newId);
  }

  /** And a client that still brings its cookie is told so. */
  lemma EndedIsTold(t: Table, v: Visit, now: int, newId: SessionId, id: SessionId)
    requires Listed(t, id) && t.records[id].ended && v.cookie == Some(id)
    ensures var w := Admit(t, v, now, newId).1; w == Denied(if v.address in t.blocked then Blocked else EndedSession)
  {
    hide Admit, UsersNow, HasSeat, Invited, ValidToken;
    AdmitIffEntitled(t, v, now, newId);
  }

  lemma ArrivalLeavesGone(g: Gateway, e: Event, id: SessionId)
    requires (e.Request? || e.Upgrade?) && Gone(g, id)
    ensures Gone(Step(g, e), id)
  {
    hide Admit, BelongsTo, InviteUsed, UsesToken;
    var v := if e.Request? then e.visit else e.visit.(token := None);
    if e.newId !in g.table.records {
      AdmissionLeaves(g.table, v, g.now, e.newId);
      EndedIsShut(g.table, v, g.now, e.newId, id);
    }
  }

  lemma OthersLeaveGone(g: Gateway, e: Event, id: SessionId)
    requires !e.Request? && !e.Upgrade? && Gone(g, id)
    ensures Gone(Step(g, e), id)
  {
    hide Survivors, Remove, Revoke;
  }

  /** In every continuation an ended session stays ended and never gets a socket again. */
  lemma {:induction false} EndedForGood(g: Gateway, more: seq<Event>, id: SessionId)
    requires Gone(g, id)
    ensures Gone(Run(g, more), id)
  {
    hide Step, Gone;
    if more != [] {
      var n := |more| - 1;
      EndedForGood(g, more[..n], id);
      var p := Run(g, more[..n]);
      if more[n].Request? || more[n].Upgrade? { ArrivalLeavesGone(p, more[n], id); } else { OthersLeaveGone(p, more[n], id); }
    }
  }

  lemma BlockStays(g: Gateway, e: Event, a: Address)
    requires a in g.table.blocked && e != Unblock(a)
    ensures a in Step(g, e).table.blocked
  {
    hide Admit, Survivors, Remove, Revoke;
    if e.Request? || e.Upgrade? {
      AdmitKeepsBlocked(g.table, if e.Request? then e.visit else e.visit.(token := None), g.now, e.newId);
    }
  }

  lemma AdmitKeepsBlocked(t: Table, v: Visit, now: int, newId: SessionId)
    ensures Admit(t, v, now, newId).0.blocked == t.blocked
  {}

  lemma {:induction false} BlockedUntilUnblocked(g: Gateway, more: seq<Event>, a: Address)
    requires a in g.table.blocked && Unblock(a) !in more
    ensures a in Run(g, more).table.blocked
  {
    hide Step;
    if more != [] {
      var n := |more| - 1;
      assert more == more[..n] + [more[n]];
      BlockedUntilUnblocked(g, more[..n], a);
      BlockStays(Run(g, more[..n]), more[n], a);
    }
  }

  /**
   * After a disconnect, in every continuation: the session has no sockets and nobody is admitted as it; and if it was
   * blocked, every visit from its address is turned away until the address is unblocked.
   */
  lemma DisconnectLasts(g: Gateway, id: SessionId, block: bool, more: seq<Event>, v: Visit, newId: SessionId)
    requires Listed(g.table, id)
    requires var r := Run(Step(g, Disconnect(id, block)), more); newId !in r.table.records
    ensures var r := Run(Step(g, Disconnect(id, block)), more); var w := Admit(r.table, v, r.now, newId).1;
      && Gone(r, id) && w != Admitted(id)
      && (block && v.address == g.table.records[id].address && Unblock(v.address) !in more ==> w == Denied(Blocked))
  {
    hide Step, Run, UsersNow, HasSeat, Invited, ValidToken, Admit;
    var g1 := Step(g, Disconnect(id, block));
    var r := Run(g1, more);
    DisconnectEnds(g, id, block);
    EndedForGood(g1, more, id);
    EndedIsShut(r.table, v, r.now, newId, id);
    if block && v.address == g.table.records[id].address && Unblock(v.address) !in more {
      BlockedUntilUnblocked(g1, more, v.address);
      AdmitIffEntitled(r.table, v, r.now, newId);
    }
  }
}
