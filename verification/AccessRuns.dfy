/** The user cap, the invite rules and protected mode over every run of the gateway. */
module AccessRuns {
  import opened Wrappers
  import opened Access
  import opened AccessInvariants

  function ActiveNow(g: Gateway): set<SessionId> {
    ActiveIds(g.table, g.now)
  }

  /** The idle timeout of the project is the gateway's; no operation changes either. */
  predicate IdleFixed(g: Gateway) {
    g.project.idleTimeoutMs == g.table.policy.idleTimeoutMs
  }

  // ── counting ──────────────────────────────────────────────

  lemma FewerActive(a: set<SessionId>, b: set<SessionId>)
    requires b <= a
    ensures |b| <= |a|
  {
    SubsetSize(b, a);
  }

  /** At most one session more, and only while there is room for it. */
  lemma OneMore(a: set<SessionId>, b: set<SessionId>, x: SessionId, cap: int)
    requires b <= a + {x} && (x in a || |a| < cap)
    ensures |b| <= Max(|a|, cap)
  {
    SubsetSize(b, a + {x});
    if x in a { assert a + {x} == a; }
  }

  // ── admission respects the cap ────────────────────────────

  lemma SeatIsFair(t: Table, v: Visit, found: Option<SessionId>, viaCookie: bool, invited: bool, now: int, newId: SessionId)
    requires found.Some? ==> Listed(t, found.value)
    ensures var (t', w) := Seat(t, v, found, viaCookie, invited, now, newId);
      w.Admitted? ==> w.session in ActiveIds(t, now) || HasCapacity(t, now)
  {}

  lemma MarkKeepsActive(t: Table, found: Option<SessionId>, invites: seq<Invite>, now: int)
    requires found.Some? ==> Listed(t, found.value)
    ensures ActiveIds(MarkInvited(t, found, invites), now) == ActiveIds(t, now)
  {}

  /** Whoever is admitted was active already or takes a free place. */
  lemma AdmitIsFair(t: Table, v: Visit, now: int, newId: SessionId)
    ensures var (t', w) := Admit(t, v, now, newId);
      w.Admitted? ==> w.session in ActiveIds(t, now) || HasCapacity(t, now)
  {
    hide Seat, ActiveIds;
    var found := Lookup(t, v, now);
    SeatIsFair(t, v, found, ViaCookie(t, v), found.Some? && t.records[found.value].invited, now, newId);
    if v.token.Some? {
      var used := Redeem(t.invites, v.token.value, now);
      if used.Some? {
        MarkKeepsActive(t, found, used.value, now);
        SeatIsFair(MarkInvited(t, found, used.value), v, found, ViaCookie(t, v), true, now, newId);
      }
    }
  }

  /** Nobody but the admitted session can become active by an admission. */
  lemma AdmitTouchesOne(t: Table, v: Visit, now: int, newId: SessionId)
    requires TableOk(t) && newId !in t.records && newId !in t.order
    ensures var (t', w) := Admit(t, v, now, newId);
      ActiveIds(t', now) <= ActiveIds(t, now) + (if w.Admitted? then {w.session} else {})
  {}

  /** A request or an upgrade: `t'` differs from the admitted table at most in the admitted session. */
  lemma ArrivalIsCapped(g: Gateway, v: Visit, newId: SessionId, t': Table)
    requires TableOk(g.table) && newId !in g.table.records && newId !in g.table.order && g.table.policy.maxUsers > 0
    requires var (t, w) := Admit(g.table, v, g.now, newId);
      && t'.order == t.order && t'.policy == t.policy
      && (forall id :: id in t'.records && w != Admitted(id) ==> id in t.records && t'.records[id] == t.records[id])
    ensures |ActiveIds(t', g.now)| <= Max(|ActiveNow(g)|, g.table.policy.maxUsers)
  {
    hide Admit, TableOk, IsActive;
    AdmitTouchesOne(g.table, v, g.now, newId);
    AdmitIsFair(g.table, v, g.now, newId);
    var (t, w) := Admit(g.table, v, g.now, newId);
    if w.Admitted? {
      assert ActiveIds(t', g.now) <= ActiveNow(g) + {w.session};
      OneMore(ActiveNow(g), ActiveIds(t', g.now), w.session, g.table.policy.maxUsers);
    } else {
      FewerActive(ActiveNow(g), ActiveIds(t', g.now));
    }
  }

  // ── the other steps ───────────────────────────────────────

  lemma FinishIsCapped(g: Gateway, r: RequestId)
    requires Inv(g)
    ensures ActiveNow(FinishStream(g, r)) <= ActiveNow(g)
  {
    if r in g.streams && !g.streams[r].finished { ClampNeverActs(g, r); }
  }

  lemma SweepIsCapped(g: Gateway)
    requires Inv(g)
    ensures ActiveIds(Sweep(g.table, g.now), g.now) <= ActiveNow(g)
  {
    SurvivorsShape(g.table.order, g.table.records, g.now, g.table.policy);
  }

  /**
   * The one step that can bring a session back without admission: a late second `cleanup` of a socket that was already
   * detached from a session that has since gone idle.
   */
  predicate Revives(g: Gateway, e: Event) {
    && e.Cleanup? && e.handle in g.owner && Listed(g.table, g.owner[e.handle])
    && var s := g.table.records[g.owner[e.handle]];
       !s.ended && g.table.policy.idleTimeoutMs > 0 && !IsActive(s, g.now, g.table.policy.idleTimeoutMs)
  }

  /** A cleanup raises the number of active users if and only if it revives an idle session. */
  lemma CleanupRaisesExactly(g: Gateway, h: SocketId)
    requires Inv(g)
    ensures |ActiveNow(Step(g, Cleanup(h)))| > |ActiveNow(g)| <==> Revives(g, Cleanup(h))
    ensures !Revives(g, Cleanup(h)) ==> |ActiveNow(Step(g, Cleanup(h)))| <= |ActiveNow(g)|
  {
    var g' := Step(g, Cleanup(h));
    if Revives(g, Cleanup(h)) {
      var id := g.owner[h];
      assert ActiveNow(g') == ActiveNow(g) + {id};
    } else {
      assert ActiveNow(g') <= ActiveNow(g);
      FewerActive(ActiveNow(g), ActiveNow(g'));
    }
  }

  /** A cleanup of a socket that is still attached never revives anyone. */
  lemma AttachedCleanupIsHarmless(g: Gateway, h: SocketId)
    requires h in g.owner && g.owner[h] in g.table.records && h in g.table.records[g.owner[h]].sockets
    ensures !Revives(g, Cleanup(h))
  {}

  lemma RequestIsCapped(g: Gateway, v: Visit, r: RequestId, newId: SessionId)
    requires Inv(g) && newId !in g.table.records && newId !in g.table.order && g.table.policy.maxUsers > 0
    ensures |ActiveNow(HandleRequest(g, v, r, newId))| <= Max(|ActiveNow(g)|, g.table.policy.maxUsers)
  {
    assert TableOk(g.table);
    hide Inv, Admit, ActiveIds, TableOk;
    ArrivalIsCapped(g, v, newId, HandleRequest(g, v, r, newId).table);
  }

  lemma UpgradeIsCapped(g: Gateway, v: Visit, h: SocketId, newId: SessionId)
    requires Inv(g) && newId !in g.table.records && newId !in g.table.order && g.table.policy.maxUsers > 0
    ensures |ActiveNow(UpgradeSocket(g, v, h, newId))| <= Max(|ActiveNow(g)|, g.table.policy.maxUsers)
  {
    assert TableOk(g.table);
    hide Inv, Admit, ActiveIds, TableOk;
    ArrivalIsCapped(g, v.(token := None), newId, UpgradeSocket(g, v, h, newId).table);
  }

  /** Steps of time, maintenance and the operator never make anyone active. */
  lemma OperatorIsCapped(g: Gateway, e: Event)
    requires Inv(g) && IdleFixed(g)
    requires !e.Request? && !e.Upgrade? && !e.Cleanup? && !e.StreamFails? && !e.ResponseCloses? && !e.SweepTimer?
    ensures ActiveNow(Step(g, e)) <= ActiveNow(g)
  {
    if e.TombstoneTimer? { RemoveShape(g.table.order, e.session); }
  }

  /** One step: the number of active users ends at most where it was or at the limit. */
  lemma StepIsCapped(g: Gateway, e: Event)
    requires Inv(g) && IdleFixed(g) && g.table.policy.maxUsers > 0 && !Revives(g, e)
    ensures |ActiveNow(Step(g, e))| <= Max(|ActiveNow(g)|, g.table.policy.maxUsers)
  {
    hide ActiveIds, HandleRequest, UpgradeSocket, FinishStream, Sweep, Inv;
    match e
    case Request(v, r, newId, passes) => if Step(g, e) != g { RequestIsCapped(g, v, r, newId); }
    case Upgrade(v, h, newId, passes) => if Step(g, e) != g { UpgradeIsCapped(g, v, h, newId); }
    case Cleanup(h) => CleanupRaisesExactly(g, h);
    case StreamFails(r) =>
      FinishIsCapped(g, r);
      FewerActive(ActiveNow(g), ActiveNow(FinishStream(g, r)));
    case ResponseCloses(r) =>
      FinishIsCapped(g, r);
      FewerActive(ActiveNow(g), ActiveNow(FinishStream(g, r)));
    case SweepTimer =>
      SweepIsCapped(g);
      FewerActive(ActiveNow(g), ActiveIds(Sweep(g.table, g.now), g.now));
    case _ =>
      OperatorIsCapped(g, e);
      FewerActive(ActiveNow(g), ActiveNow(Step(g, e)));
  }

  lemma IdleStaysFixed(g: Gateway, e: Event)
    requires IdleFixed(g)
    ensures IdleFixed(Step(g, e))
  {}

  // ── the cap over runs ─────────────────────────────────────

  /** Throughout the run a limit of at most `cap` is set and no late cleanup revives anyone. */
  ghost predicate Limited(g: Gateway, events: seq<Event>, cap: int) {
    forall k :: 0 <= k < |events| ==>
      && 0 < Run(g, events[..k]).table.policy.maxUsers <= cap
      && !Revives(Run(g, events[..k]), events[k])
  }

  lemma LimitedSplits(g: Gateway, events: seq<Event>, cap: int)
    requires Limited(g, events, cap) && events != []
    ensures var n := |events| - 1;
      && Limited(g, events[..n], cap)
      && 0 < Run(g, events[..n]).table.policy.maxUsers <= cap && !Revives(Run(g, events[..n]), events[n])
  {
    hide Run, Revives;
    var n := |events| - 1;
    assert forall k :: 0 <= k < n ==> events[..n][..k] == events[..k] && events[..n][k] == events[k];
  }

  /**
   * The user cap. From any point of a run on, the number of active users never exceeds the larger of the limit and the
   * number at that point: a gateway under its limit stays under it, one over a lowered limit can only shrink.
   */
  lemma {:induction false} UserCap(g: Gateway, events: seq<Event>, cap: int)
    requires Inv(g) && IdleFixed(g) && Limited(g, events, cap)
    ensures |ActiveNow(Run(g, events))| <= Max(|ActiveNow(g)|, cap)
    ensures IdleFixed(Run(g, events))
  {
    hide Step, ActiveNow, Revives, Inv, Limited, IdleFixed;
    if events == [] {
    } else {
      var n := |events| - 1;
      var before := events[..n];
      LimitedSplits(g, events, cap);
      UserCap(g, before, cap);
      RunKeeps(g, before);
      StepIsCapped(Run(g, before), events[n]);
      IdleStaysFixed(Run(g, before), events[n]);
    }
  }

  lemma NewGatewayOk(p: Policy, now: int, limits: Limits)
    ensures var g := NewGateway(p, now, limits); Inv(g) && IdleFixed(g) && ActiveNow(g) == {}
  {}

  /** From the moment a gateway opens, at most `cap` users are ever active at once. */
  lemma UserCapFromStart(p: Policy, now: int, limits: Limits, events: seq<Event>, cap: int)
    requires cap >= 0 && Limited(NewGateway(p, now, limits), events, cap)
    ensures |ActiveNow(Run(NewGateway(p, now, limits), events))| <= cap
  {
    NewGatewayOk(p, now, limits);
    UserCap(NewGateway(p, now, limits), events, cap);
  }

  /** Changing the limit ends nobody and leaves everyone active who was. */
  lemma LimitChangeCutsNobody(g: Gateway, maxUsers: int)
    requires IdleFixed(g)
    ensures var g' := Step(g, UpdateAccess(None, Some(maxUsers)));
      && ActiveNow(g') == ActiveNow(g) && g'.table.order == g.table.order && g'.table.records == g.table.records
  {}

  // ── connection accounting over runs ───────────────────────

  /**
   * At every point of a run the stream counter of a session is the number of its admitted requests whose `done` has not
   * fired, at most its in-flight requests, at most the limit; and it never has more sockets than allowed.
   */
  lemma ConnectionsAccounted(p: Policy, now: int, limits: Limits, events: seq<Event>, id: SessionId)
    requires id in Run(NewGateway(p, now, limits), events).table.records
    ensures var g := Run(NewGateway(p, now, limits), events); var s := g.table.records[id];
      && s.openConnections == |Requests(g.streams, id, true)| <= Inflight(g, id)
      && Inflight(g, id) == |Requests(g.streams, id, false)| <= g.limits.maxConcurrent
      && |s.sockets| <= g.limits.maxSockets
  {
    NewGatewayOk(p, now, limits);
    RunKeeps(NewGateway(p, now, limits), events);
    var g := Run(NewGateway(p, now, limits), events);
    assert Accounted(g, id);
    SubsetSize(Requests(g.streams, id, true), Requests(g.streams, id, false));
  }

  // ── protected mode ────────────────────────────────────────

  ghost predicate AllInvited(t: Table) {
    forall id :: id in t.order && id in t.records && !t.records[id].ended ==> t.records[id].invited
  }

  ghost predicate ProtectedMeansInvited(g: Gateway) {
    g.table.policy.mode == Protected ==> AllInvited(g.table)
  }

  /** An attached gateway enforces the configuration the engine believes in. */
  predicate InSync(g: Gateway) {
    g.attached ==> g.project == g.table.policy
  }

  lemma AdmitInvites(t: Table, v: Visit, now: int, newId: SessionId)
    requires TableOk(t) && t.policy.mode == Protected && AllInvited(t) && newId !in t.records && newId !in t.order
    ensures AllInvited(Admit(t, v, now, newId).0)
  {}

  lemma ArrivalInvites(g: Gateway, v: Visit, newId: SessionId, t': Table)
    requires TableOk(g.table) && newId !in g.table.records && newId !in g.table.order && ProtectedMeansInvited(g)
    requires var t := Admit(g.table, v, g.now, newId).0;
      && t'.order == t.order && t'.policy == t.policy
      && (forall id :: id in t'.records ==> id in t.records && t'.records[id].ended == t.records[id].ended
                                             && t'.records[id].invited == t.records[id].invited)
    ensures ProtectedMeansInvited(g.(table := t'))
  {
    hide Admit;
    if g.table.policy.mode == Protected { AdmitInvites(g.table, v, g.now, newId); }
  }

  lemma RequestInvites(g: Gateway, v: Visit, r: RequestId, newId: SessionId)
    requires TableOk(g.table) && newId !in g.table.records && newId !in g.table.order && ProtectedMeansInvited(g)
    ensures ProtectedMeansInvited(HandleRequest(g, v, r, newId))
  {
    hide Admit;
    ArrivalInvites(g, v, newId, HandleRequest(g, v, r, newId).table);
  }

  lemma UpgradeInvites(g: Gateway, v: Visit, h: SocketId, newId: SessionId)
    requires TableOk(g.table) && newId !in g.table.records && newId !in g.table.order && ProtectedMeansInvited(g)
    ensures ProtectedMeansInvited(UpgradeSocket(g, v, h, newId))
  {
    hide Admit;
    ArrivalInvites(g, v.(token := None), newId, UpgradeSocket(g, v, h, newId).table);
  }

  lemma StepInvites(g: Gateway, e: Event)
    requires TableOk(g.table) && ProtectedMeansInvited(g) && InSync(g)
    requires e.Attach? ==> g.project == g.table.policy
    ensures ProtectedMeansInvited(Step(g, e)) && InSync(Step(g, e))
  {
    if e.Request? || e.Upgrade? {
      hide HandleRequest, UpgradeSocket, TableOk, AllInvited, ProtectedMeansInvited;
      SyncThroughArrival(g, e);
      if Step(g, e) != g {
        if e.Request? { RequestInvites(g, e.visit, e.request, e.newId); } else { UpgradeInvites(g, e.visit, e.handle, e.newId); }
      }
    } else {
      hide TableOk;
      OthersInvite(g, e);
    }
  }

  lemma OthersInvite(g: Gateway, e: Event)
    requires TableOk(g.table) && ProtectedMeansInvited(g) && InSync(g) && !e.Request? && !e.Upgrade?
    requires e.Attach? ==> g.project == g.table.policy
    ensures ProtectedMeansInvited(Step(g, e)) && InSync(Step(g, e))
  {
    hide Sweep, Remove, Distinct, IsActive, Revoke, UpdatePolicy;
    if e.UpdateAccess? { PolicyInvites(g, e.mode, e.maxUsers); }
    if e.SweepTimer? { SweepInvites(g.table, g.now); }
    if e.TombstoneTimer? { RemoveShape(g.table.order, e.session); }
  }

  lemma PolicyInvites(g: Gateway, mode: Option<Mode>, maxUsers: Option<int>)
    requires ProtectedMeansInvited(g) && InSync(g)
    ensures ProtectedMeansInvited(UpdatePolicy(g, mode, maxUsers)) && InSync(UpdatePolicy(g, mode, maxUsers))
  {}

  lemma SweepInvites(t: Table, now: int)
    requires TableOk(t)
    ensures Sweep(t, now).policy == t.policy && (AllInvited(t) ==> AllInvited(Sweep(t, now)))
  {
    hide Survivors;
    SurvivorsShape(t.order, t.records, now, t.policy);
  }

  lemma SyncThroughArrival(g: Gateway, e: Event)
    requires e.Request? || e.Upgrade?
    ensures var g' := Step(g, e);
      g'.project == g.project && g'.attached == g.attached && g'.table.policy == g.table.policy
  {}

  /**
   * In every run in which the gateway was attached before its access configuration was changed, protected mode means
   * that every session that has not ended is invited, across any sequence of mode switches.
   */
  lemma {:induction false} ProtectedModeHolds(p: Policy, now: int, limits: Limits, events: seq<Event>)
    requires forall k :: 0 <= k < |events| && events[k].Attach? ==>
      var g := Run(NewGateway(p, now, limits), events[..k]); g.project == g.table.policy
    ensures var g := Run(NewGateway(p, now, limits), events); ProtectedMeansInvited(g) && InSync(g)
  {
    hide Step, ProtectedMeansInvited, Inv;
    var g0 := NewGateway(p, now, limits);
    if events == [] {
      StartsInvited(p, now, limits);
    } else {
      var n := |events| - 1;
      var before := events[..n];
      assert forall k :: 0 <= k < n ==> before[..k] == events[..k] && before[k] == events[k];
      ProtectedModeHolds(p, now, limits, before);
      NewGatewayOk(p, now, limits);
      RunKeeps(g0, before);
      InvHasTable(Run(g0, before));
      StepInvites(Run(g0, before), events[n]);
    }
  }

  lemma StartsInvited(p: Policy, now: int, limits: Limits)
    ensures ProtectedMeansInvited(NewGateway(p, now, limits))
  {}

  lemma InvHasTable(g: Gateway)
    requires Inv(g)
    ensures TableOk(g.table)
  {}

  /** Exactly when an update of an attached gateway leaves an uninvited session inside protected mode. */
  lemma UpdateGrandfathersExactly(g: Gateway, mode: Option<Mode>, maxUsers: Option<int>)
    requires g.attached && TableOk(g.table) && !AllInvited(g.table)
    ensures ProtectedMeansInvited(Step(g, UpdateAccess(mode, maxUsers))) <==>
      Patched(g.project, mode, maxUsers).mode == Open || (mode == Some(Protected) && g.project.mode != Protected)
  {
    var t := Step(g, UpdateAccess(mode, maxUsers)).table;
    var id :| id in g.table.order && id in g.table.records && !g.table.records[id].ended && !g.table.records[id].invited;
    assert id in t.order && id in t.records;
    if mode == Some(Protected) && g.project.mode != Protected {
      assert AllInvited(t);
    } else {
      assert !AllInvited(t);
    }
  }
}
