/** Two promises of the access rules that the code does not keep on every run, each with a run that breaks it. */
module AccessGaps {
  import opened Wrappers
  import opened Access
  import opened AccessInvariants
  import opened AccessRuns

  const ANNA: Visit := Visit("10.0.0.1", "anna", None, None)
  const BERT: Visit := Visit("10.0.0.2", "bert", None, None)
  const ROOMY: Limits := Limits(64, 32)

  lemma SecondAdmission(t: Table, v: Visit, now: int, a: SessionId, b: SessionId)
    requires t.order == [a] && t.records.Keys == {a} && t.blocked == {} && v.token.None? && v.cookie.None? && a != b
    requires t.policy.mode == Open && t.policy.maxUsers == 1
    requires t.records[a].fingerprint != v.fingerprint
    requires !IsActive(t.records[a], now, t.policy.idleTimeoutMs)
    ensures Admit(t, v, now, b) ==
      (t.(order := [a, b], records := t.records[b := Touch(NewSession(v, now, false, false), false, now)]), Admitted(b))
  {
    assert ActiveIds(t, now) == {};
    assert ByFingerprint(t, v.fingerprint, now, 1) == None;
    assert t.order + [b] == [a, b];
  }

  const ONE_USER: Policy := Policy(Open, 1, 1000, 600000)

  function Arrived(v: Visit, now: int): Session {
    Touch(NewSession(v, now, false, false), false, now)
  }

  /** A gateway with a limit of one user and these sessions, requests and sockets. */
  function Scene(order: seq<SessionId>, records: map<SessionId, Session>, now: int, streams: map<RequestId, Stream>,
                 inflight: map<SessionId, int>, owner: map<SocketId, SessionId>): Gateway {
    Gateway(Table(ONE_USER, records, order, {}, []), now, true, inflight, streams, owner, ROOMY, ONE_USER, false)
  }

  lemma RunAppends(g: Gateway, events: seq<Event>, e: Event)
    ensures Run(g, events + [e]) == Step(Run(g, events), e)
  {}

  lemma RunFive(g: Gateway, a: Event, b: Event, c: Event, d: Event, e: Event)
    ensures Run(g, [a, b, c, d, e]) == Step(Step(Step(Step(Step(g, a), b), c), d), e)
  {
    hide Step;
    assert [] + [a] == [a] && [a] + [b] == [a, b] && [a, b] + [c] == [a, b, c] && [a, b, c] + [d] == [a, b, c, d];
    assert [a, b, c, d] + [e] == [a, b, c, d, e];
    RunAppends(g, [], a);
    RunAppends(g, [a], b);
    RunAppends(g, [a, b], c);
    RunAppends(g, [a, b, c], d);
    RunAppends(g, [a, b, c, d], e);
  }

  lemma RunSix(g: Gateway, a: Event, b: Event, c: Event, d: Event, e: Event, f: Event)
    ensures Run(g, [a, b, c, d, e, f]) == Step(Step(Step(Step(Step(Step(g, a), b), c), d), e), f)
  {
    hide Step;
    RunFive(g, a, b, c, d, e);
    assert [a, b, c, d, e] + [f] == [a, b, c, d, e, f];
    RunAppends(g, [a, b, c, d, e], f);
  }

  // ── the user cap ──────────────────────────────────────────

  const ANNA_IN: Gateway := Scene(["a"], map["a" := Arrived(ANNA, 0).(sockets := {1})], 0, map[], map[], map[1 := "a"])
  const ANNA_OUT: Gateway := Scene(["a"], map["a" := Arrived(ANNA, 0)], 0, map[], map[], map[1 := "a"])
  const BERT_IN: Gateway :=
    Scene(["a", "b"], map["a" := Arrived(ANNA, 0), "b" := Arrived(BERT, 1000).(openConnections := 1)], 1000,
          map[1 := Stream("b", false)], map["b" := 1], map[1 := "a"])

  lemma Opens(e: Event)
    requires e == SetAvailable(true)
    ensures Step(NewGateway(ONE_USER, 0, ROOMY), e) == Scene([], map[], 0, map[], map[], map[])
  {}

  lemma AnnaArrives(e: Event)
    requires e == Upgrade(ANNA, 1, "a", true)
    ensures Step(Scene([], map[], 0, map[], map[], map[]), e) == ANNA_IN
  {}

  lemma AnnaLeaves(e: Event, tick: Event)
    requires e == Cleanup(1) && tick == Tick(1000)
    ensures Step(Step(ANNA_IN, e), tick) == ANNA_OUT.(now := 1000)
  {
    var attached: set<SocketId> := {1};
    assert attached - {1} == {};
    assert Step(ANNA_IN, e) == ANNA_OUT;
  }

  lemma BertArrives(e: Event)
    requires e == Request(BERT, 1, "b", true)
    ensures Step(ANNA_OUT.(now := 1000), e) == BERT_IN
  {
    hide Admit;
    SecondAdmission(ANNA_OUT.table, BERT, 1000, "a", "b");
  }

  lemma AnnaComesBack(e: Event)
    requires e == Cleanup(1)
    ensures ActiveNow(Step(BERT_IN, e)) == {"a", "b"}
  {}

  /**
   * Anna's socket is cleaned up, she goes idle, Bert takes the only place, and her second cleanup runs late: with a
   * limit of one user, two are active. The first cleanup destroys both ends of the connection, so the second follows
   * at once, unless an idle timeout passes before the other end reports its close: when the machine sleeps or the event
   * loop is held up in between, Bert's request, which is polled before close events are, comes first.
   */
  lemma LateCleanupExceedsCap()
    ensures |ActiveNow(Run(NewGateway(ONE_USER, 0, ROOMY), [
      SetAvailable(true), Upgrade(ANNA, 1, "a", true), Cleanup(1), Tick(1000), Request(BERT, 1, "b", true), Cleanup(1)]))| == 2
  {
    hide Step, Run, ActiveNow, NewGateway, Scene, Arrived;
    var (a, b, c, d, e) := (SetAvailable(true), Upgrade(ANNA, 1, "a", true), Cleanup(1), Tick(1000), Request(BERT, 1, "b", true));
    Opens(a);
    AnnaArrives(b);
    AnnaLeaves(c, d);
    BertArrives(e);
    AnnaComesBack(c);
    RunSix(NewGateway(ONE_USER, 0, ROOMY), a, b, c, d, e, c);
  }

  // ── protected mode ────────────────────────────────────────

  /** What the engine believes once protected mode has been chosen. */
  const CLOSED: Policy := ONE_USER.(mode := Protected)

  const WAITING: Gateway := NewGateway(ONE_USER, 0, ROOMY)
  const ATTACHED: Gateway := Scene([], map[], 0, map[], map[], map[]).(project := CLOSED, attached := true)
  const ANNA_INSIDE: Gateway := ANNA_IN.(project := CLOSED, attached := true)

  lemma SwitchIsNoted(e: Event, attach: Event, open: Event)
    requires e == UpdateAccess(Some(Protected), None) && attach == Attach && open == SetAvailable(true)
    ensures Step(Step(Step(WAITING, e), attach), open) == ATTACHED
  {
    var g := Step(WAITING, e);
    assert g == WAITING.(project := CLOSED);
  }

  lemma AnnaIsLetIn(e: Event)
    requires e == Upgrade(ANNA, 1, "a", true)
    ensures Step(ATTACHED, e) == ANNA_INSIDE
  {
    hide UpgradeSocket;
    AnnaArrives(e);
    SameUpgrade(Scene([], map[], 0, map[], map[], map[]), CLOSED);
  }

  /** What the engine believes does not matter to an upgrade. */
  lemma SameUpgrade(g: Gateway, p: Policy)
    ensures UpgradeSocket(g.(project := p, attached := true), ANNA, 1, "a") == UpgradeSocket(g, ANNA, 1, "a").(project := p, attached := true)
  {
    hide Admit;
  }

  lemma LimitSwitchesMode(e: Event)
    requires e == UpdateAccess(None, Some(5))
    ensures Step(ANNA_INSIDE, e) ==
      ANNA_INSIDE.(project := CLOSED.(maxUsers := 5), table := ANNA_INSIDE.table.(policy := CLOSED.(maxUsers := 5)))
  {
    hide Arrived;
  }

  /**
   * Protected mode is chosen while the gateway is still starting, so the gateway stays open when it opens for visitors;
   * the next update, here a new limit, closes it, and Anna's session is inside protected mode without an invitation:
   * nobody grandfathered her.
   */
  lemma SwitchWhileStartingLocksOut()
    ensures var g := Run(NewGateway(ONE_USER, 0, ROOMY), [
      UpdateAccess(Some(Protected), None), Attach, SetAvailable(true), Upgrade(ANNA, 1, "a", true), UpdateAccess(None, Some(5))]);
      !ProtectedMeansInvited(g) && Listed(g.table, "a") && !g.table.records["a"].invited
  {
    hide Step, Run, NewGateway;
    var (a, b) := (UpdateAccess(Some(Protected), None), SetAvailable(true));
    var (c, d) := (Upgrade(ANNA, 1, "a", true), UpdateAccess(None, Some(5)));
    var locked := ANNA_INSIDE.(project := CLOSED.(maxUsers := 5), table := ANNA_INSIDE.table.(policy := CLOSED.(maxUsers := 5)));
    RunFive(WAITING, a, Attach, b, c, d);
    SwitchIsNoted(a, Attach, b);
    AnnaIsLetIn(c);
    LimitSwitchesMode(d);
    AnnaIsLockedIn(locked);
    assert Run(WAITING, [a, Attach, b, c, d]) == locked;
  }

  lemma AnnaIsLockedIn(g: Gateway)
    requires g.table.order == ["a"] && g.table.records == map["a" := Arrived(ANNA, 0).(sockets := {1})]
    requires g.table.policy.mode == Protected
    ensures !ProtectedMeansInvited(g) && Listed(g.table, "a") && !g.table.records["a"].invited
  {
    assert "a" in g.table.order && "a" in g.table.records;
    assert !g.table.records["a"].ended && !g.table.records["a"].invited;
  }
}
