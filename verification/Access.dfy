/**
 * The session table and the gateway's bookkeeping around it. One handled request, upgrade, stream end, socket close,
 * sweep or operator action is one atomic step; the clock only moves forward between steps.
 */
module Access {
  import opened Wrappers

  type SessionId = string
  type Address = string
  type Fingerprint = string
  type TokenHash = string
  type RequestId = nat
  type SocketId = nat

  datatype Mode = Open | Protected

  /** `maxUsers` 0 means unlimited. */
  datatype Policy = Policy(mode: Mode, maxUsers: int, idleTimeoutMs: int, retentionMs: int)

  datatype Status = Active | Idle | Closed

  /** `redeemed` records that an invite token made the session invited; the session table does not keep it. */
  datatype Session = Session(
    address: Address, fingerprint: Fingerprint, connectedAt: int, lastSeenAt: int, status: Status,
    requests: nat, openConnections: int, invited: bool, redeemed: bool, cookieConfirmed: bool,
    sockets: set<SocketId>, ended: bool)

  datatype Invite = Invite(id: string, hash: TokenHash, expiresAt: int, maxUses: int, uses: int, revoked: bool)

  /** `order` is the session map in insertion order; `records` also keeps sessions only a closure still holds. */
  datatype Table = Table(
    policy: Policy, records: map<SessionId, Session>, order: seq<SessionId>, blocked: set<Address>, invites: seq<Invite>)

  /** Requests without a cookie from one address and agent join one session within this window. */
  const FINGERPRINT_WINDOW_MS: int := 15000

  predicate Listed(t: Table, id: SessionId) {
    id in t.order && id in t.records
  }

  // ── who is active ─────────────────────────────────────────

  predicate IsActive(s: Session, now: int, idleTimeoutMs: int) {
    !s.ended && (s.sockets != {} || s.openConnections > 0 || now - s.lastSeenAt < idleTimeoutMs)
  }

  function ActiveIds(t: Table, now: int): set<SessionId> {
    set id | id in t.order && id in t.records && IsActive(t.records[id], now, t.policy.idleTimeoutMs)
  }

  predicate HasCapacity(t: Table, now: int) {
    t.policy.maxUsers <= 0 || |ActiveIds(t, now)| < t.policy.maxUsers
  }

  // ── lookups ───────────────────────────────────────────────

  predicate Joins(s: Session, fp: Fingerprint, now: int) {
    && s.fingerprint == fp && !s.ended && s.status != Closed
    && (!s.cookieConfirmed || now - s.connectedAt < FINGERPRINT_WINDOW_MS)
  }

  /** The first session in insertion order that a request without a cookie joins. */
  function ByFingerprint(t: Table, fp: Fingerprint, now: int, from: nat): (r: Option<SessionId>)
    decreases |t.order| - from
    ensures r.Some? ==> Listed(t, r.value) && Joins(t.records[r.value], fp, now)
  {
    if from >= |t.order| then None
    else if t.order[from] in t.records && Joins(t.records[t.order[from]], fp, now) then Some(t.order[from])
    else ByFingerprint(t, fp, now, from + 1)
  }

  // ── updates of one session ────────────────────────────────

  function NewSession(v: Visit, now: int, invited: bool, redeemed: bool): Session {
    Session(v.address, v.fingerprint, now, now, Active, 0, 0, invited, redeemed, false, {}, false)
  }

  function Touch(s: Session, viaCookie: bool, now: int): Session {
    s.(lastSeenAt := now, requests := s.requests + 1, cookieConfirmed := s.cookieConfirmed || viaCookie, status := Active)
  }

  function Max(a: int, b: int): int {
    if a >= b then a else b
  }

  function EndStream(s: Session, now: int): Session {
    s.(openConnections := Max(0, s.openConnections - 1), lastSeenAt := now)
  }

  function Detach(s: Session, h: SocketId, now: int): Session {
    s.(sockets := s.sockets - {h}, lastSeenAt := now)
  }

  function Put(t: Table, id: SessionId, s: Session): Table {
    t.(records := t.records[id := s])
  }

  // ── invites ───────────────────────────────────────────────

  /** The first invite with this token hash, or the number of invites. */
  function FindInvite(invites: seq<Invite>, hash: TokenHash, from: nat): (i: nat)
    requires from <= |invites|
    decreases |invites| - from
    ensures from <= i <= |invites| && (i < |invites| ==> invites[i].hash == hash)
  {
    if from == |invites| || invites[from].hash == hash then from else FindInvite(invites, hash, from + 1)
  }

  predicate Redeemable(inv: Invite, now: int) {
    !inv.revoked && inv.expiresAt >= now && inv.uses < inv.maxUses
  }

  function Redeem(invites: seq<Invite>, hash: TokenHash, now: int): (r: Option<seq<Invite>>) {
    var i := FindInvite(invites, hash, 0);
    if i < |invites| && Redeemable(invites[i], now) then Some(invites[i := invites[i].(uses := invites[i].uses + 1)])
    else None
  }

  // ── admission ─────────────────────────────────────────────

  /** What `admit` reads from a request. */
  datatype Visit = Visit(address: Address, fingerprint: Fingerprint, cookie: Option<SessionId>, token: Option<TokenHash>)

  datatype Denial = Blocked | EndedSession | InviteInvalid | NotInvited | Limit

  datatype Verdict = Admitted(session: SessionId) | Denied(reason: Denial)

  function ViaCookie(t: Table, v: Visit): bool {
    v.cookie.Some? && Listed(t, v.cookie.value)
  }

  function Lookup(t: Table, v: Visit, now: int): (r: Option<SessionId>)
    ensures r.Some? ==> Listed(t, r.value)
  {
    if ViaCookie(t, v) then v.cookie else ByFingerprint(t, v.fingerprint, now, 0)
  }

  /** The use of an invite marks the session it came with at once, even if admission fails later. */
  function MarkInvited(t: Table, found: Option<SessionId>, invites: seq<Invite>): Table
    requires found.Some? ==> Listed(t, found.value)
  {
    var t1 := t.(invites := invites);
    if found.Some? then Put(t1, found.value, t.records[found.value].(invited := true, redeemed := true)) else t1
  }

  /** The tail of `admit`, once the token has been dealt with. */
  function Seat(t: Table, v: Visit, found: Option<SessionId>, viaCookie: bool, invited: bool, now: int, newId: SessionId):
    (r: (Table, Verdict))
    requires found.Some? ==> Listed(t, found.value)
    ensures r.0.policy == t.policy && r.0.invites == t.invites
  {
    if t.policy.mode == Protected && !invited then (t, Denied(NotInvited))
    else if (found.None? || !IsActive(t.records[found.value], now, t.policy.idleTimeoutMs)) && !HasCapacity(t, now) then
      (t, Denied(Limit))
    else if found.Some? then
      (Put(t, found.value, Touch(t.records[found.value], viaCookie, now)), Admitted(found.value))
    else
      (Put(t.(order := t.order + [newId]), newId, Touch(NewSession(v, now, invited, v.token.Some?), viaCookie, now)),
       Admitted(newId))
  }

  function Admit(t: Table, v: Visit, now: int, newId: SessionId): (r: (Table, Verdict))
    ensures r.0.policy == t.policy
  {
    if v.address in t.blocked then (t, Denied(Blocked))
    else if ViaCookie(t, v) && t.records[v.cookie.value].ended then (t, Denied(EndedSession))
    else
      var found := Lookup(t, v, now);
      if v.token.None? then
        Seat(t, v, found, ViaCookie(t, v), found.Some? && t.records[found.value].invited, now, newId)
      else
        var used := Redeem(t.invites, v.token.value, now);
        if used.None? then (t, Denied(InviteInvalid))
        else Seat(MarkInvited(t, found, used.value), v, found, ViaCookie(t, v), true, now, newId)
  }

  // ── maintenance ───────────────────────────────────────────

  predicate Forgotten(s: Session, now: int, p: Policy) {
    !s.ended && !IsActive(s, now, p.idleTimeoutMs) && now - s.lastSeenAt > p.retentionMs
  }

  function SweepSession(s: Session, now: int, p: Policy): Session {
    if s.ended || IsActive(s, now, p.idleTimeoutMs) then s
    else if Forgotten(s, now, p) then s.(status := Closed)
    else if s.status == Active then s.(status := Idle)
    else s
  }

  /** The ids of `order` that survive a sweep, in the same order. */
  function Survivors(order: seq<SessionId>, records: map<SessionId, Session>, now: int, p: Policy): seq<SessionId> {
    if order == [] then []
    else
      var init, id := order[..|order| - 1], order[|order| - 1];
      Survivors(init, records, now, p) + (if id in records && Forgotten(records[id], now, p) then [] else [id])
  }

  function Sweep(t: Table, now: int): Table {
    t.(records := map id | id in t.records ::
                    if id in t.order then SweepSession(t.records[id], now, t.policy) else t.records[id],
       order := Survivors(t.order, t.records, now, t.policy))
  }

  function Remove(order: seq<SessionId>, id: SessionId): seq<SessionId> {
    if order == [] then []
    else
      var init, last := order[..|order| - 1], order[|order| - 1];
      Remove(init, id) + (if last == id then [] else [last])
  }

  function End(t: Table, id: SessionId, block: bool): Table {
    if !Listed(t, id) then t
    else
      var s := t.records[id];
      Put(t, id, s.(ended := true, status := Closed, sockets := {}))
      .(blocked := if block then t.blocked + {s.address} else t.blocked)
  }

  // ── the gateway ───────────────────────────────────────────

  datatype Limits = Limits(maxConcurrent: nat, maxSockets: nat)

  /** An admitted request that is being proxied; `finished` is the flag inside its `done`. */
  datatype Stream = Stream(session: SessionId, finished: bool)

  /**
   * `project` is the access configuration the engine keeps, `table.policy` the gateway's copy; they are only tied
   * together once the gateway is `attached` to the deployment. `owner` remembers the session of every upgraded socket.
   */
  datatype Gateway = Gateway(
    table: Table, now: int, available: bool, inflight: map<SessionId, int>, streams: map<RequestId, Stream>,
    owner: map<SocketId, SessionId>, limits: Limits, project: Policy, attached: bool)

  /** `passes` is false when the request stops at the probe, rate, size or path check before admission. */
  datatype Event =
    | Tick(ms: nat)
    | Request(visit: Visit, request: RequestId, newId: SessionId, passes: bool)
    | StreamFails(request: RequestId)
    | ResponseCloses(request: RequestId)
    | Upgrade(visit: Visit, handle: SocketId, newId: SessionId, passes: bool)
    | Cleanup(handle: SocketId)
    | SweepTimer
    | Disconnect(session: SessionId, block: bool)
    | TombstoneTimer(session: SessionId)
    | Unblock(address: Address)
    | CreateInvite(id: string, hash: TokenHash, ttlMs: int, maxUses: int)
    | RevokeInvite(id: string)
    | UpdateAccess(mode: Option<Mode>, maxUsers: Option<int>)
    | SetAvailable(value: bool)
    | Attach
    | Stop

  function Inflight(g: Gateway, id: SessionId): int {
    if id in g.inflight then g.inflight[id] else 0
  }

  function HandleRequest(g: Gateway, v: Visit, r: RequestId, newId: SessionId): Gateway {
    var (t, verdict) := Admit(g.table, v, g.now, newId);
    var g1 := g.(table := t);
    if verdict.Denied? || v.token.Some? || !g.available then g1
    else
      var id := verdict.session;
      if Inflight(g, id) >= g.limits.maxConcurrent || id !in t.records then g1
      else
        var s := t.records[id];
        g1.(inflight := g.inflight[id := Inflight(g, id) + 1],
            streams := g.streams[r := Stream(id, false)],
            table := Put(t, id, s.(openConnections := s.openConnections + 1)))
  }

  /** `done` runs at most once per request. */
  function FinishStream(g: Gateway, r: RequestId): Gateway {
    if r !in g.streams || g.streams[r].finished || g.streams[r].session !in g.table.records then g
    else
      var id := g.streams[r].session;
      g.(streams := g.streams[r := Stream(id, true)],
         table := Put(g.table, id, EndStream(g.table.records[id], g.now)))
  }

  function CloseResponse(g: Gateway, r: RequestId): Gateway {
    if r !in g.streams then g
    else
      var id := g.streams[r].session;
      var n := (if id in g.inflight then g.inflight[id] else 1) - 1;
      var g1 := FinishStream(g, r);
      g1.(streams := g1.streams - {r},
          inflight := if n <= 0 then g.inflight - {id} else g.inflight[id := n])
  }

  function UpgradeSocket(g: Gateway, v: Visit, h: SocketId, newId: SessionId): Gateway {
    var (t, verdict) := Admit(g.table, v.(token := None), g.now, newId);
    var g1 := g.(table := t);
    if verdict.Denied? || !g.available || verdict.session !in t.records then g1
    else
      var id, s := verdict.session, t.records[verdict.session];
      if |s.sockets| >= g.limits.maxSockets then g1
      else g1.(owner := g.owner[h := id], table := Put(t, id, s.(sockets := s.sockets + {h})))
  }

  /** `cleanup` runs for every error and close of either end, so it may run again for a socket already detached. */
  function CleanupSocket(g: Gateway, h: SocketId): Gateway {
    if h !in g.owner || g.owner[h] !in g.table.records then g
    else
      var id := g.owner[h];
      g.(table := Put(g.table, id, Detach(g.table.records[id], h, g.now)))
  }

  /** Switching to protected mode lets everyone who already has a session stay. */
  function Grandfather(t: Table): Table {
    t.(records := map id | id in t.records ::
      if id in t.order && !t.records[id].ended then t.records[id].(invited := true) else t.records[id])
  }

  function Patched(p: Policy, mode: Option<Mode>, maxUsers: Option<int>): Policy {
    p.(mode := if mode.Some? then mode.value else p.mode, maxUsers := if maxUsers.Some? then maxUsers.value else p.maxUsers)
  }

  function UpdatePolicy(g: Gateway, mode: Option<Mode>, maxUsers: Option<int>): Gateway {
    var p := Patched(g.project, mode, maxUsers);
    if !g.attached then g.(project := p)
    else
      var t := if mode == Some(Protected) && g.project.mode != Protected then Grandfather(g.table) else g.table;
      g.(project := p, table := t.(policy := p))
  }

  function Revoke(invites: seq<Invite>, id: string): seq<Invite> {
    seq(|invites|, i requires 0 <= i < |invites| => if invites[i].id == id then invites[i].(revoked := true) else invites[i])
  }

  /** Session ids, request objects, socket handles and invites are new ones; an event that would reuse one is no event. */
  function Step(g: Gateway, e: Event): Gateway {
    match e
    case Tick(ms) => g.(now := g.now + ms)
    case Request(v, r, newId, passes) =>
      if !passes || r in g.streams || newId in g.table.records || newId in g.table.order then g else HandleRequest(g, v, r, newId)
    case StreamFails(r) => FinishStream(g, r)
    case ResponseCloses(r) => CloseResponse(g, r)
    case Upgrade(v, h, newId, passes) =>
      if !passes || h in g.owner || newId in g.table.records || newId in g.table.order then g else UpgradeSocket(g, v, h, newId)
    case Cleanup(h) => CleanupSocket(g, h)
    case SweepTimer => g.(table := Sweep(g.table, g.now))
    case Disconnect(id, block) => g.(table := End(g.table, id, block))
    case TombstoneTimer(id) =>
      if id in g.table.records && g.table.records[id].ended then g.(table := g.table.(order := Remove(g.table.order, id))) else g
    case Unblock(a) => g.(table := g.table.(blocked := g.table.blocked - {a}))
    case CreateInvite(id, hash, ttl, max) =>
      g.(table := g.table.(invites := g.table.invites + [Invite(id, hash, g.now + ttl, max, 0, false)]))
    case RevokeInvite(id) => g.(table := g.table.(invites := Revoke(g.table.invites, id)))
    case UpdateAccess(mode, max) => UpdatePolicy(g, mode, max)
    case SetAvailable(v) => g.(available := v)
    case Attach => g.(attached := true)
    case Stop => g.(table := g.table.(order := []))
  }

  function Run(g: Gateway, events: seq<Event>): Gateway {
    if events == [] then g else Step(Run(g, events[..|events| - 1]), events[|events| - 1])
  }

  /** A gateway as `expose` creates it: its policy is the project's at that moment. */
  function NewGateway(p: Policy, now: int, limits: Limits): Gateway {
    Gateway(Table(p, map[], [], {}, []), now, false, map[], map[], map[], limits, p, false)
  }
}
