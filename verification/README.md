# Rynk's daemon, verified

Rynk deploys local projects: its daemon starts an application, waits until it answers, puts an access gateway in front
of it, keeps its logs, restarts it when it crashes and tells other machines about it. The daemon is a set of small
stateful components whose async code interleaves at every `await`. This project models those components and proves
what they promise over whole runs, whichever way requests, timers, process exits and resumptions interleave.

Each synchronous stretch between two awaits is one atomic step. Where the daemon has a class whose methods update
fields, there is a class here too: the `ensures` clauses of its methods tie its new state to the step functions, and its
`Valid` carries the invariant that the theorems rest on. The theorems are about runs of the step functions. Loops of the
daemon are loops here, proved against functions or declarative specifications. The functions that the steps are made of
have partners that say what they decide in other words, in terms of the input alone: `DeploymentOutcomes`,
`AccessAdmission`, `CommandGrammar`, `RateConformance`, `DiscoveryAnnouncements` and others.

## The files

- `States`: the deployment state table, its health gate and its progress measure.
- `DeploymentProtocol`, `DeploymentSteps`, `DeploymentInvariants`, `DeploymentRuns`, `DeploymentExceptions`,
  `DeploymentTimers`, `DeploymentOutcomes`, `DeploymentLive`, `DeploymentEngine`: the engine.
  A suspended async method is a task that remembers where it waits; a run is any sequence of deploys, restart and stop
  requests, process exits, timers and resumptions over all deployments.
- `Access`, `AccessAdmission`, `AccessEndings`, `AccessHistory`, `AccessInvariants`, `AccessRuns`, `AccessInvites`,
  `AccessGaps`, `AccessGateway`: sessions, admission, the user cap, invites, protected mode, and the accounting of streams
  and sockets.
- `Ports`, `PortAllocator`: what a project may be given, and the allocator with its loops. `PortQueue`,
  `PortQueueRuns`, `PortQueueAttempts`: the same calls queued on a promise chain, with `release` landing at any await.
- `Logs`, `LogAnswers`, `LogObjects`: the ring, the write batch and the pruned table that answer as one history.
- `RateLimit`, `RateConformance`: the token bucket. `Health`, `Startup`, `Backoff`: hysteresis, startup polling and crash delays.
- `Command`, `CommandGrammar`, `CommandJson`, `CommandRoundTrip`: the tokenizer and the printer. `Redact`: the literal pass of the redactor.
- `Discovery`, `DiscoveryAnnouncements`, `DiscoveryLiveness`, `DiscoveryOverlap`, `DiscoveryRegistry`: the registry of other
  nodes, its fetches and its sweeps.

`dafny verify dfyconfig.toml` checks everything.

## Where the code does not do what it says

The model follows the code. Each of these places has a run that shows it or an exact condition, most of them both.

- `fail` writes FAILED outside the table. A failure that began before a stop turns STOPPED into FAILED when the stop ends
  first (`FailedAfterStopped`); that is the only way a state change leaves the table (`StatesFollowTheTable`, an
  if-and-only-if over every step of every run).
- A second restart request while the deployment is RESTARTING ends it, because RESTARTING may not follow itself: a run
  (`SecondRestartFails`), every continuation (`SecondRestartEnds`), and the exact condition under which a request is
  served in place (`RestartsInPlaceIff`).
- A stability timer can outlive the LIVE period it was set in and forgive crashes although the application was never
  stable. There are two ways: a launch ends and arms the timer after LIVE has been left again, as by a crash
  (`StaleTimerForgivesCrash`, a run), or LIVE is left while an older timer is armed, because only the latest one is cleared
  (`OverwrittenTimerForgivesCrashes`, a run whose timers are both set at LIVE). There is no third one: `StaleIffStrays` is
  exact for every step and `StaleTimersIff` for every run. `CrashWindow` therefore bounds the crash restarts between two
  resets of the timer.
- A socket's `cleanup` runs up to four times. A late one refreshes a session that has gone idle and can lift the number
  of active users above the limit (`LateCleanupExceedsCap`); no other step can (`CleanupRaisesExactly`, `StepIsCapped`).
  It takes an idle timeout between two close events of one connection, as when the machine sleeps in between.
- Sessions are grandfathered by comparing with the project's access settings, not the gateway's. A switch to protected
  mode while the gateway is still starting grandfathers nobody (`SwitchWhileStartingLocksOut`); the exact condition is
  `UpdateGrandfathersExactly`.
- `adopt` does not look who holds the port. It takes a reservation away exactly when another project had it.
- `recent` with a limit of zero answers the whole ring, because a slice from minus zero is everything (`LimitZero`). No
  route sends zero: the query schema admits limits from 1 to 10,000 (packages/core/src/schemas.ts:33).
- A secret that can overlap the text `[REDACTED]` can reappear around a token; `GoneIffSafe` says exactly which can.
- Printing words and tokenizing them loses quotes and backslashes in words without white space, control characters in
  words with white space, lone surrogates, and empty words; `RoundTrip` is exact.
- A sweep judges a node by the age it had when its turn began. A slow sweep that overlaps the next one puts an
  unreachable node back online (`OverlappingSweepsLift`), and a goodbye that lands in a fetch is undone when the fetch
  fails (`GoodbyeDuringFetchLifts`); both are runs from the start with the default limits. Sweeps start every five seconds
  and ask the nodes one after the other. When exactly a node that was not heard of looks more alive is
  `SilentStepLiftsIff` for a step and `UnheardSinksIff` for a stretch of any run.
- Below the ceiling the next crash delay is always longer; where the ceiling cuts it short, `AlwaysLongerIff` says exactly
  when.


## Model

| member | source | states |
|---|---|---|
| `DeploymentStates.BuildTransitions` | packages/core/src/state.ts:42-70 | the table that the loops fill admits exactly the transitions of the written-out relation `CanTransition` |
| `DeploymentStates.GateOnEveryPath` | packages/core/src/state.ts:45-51 | every legal path that starts before and ends past the health gate visits HEALTH_CHECKING, and stays past the gate after the last visit |
| `DeploymentStates.OnlyStoppingLoops` | packages/core/src/state.ts:53-58 | STOPPING is the only state with a transition to itself |
| `DeploymentStates.RankStep` | packages/core/src/state.ts:42-70 | every other transition climbs a rank below 15 unless it is a fresh start |
| `DeploymentStates.RunsMakeProgress` | packages/core/src/state.ts:42-70 | the length of a legal path is bounded by its fresh starts and repeated STOPPINGs: the table has no other cycle |
| `DeploymentInvariants.StepKeeps` | services/daemon/src/engine.ts:449-581 | the inductive invariant (one launcher, stop flag driven to an end, health gate, crash budget) survives every atomic step, whichever suspended method, request, exit or timer comes next |
| `DeploymentSteps.StepPromise` | services/daemon/src/engine.ts:799-913 | what one step may do: follow the table or write FAILED over an ended state, never undo `stopping`, enter STARTING and LIVE only as counted, note a healthy answer only from the launcher of the current entry to STARTING |
| `DeploymentRuns.OneActivePerProject` | services/daemon/src/engine.ts:110-139 | in every run a project has at most one deployment that has not ended, and it is the one in the `live` map |
| `DeploymentRuns.EndedForGood` | services/daemon/src/engine.ts:853-903 | a deployment that was STOPPED or FAILED once is STOPPED or FAILED ever after |
| `DeploymentRuns.StopWins` | services/daemon/src/engine.ts:853-874 | from the stop flag on: only STOPPING, STOPPED or FAILED, no further entry to STARTING or LIVE, and exactly one teardown body |
| `DeploymentRuns.StopTakesEffectAtOnce` | services/daemon/src/engine.ts:853-859 | the step that handles a stop already leaves the deployment stopping or ended |
| `DeploymentRuns.QuietMeansSettled` | services/daemon/src/engine.ts:853-913 | when no suspended method is left the deployment is LIVE or has ended, and one that was stopped has ended |
| `DeploymentRuns.StoppedStepDrains` | services/daemon/src/engine.ts:853-903 | after a stop no step adds a method that can still launch, and every resumption brings its method closer to its end |
| `DeploymentRuns.StopDrains` | services/daemon/src/engine.ts:853-903 | after a stop only a bounded number of resumptions remain, fixed when it was requested, in every continuation of the run |
| `DeploymentRuns.HealthGate` | services/daemon/src/engine.ts:505-564 | REGISTERING, EXPOSING and LIVE only in a launch whose own poll was answered after the latest entry to STARTING |
| `DeploymentRuns.HealthyAnswerBehindLive` | services/daemon/src/engine.ts:524-564 | behind such a state lies a concrete step of the run: its own launcher got the healthy answer, and STARTING was not entered again since |
| `DeploymentRuns.TallyIsHistory` | services/daemon/src/engine.ts:818-851 | the counters kept with the record equal what an observer counts in the run |
| `DeploymentRuns.CrashWindow` | services/daemon/src/engine.ts:834-842 | in any stretch of a run without a reset of the stability timer at most `maxRetries` crash restarts happen, fewer by the attempts already used, and LIVE is entered at most once for each restart and once more |
| `DeploymentRuns.CrashBudget` | services/daemon/src/engine.ts:834-842 | over a whole run: at most `maxRetries` crash restarts for each reset and once more, and without resets and requested restarts at most `maxRetries` + 1 entries to LIVE |
| `DeploymentExceptions.StatesFollowTheTable` | services/daemon/src/engine.ts:899-903 | for every step of every run: the state change is in the table if and only if the step is not the end of a failure on a deployment that is STOPPED |
| `DeploymentExceptions.FailedAfterStopped` | services/daemon/src/engine.ts:899-903 | the exception happens: a failure that began before a stop writes FAILED over STOPPED, which the table forbids |
| `DeploymentExceptions.RestartsInPlaceIff` | services/daemon/src/engine.ts:164-168 | a restart request is on its way to a new launch in place if and only if the deployment is LIVE |
| `DeploymentExceptions.SecondRestartEnds` | services/daemon/src/engine.ts:164-168 | in every continuation of a run, a restart request on a RESTARTING deployment has ended it or its method is still to write FAILED |
| `DeploymentExceptions.SecondRestartFails` | services/daemon/src/engine.ts:799-816 | a run from the empty engine in which the second of two requests fails a deployment that was LIVE |
| `DeploymentTimers.ArmsOffLiveIff` | services/daemon/src/engine.ts:579-580 | a step arms the stability timer of a deployment that is not LIVE if and only if it ends a launch that came too late |
| `DeploymentTimers.StaleIffStrays` | services/daemon/src/engine.ts:564-580 | for every step from a sound state: a timer is left armed while the deployment is on its way to LIVE or back to it, if and only if the step ends a launch after LIVE was left, or leaves LIVE while a timer other than the latest is armed |
| `DeploymentTimers.StaleTimersIff` | services/daemon/src/engine.ts:564-580 | over every run from the empty engine: some armed timer was set before a moment off LIVE, so that it may forgive crashes of an application that was not stable, if and only if some step of the run did one of these two things |
| `DeploymentTimers.StaleTimerForgivesCrash` | services/daemon/src/engine.ts:579-580 | a run for the first of them: the process crashes right after LIVE, the timer is armed while RESTARTING, fires, and forgives the crash |
| `DeploymentTimers.OverwrittenTimerForgivesCrashes` | services/daemon/src/engine.ts:819-842 | a run for the second: two timers set at LIVE, the second crash clears only the newer one, and the older one forgives both crashes while RESTARTING |
| `DeploymentOutcomes.PolicyDecides` | services/daemon/src/engine.ts:818-842 | in every run, what the exit of the serving process leads to, with the policy written out: another launch after a pause for `always`, and for `on-failure` unless the code is 0, while retries are left; the end for code 0 unless the policy is `always`; a failure otherwise; any other exit decides nothing |
| `DeploymentOutcomes.RequestsDecide` | services/daemon/src/engine.ts:141-175 | what a stop and a restart request lead to in every condition of a deployment |
| `DeploymentOutcomes.TrailIsCourse` | services/daemon/src/engine.ts:449-564 | in every run a deployment goes through exactly the stages of its configuration, in order, up to LIVE or its end: INSTALLING and BUILDING if and only if configured, and no stage left out |
| `DeploymentOutcomes.ResumptionDecides` | services/daemon/src/engine.ts:505-564 | where a launch stands after each awaited call, and what of the record it changes: failing if the call failed, giving up if the poll did, and otherwise one position nearer to LIVE |
| `DeploymentOutcomes.LaunchGoesLive` | services/daemon/src/engine.ts:505-564 | a launch whose calls all succeed goes LIVE, from wherever it is, within a number of resumptions known beforehand |
| `DeploymentOutcomes.CleanupDecides` | services/daemon/src/engine.ts:853-912 | where the cleanup of a failure and of a stop stand after each awaited call |
| `DeploymentOutcomes.StopEndsStopped` | services/daemon/src/engine.ts:853-874 | a deployment that is stopped while it is not failing is STOPPING or STOPPED in every continuation, and STOPPED once no method is left |
| `DeploymentLive.DeployStartsIff` | services/daemon/src/engine.ts:110-139 | in every run a deploy starts a deployment of its own configuration if and only if none of the project is active, and otherwise changes nothing |
| `DeploymentLive.ShownUntilDone` | services/daemon/src/engine.ts:874-912 | in every run a project shows its active deployment, and an ended one only until its methods are done |
| `DeploymentLive.ExitsAreHeardAgain` | services/daemon/src/engine.ts:799-818 | in every run exits are ignored only while a relaunch is waiting for its old process |
| `DeploymentEngine.Live.SetState` | services/daemon/src/engine.ts:925-930 | the write of `transition` changes the record as the protocol's write does |
| `DeploymentEngine.Live.Advance` | services/daemon/src/engine.ts:925-930 | a stage change is refused and the launch fails exactly as in the protocol |
| `DeploymentEngine.Live.BeginLaunch` | services/daemon/src/engine.ts:505-508 | the first stretch of `launch` is the protocol's step |
| `DeploymentEngine.Live.BeginRelaunch` | services/daemon/src/engine.ts:799-805 | the first stretch of `relaunch` is the protocol's step, with its flag |
| `DeploymentEngine.Live.BeginTeardown` | services/daemon/src/engine.ts:853-866 | the first stretch of `teardown` is the protocol's step: one body only |
| `DeploymentEngine.Live.BeginFail` | services/daemon/src/engine.ts:889-894 | the first stretch of `fail` is the protocol's step: nothing once a stop was requested |
| `DeploymentEngine.Live.CatchError` | services/daemon/src/engine.ts:812-815 | the catch blocks clear the relaunch flag and fail, as the protocol does |
| `DeploymentEngine.Live.Restart` | services/daemon/src/engine.ts:164-175 | a restart request, in place or by stopping first, is the protocol's step |
| `DeploymentEngine.Live.Stop` | services/daemon/src/engine.ts:141-157 | a stop request is the protocol's step |
| `DeploymentEngine.Live.Exit` | services/daemon/src/engine.ts:818-824 | a process exit is ignored or handled exactly as in the protocol |
| `DeploymentEngine.Live.LiveExit` | services/daemon/src/engine.ts:828-842 | the end of a serving process: stop, give up or restart, as in the protocol |
| `DeploymentEngine.Live.AfterStage` | services/daemon/src/engine.ts:452-495 | `run` goes on to the next stage, skipping install and build as configured |
| `DeploymentEngine.Live.AfterHealthCheck` | services/daemon/src/engine.ts:531-559 | after the poll: leave when stopped, give up, adopt the port or register |
| `DeploymentEngine.Live.AfterLive` | services/daemon/src/engine.ts:564-580 | the stability timer is armed after LIVE, whatever happened meanwhile |
| `DeploymentEngine.Live.AfterCleanup` | services/daemon/src/engine.ts:899-903 | FAILED through the table or past it |
| `DeploymentEngine.Live.AfterRelease` | services/daemon/src/engine.ts:866-873 | STOPPED is written only from STOPPING |
| `DeploymentEngine.Live.Continue` | services/daemon/src/engine.ts:449-581 | one resumption of any suspended method is the protocol's resumption step |
| `DeploymentEngine.DeploymentEngine.Deploy` | services/daemon/src/engine.ts:110-139 | answers with the running deployment when there is one, otherwise the record takes over the project; of each project at most one record is active |
| `DeploymentEngine.DeploymentEngine.Deliver` | services/daemon/src/engine.ts:853-913 | an event of one record is one step of the system; the last resumption of an ended one takes it out of `live`; of each project at most one record is active |
| `AccessInvariants.StepKeeps` | packages/access/src/gateway.ts:268-306 | distinct listed sessions, exact connection counters, owned sockets and all per-session limits survive every step |
| `AccessInvariants.AdmitHasShape` | packages/access/src/gateway.ts:180-215 | an admission touches one listed session or adds one, and nothing else |
| `AccessInvariants.ClampNeverActs` | packages/access/src/sessions.ts:142-145 | a request whose `done` has not fired is counted in its session, so the clamp at zero never acts |
| `AccessRuns.AdmitIsFair` | packages/access/src/gateway.ts:208-211 | whoever is admitted was active already or takes a free place |
| `AccessAdmission.AdmitIffEntitled` | packages/access/src/gateway.ts:180-215 | exactly who is admitted, why anyone else is not, and as whom: the session of a known cookie; else the oldest one of the same address and agent that is open and never confirmed a cookie or is younger than 15 seconds; else a new one, active from then on |
| `AccessAdmission.RedeemsValid` | packages/access/src/sessions.ts:224-233 | a token is accepted if and only if the first invite with its hash is neither revoked nor expired nor used up |
| `AccessAdmission.SweepForgetsExactly` | packages/access/src/sessions.ts:185-199 | a sweep forgets exactly the open sessions that are out of use and silent beyond the retention, keeps the others in order, marks who is out of use and touches nobody else |
| `AccessAdmission.ConfirmedNeedsItsCookie` | packages/access/src/sessions.ts:63-72 | a session that confirmed its cookie and is older than 15 seconds is reached through this cookie alone |
| `AccessAdmission.AdmissionLeaves` | packages/access/src/gateway.ts:180-215 | all that an admission changes: one session touched or opened, one use of the token's invite, and a guest with a good token invited even without a seat |
| `AccessEndings.DisconnectEnds` | packages/access/src/sessions.ts:158-170 | a disconnect ends one session, closes it, takes its sockets and blocks its address if asked to |
| `AccessEndings.EndedIsTold` | packages/access/src/gateway.ts:187-194 | the cookie of an ended session is answered by that, or by the block of its address |
| `AccessEndings.DisconnectLasts` | packages/access/src/sessions.ts:158-181 | in every continuation nobody is admitted as a disconnected session, it has no sockets, and a blocked address is turned away until it is unblocked |
| `AccessHistory.ProxiedIff` | packages/access/src/gateway.ts:255-289 | a request is proxied if and only if it is admitted, does not trade in a token, the application is available and its session has fewer requests in flight than allowed |
| `AccessHistory.AttachedIff` | packages/access/src/gateway.ts:344-387 | an upgrade is attached if and only if it is admitted, without its token, and its session has a socket left |
| `AccessHistory.SeenIsHistory` | packages/access/src/sessions.ts:125-155 | in every run a session was last seen at its last admitted visit, end of a stream or close of a socket |
| `AccessHistory.InviteLasts` | packages/access/src/sessions.ts:208-239 | in every continuation a new invite is accepted exactly until its time is over, as often as it was made for, unless it is revoked |
| `AccessHistory.PolicyIsSet` | services/daemon/src/engine.ts:248-259 | what an update of the access settings changes, in the project and in the attached gateway, and who is invited by it |
| `AccessHistory.TombstoneGoes` | packages/access/src/sessions.ts:168-169 | the timer removes an ended session and nothing else |
| `AccessHistory.SwitchesAreSet` | packages/access/src/gateway.ts:100-102 | availability, attachment and stop each change one thing |
| `AccessRuns.StepIsCapped` | packages/access/src/sessions.ts:98-100 | no step raises the number of active users above the larger of the limit and what it was |
| `AccessRuns.UserCap` | packages/access/src/sessions.ts:74-100 | over every run with a limit the active users never exceed the larger of the limit and their number at its start; over a lowered limit they only become fewer |
| `AccessRuns.UserCapFromStart` | packages/access/src/sessions.ts:74-100 | a gateway that starts empty never has more active users than its limit |
| `AccessRuns.CleanupRaisesExactly` | packages/access/src/gateway.ts:388-396 | a `cleanup` raises the number of active users exactly when it reaches a session that has gone idle |
| `AccessRuns.AttachedCleanupIsHarmless` | packages/access/src/sessions.ts:152-155 | a `cleanup` of a socket that is still attached never does |
| `AccessGaps.LateCleanupExceedsCap` | packages/access/src/gateway.ts:388-396 | a run with a limit of one and two active users: the second `cleanup` of one socket comes late |
| `AccessRuns.LimitChangeCutsNobody` | services/daemon/src/engine.ts:258-259 | changing the limit ends no session and leaves everyone active who was |
| `AccessRuns.ConnectionsAccounted` | packages/access/src/gateway.ts:268-306 | `openConnections` is the number of admitted requests whose `done` has not fired, at most the requests in flight, at most the limit; sockets stay within theirs |
| `AccessRuns.ProtectedModeHolds` | services/daemon/src/engine.ts:248-259 | across mode switches every session that has not ended is invited while the mode is protected, as long as no switch falls into the start of the gateway |
| `AccessRuns.UpdateGrandfathersExactly` | services/daemon/src/engine.ts:251-259 | exactly when an update with uninvited sessions present leaves protected mode sound: the mode ends open, or this very update turns it on |
| `AccessGaps.SwitchWhileStartingLocksOut` | services/daemon/src/engine.ts:251-259 | a run in which protected mode, chosen while the gateway starts, later closes around a visitor who came in between, uninvited |
| `AccessInvites.DeadInvitesStayUnused` | packages/access/src/sessions.ts:224-239 | uses never exceed `maxUses`, and do not grow once an invite is revoked or expired |
| `AccessInvites.InvitedSessionsArePaidFor` | packages/access/src/gateway.ts:198-203 | the sessions invited through a token are at most as many as all uses of all invites |
| `AccessGateway.SessionTable.ActiveCount` | packages/access/src/sessions.ts:78-82 | the loop counts the set of active sessions |
| `AccessGateway.SessionTable.Capacity` | packages/access/src/sessions.ts:98-100 | room exactly when there is no limit or fewer are active |
| `AccessGateway.SessionTable.FindByFingerprint` | packages/access/src/sessions.ts:63-72 | the first session in insertion order that may be joined |
| `AccessGateway.SessionTable.Create` | packages/access/src/sessions.ts:102-123 | the new session and its place at the end of the table |
| `AccessGateway.SessionTable.TouchSession` | packages/access/src/sessions.ts:125-137 | one session is refreshed, nothing else changes |
| `AccessGateway.SessionTable.FinishStream` | packages/access/src/sessions.ts:142-145 | the end of a stream in one session |
| `AccessGateway.SessionTable.DetachSocket` | packages/access/src/sessions.ts:152-155 | the detach of a socket, attached or not |
| `AccessGateway.SessionTable.EndSession` | packages/access/src/sessions.ts:158-170 | an ended session loses its sockets, and its address may be blocked |
| `AccessGateway.SessionTable.SweepSessions` | packages/access/src/sessions.ts:185-199 | the loop marks idle sessions, forgets long idle ones and keeps the order of the others |
| `AccessGateway.SessionTable.RedeemToken` | packages/access/src/sessions.ts:224-233 | the first invite with the hash decides, and loses exactly one use |
| `AccessGateway.SessionTable.InviteEveryone` | services/daemon/src/engine.ts:253-256 | every session that has not ended becomes invited |
| `AccessGateway.SessionTable.AdmitVisit` | packages/access/src/gateway.ts:180-215 | the admission decision with all its effects |
| `AccessGateway.GatewayServer.HandleVisit` | packages/access/src/gateway.ts:255-289 | a request from admission to the start of its stream, with exact accounting afterwards, and within the limit of users; the answer tells whether it is proxied |
| `AccessGateway.GatewayServer.Done` | packages/access/src/gateway.ts:290-295 | only the first call counts |
| `AccessGateway.GatewayServer.ResponseClosed` | packages/access/src/gateway.ts:274-297 | one request less in flight, and its stream ended once |
| `AccessGateway.GatewayServer.UpgradeVisit` | packages/access/src/gateway.ts:356-387 | an upgrade from admission to the attached socket, with exact accounting afterwards, and within the limit of users; the answer tells whether it is open |
| `AccessGateway.GatewayServer.CleanedUp` | packages/access/src/gateway.ts:388-396 | a detach, also for a socket already gone |
| `AccessGateway.GatewayServer.UpdateAccessPolicy` | services/daemon/src/engine.ts:248-259 | grandfathering compares with the project's mode, then the policy is set |
| `Ports.CommitHolds` | packages/ports/src/index.ts:161-168 | after a commit the project holds exactly that port; others lose only that very port |
| `Ports.ChoiceIsUnique` | packages/ports/src/index.ts:109-159 | the declarative order of preference determines the answer |
| `Ports.PlanMeetsChoice` | packages/ports/src/index.ts:112-155 | trying all attempts from the front gives the answer of the order of preference, for every fixed probe |
| `Ports.FailureIsHonest` | packages/ports/src/index.ts:135-157 | strict means the preferred port or an error; an error of any other call means that neither the preferred port, the sticky one, the hundred after the preferred one nor the range had a candidate |
| `Ports.ReleaseThenAllocate` | packages/ports/src/index.ts:176-184 | after a release the same port comes back exactly when nothing else acceptable, or only something else, is asked for |
| `PortAllocator.Allocator.Choose` | packages/ports/src/index.ts:109-159 | the loops over graces and scans meet the order of preference and reserve nothing |
| `PortAllocator.Allocator.ScanUp` | packages/ports/src/index.ts:149-154 | the least port of the range that is neither avoided, taken nor refused, or none |
| `PortAllocator.Allocator.FindOwn` | packages/ports/src/index.ts:112 | the project's reservation if it has one |
| `PortAllocator.Allocator.Allocate` | packages/ports/src/index.ts:97-102 | the chosen port is reserved, nobody else gains or loses one |
| `PortAllocator.Allocator.Peek` | packages/ports/src/index.ts:105-107 | the answer of the order of preference, with nothing reserved |
| `PortAllocator.Allocator.Adopt` | packages/ports/src/index.ts:170-174 | the port is recorded whoever holds it; another project loses a port exactly when it held this one |
| `PortAllocator.Allocator.Release` | packages/ports/src/index.ts:176-184 | the project's port is given back, its sticky port stays |
| `PortAllocator.PeekThenAllocate` | packages/ports/src/index.ts:97-107 | `peek` gives what `allocate` gives next |
| `PortAllocator.ReleaseThenAllocateAgain` | packages/ports/src/index.ts:176-184 | the exact condition of getting the port back, on the object |
| `PortQueue.StepKeeps` | packages/ports/src/index.ts:83-87 | the queue's invariant survives every step: one call at a time by the promise chain alone, one port per project, chosen ports still free, log equal to reservations, store equal to memory |
| `PortQueueRuns.RunsAreSerial` | packages/ports/src/index.ts:83-102 | in every interleaving with `release`: no project holds two ports, the reservations are the replay of the log, and calls take effect once each, in call order |
| `PortQueueRuns.RestartsFindThePorts` | packages/ports/src/index.ts:77-81 | memory and store agree on the sticky ports whenever no call is waiting for the store |
| `PortQueueRuns.OthersKeepTheirs` | packages/ports/src/index.ts:97-107 | no step of an `allocate` or `peek` takes or gives another project's port |
| `PortQueueRuns.AdoptEvictsTheHolder` | packages/ports/src/index.ts:161-174 | `adopt` takes a port from another project exactly when that project held it |
| `PortQueueRuns.StrictIsStrict` | packages/ports/src/index.ts:135-144 | in every interleaving a strict call answers the preferred port or fails |
| `PortQueueRuns.UndisturbedMeetsChoice` | packages/ports/src/index.ts:109-159 | a call during which nothing is released answers what the order of preference says for the moment it started |
| `PortQueueAttempts.EveryAnswerIsEarned` | packages/ports/src/index.ts:109-159 | in every run, whatever is released or called meanwhile: a call keeps a port its project held when it began, or answers the first attempt of its plan that was free at the moment it was tried, each earlier one turned down in order at its own moment; an error means that every attempt was |
| `PortQueueRuns.QueueDrains` | packages/ports/src/index.ts:83-87 | while a call is unsettled some call can go on, and its step shrinks a bounded backlog |
| `Logs.StepKeeps` | services/daemon/src/store.ts:160-185 | every write, flush, prune and clear keeps ring, batch and table in step with the whole history |
| `Logs.PrunedKeepsNewest` | services/daemon/src/store.ts:206-209 | pruning keeps the newest rows of every project |
| `LogAnswers.RingIsRight` | services/daemon/src/logs.ts:61-63 | when the ring has enough new entries they are the wanted ones, whole and in order |
| `LogAnswers.TableIsRight` | services/daemon/src/store.ts:187-203 | for a limit up to 10,000 the table gives the wanted entries of everything flushed |
| `LogAnswers.RecentIsOneHistory` | services/daemon/src/logs.ts:61-66 | `recent` gives the newest entries of the whole history as of one moment between call and answer, whichever part answers and whatever is written, flushed and pruned meanwhile |
| `LogAnswers.WantedIsNewest` | services/daemon/src/store.ts:187-190 | what a query is meant to answer: the newest matching entries of the history, at increasing positions, all of them or as many as the limit |
| `LogAnswers.ShownToReaders` | services/daemon/src/logs.ts:61-66 | a reader sees the first 16,384 characters of each message, this node's name, and the rest as written |
| `LogAnswers.RingHoldsNewest` | services/daemon/src/logs.ts:43-45 | in every run a project's ring holds the newest two thousand entries since its logs were cleared |
| `LogAnswers.BatchStaysSmall` | services/daemon/src/store.ts:160-162 | in every run fewer than 500 entries wait for the table |
| `LogAnswers.LimitZero` | services/daemon/src/logs.ts:61-63 | a limit of zero is honoured exactly when the ring has no new entry: otherwise the whole ring comes back |
| `LogObjects.RingBuffer.Push` | packages/logger/src/index.ts:118-124 | the newest entries up to the capacity, in order |
| `LogObjects.Store.AppendLog` | services/daemon/src/store.ts:160-167 | the batch grows, or is flushed at 500 |
| `LogObjects.Store.FlushLogs` | services/daemon/src/store.ts:169-185 | every batched entry becomes a row, in order |
| `LogObjects.LogManager.Write` | services/daemon/src/logs.ts:26-46 | ring and store both take the entry, as one step on the history |
| `LogObjects.LogManager.ClearProject` | services/daemon/src/logs.ts:68-70 | the ring goes, the table and the history stay |
| `LogObjects.LogManager.RecentLogs` | services/daemon/src/logs.ts:61-66 | undisturbed, the wanted entries of the whole history (up to cutting and stamping) |
| `RateLimit.RateLimiter.Take` | packages/security/src/rate-limit.ts:9-19 | refill, charge and clearing change the map as specified |
| `RateLimit.TokensStayWithinBounds` | packages/security/src/rate-limit.ts:11-16 | tokens stay between nothing and the capacity in every run |
| `RateLimit.SpentIsPaidFor` | packages/security/src/rate-limit.ts:9-19 | what a client spent and still has is at most what it had, the refill, and a capacity for each clearing |
| `RateLimit.RateIsLimited` | packages/security/src/rate-limit.ts:9-19 | in any stretch a client gets at most capacity × (1 + clearings) + refill × time |
| `RateLimit.OthersDoNotMatter` | packages/security/src/rate-limit.ts:9-19 | between clearings a client is answered as if it were alone |
| `RateLimit.PacedClientsAreServed` | packages/security/src/rate-limit.ts:12-15 | a client that asks for no more than what flowed back since its last request is never refused, whatever the others do |
| `RateConformance.AcceptedIffItFits` | packages/security/src/rate-limit.ts:9-19 | over every run of a new limiter without clearing: a request is accepted if and only if in every stretch that ends with it the grants and its cost stay within one capacity and the refill |
| `RateConformance.FullBucketServes` | packages/security/src/rate-limit.ts:9-19 | whatever was granted since the bucket was full and a further cost are accepted as long as they are together at most the capacity |
| `RateConformance.BurstServedIff` | packages/security/src/rate-limit.ts:9-19 | from a full bucket, requests at one moment are all accepted if and only if their costs add up to at most the capacity |
| `RateConformance.ForgottenIff` | packages/security/src/rate-limit.ts:17 | buckets are forgotten exactly when there would be more than ten thousand, and then all of them |
| `RateConformance.MemoryIsBounded` | packages/security/src/rate-limit.ts:17 | in every run at most ten thousand clients are remembered |
| `Command.Tokenize` | packages/core/src/command.ts:13-44 | the look-ahead loop equals an automaton that reads one unit at a time |
| `Command.ReadQuoted` | packages/core/src/command.ts:20-25 | a word in JSON quotes is read as one word, its escapes losing only the backslash |
| `Command.ShownIsExact` | packages/core/src/command.ts:67-70 | a quoted word is read back exactly when it has no control characters and no lone surrogates |
| `CommandRoundTrip.CleanSurvives` | packages/core/src/command.ts:67-70 | lists of clean words are read back as they were |
| `CommandRoundTrip.OnlyCleanSurvives` | packages/core/src/command.ts:13-44 | and no other list is |
| `CommandRoundTrip.RoundTrip` | packages/core/src/command.ts:67-70 | printing and tokenizing gives the words back if and only if all are clean; the last may end in a backslash |
| `CommandRoundTrip.PlainLine` | packages/core/src/command.ts:32-39 | without quotes and backslashes the tokenizer splits at white space and drops empty pieces |
| `CommandGrammar.LexIsGrammar` | packages/core/src/command.ts:13-44 | the tokenizer answers these words if and only if the line can be written as gaps and parts (bare, escaped, single-quoted, double-quoted) that mean them, and fails if and only if it cannot, for every line |
| `CommandGrammar.SingleQuotesAreLiteral` | packages/core/src/command.ts:20-25 | everything between single quotes is literal, backslashes included |
| `CommandGrammar.BackslashIsLiteral` | packages/core/src/command.ts:29-31 | outside quotes a backslash makes the next unit literal, white space and quotes included |
| `CommandGrammar.OpenSingleQuoteFails` | packages/core/src/command.ts:41 | a single quote that is not closed is an error |
| `CommandJson.QuotedIsJson` | packages/core/src/command.ts:67-70 | what is put between double quotes is JSON that means the word, for every word (RFC 8259, section 7) |
| `CommandJson.PrintedMeansWord` | packages/core/src/command.ts:67-70 | a word is quoted if and only if it holds white space, and the quotes mean it |
| `Redact.Redactor.AddSecret` | packages/security/src/redact.ts:25-27 | values of six characters or more are registered once, shorter ones never |
| `Redact.Redactor.RedactLiterals` | packages/security/src/redact.ts:33-35 | split and join over all literals; no safe registered secret is left |
| `Redact.SplitThenJoin` | packages/security/src/redact.ts:35 | joining with the secret gives the line back, joining with the token replaces from left to right |
| `Redact.PlainSecretsAreSafe` | packages/security/src/redact.ts:33-35 | secrets without square brackets that are not part of REDACTED cannot overlap a token |
| `Redact.ReplaceIsClean` | packages/security/src/redact.ts:35 | replacing a safe secret removes it, and replacing any other text does not bring it back |
| `Redact.NoSafeSecretSurvives` | packages/security/src/redact.ts:33-35 | no safe registered secret is left, for any set of secrets and any order |
| `Redact.GoneIffSafe` | packages/security/src/redact.ts:33-35 | a secret is gone from every line under every registration if and only if it cannot overlap a token |
| `Health.HealthMonitor.Record` | packages/health/src/index.ts:134-145 | one result changes counters, status and callbacks as specified, the grace period decided by the clock |
| `Health.HealthMonitor.Set` | packages/health/src/index.ts:126-131 | a change is called back once, no change never |
| `Health.CountersRefineHistory` | packages/health/src/index.ts:134-145 | for every history the counters and the status are what the whole history calls for |
| `Health.NoFlapping` | packages/health/src/index.ts:102-108 | after a counted failure the status stays bad until enough successes came in a row, and its degree is decided by the failures counted since the last success |
| `Health.CallbacksFormAChain` | packages/health/src/index.ts:126-131 | each callback starts where the last one ended, none repeats, the last one ends at the status |
| `Startup.WaitForHealthy` | packages/health/src/index.ts:72-87 | the outcome in every case; ok only from a probe of this call, with the process alive just before it |
| `Startup.ProbesAreFew` | packages/health/src/index.ts:73-85 | the pauses before the last probe fit into the startup timeout: no probe, up to seven, and one for every further two seconds |
| `Startup.ProbesToTheEnd` | packages/health/src/index.ts:73-85 | the bound is reached: an application that never answers is probed exactly as often as the pauses allow |
| `Startup.PausesAddUp` | packages/health/src/index.ts:83-84 | the pauses 250·1.5^k capped at two seconds, added up |
| `Backoff.DelayStaysClose` | packages/runtime/src/registry.ts:30-34 | never above the ceiling, and within 15 per cent of the base before rounding |
| `Backoff.BaseIsDoubled` | packages/runtime/src/registry.ts:30-34 | the first pause is the initial one, each further one doubles it, up to the ceiling |
| `Backoff.NextDelayIsLonger` | packages/runtime/src/registry.ts:30-34 | below the ceiling and from two milliseconds on, the next delay is longer whatever the jitter |
| `Backoff.AlwaysLongerIff` | packages/runtime/src/registry.ts:30-34 | the exact condition, the ceiling included: the longest delay of this base lies below the ceiling and below the shortest of the next |
| `Backoff.WholeMillisecondsGrow` | packages/runtime/src/registry.ts:30-34 | for whole milliseconds that holds exactly when the base is not zero |
| `Discovery.StepKeeps` | packages/discovery/src/registry.ts:158-250 | keys, references, exact `inflight`, single fetches and genuine applications survive every step |
| `Discovery.EveryInterleaving` | packages/discovery/src/registry.ts:158-250 | under every interleaving nobody is asked twice at a time, keys are the nodes' ids, and listed applications came from a successful fetch from that node |
| `DiscoveryLiveness.CalmStep` | packages/discovery/src/registry.ts:216-250 | while sweeps do not overlap and no goodbye lands in a fetch, whoever a sweep is fetching from is not offline |
| `DiscoveryLiveness.CalmRun` | packages/discovery/src/registry.ts:216-250 | that invariant holds throughout every such run from the start of the registry |
| `DiscoveryLiveness.OfflineUntilAnnounced` | packages/discovery/src/registry.ts:227-228 | in every such run only an announcement of the node itself brings it back from OFFLINE |
| `DiscoveryLiveness.SilentNodesSink` | packages/discovery/src/registry.ts:216-250 | in every such run a silent node whose fetches fail never looks more alive than before |
| `DiscoveryLiveness.SilentStepLiftsIff` | packages/discovery/src/registry.ts:216-250 | a step that brings no sign of life from a node makes it look more alive if and only if it ends a turn of this node, without a ping or with a failed one, and judges by an age younger than what the node shows |
| `DiscoveryLiveness.UnheardSinksIff` | packages/discovery/src/registry.ts:216-250 | in every run, sweeps overlapping or not: along a stretch without a sign of life from it a node never looks more alive than a step before, if and only if no step of the stretch ends such a turn |
| `DiscoveryOverlap.OverlappingSweepsLift` | packages/discovery/src/registry.ts:216-250 | a run from the start with three nodes and the default limits in which two overlapping sweeps put an unreachable, silent node back online |
| `DiscoveryOverlap.GoodbyeDuringFetchLifts` | packages/discovery/src/registry.ts:208-248 | a run from the start with the default limits in which a node says goodbye while a sweep is asking it, and the failed fetch puts it back online |
| `DiscoveryAnnouncements.AsksIff` | packages/discovery/src/registry.ts:158-178 | an announcement is followed by a fetch if and only if nobody is asking the node and it is not listed, or with another revision or address |
| `DiscoveryAnnouncements.AnnouncementShows` | packages/discovery/src/registry.ts:158-170 | a listed node that announces itself is online and just seen; nothing else about it or others changes |
| `DiscoveryAnnouncements.AnswerShows` | packages/discovery/src/registry.ts:179-206 | a description replaces all that was known, a refusal removes the node, and without either it is listed bare |
| `DiscoveryAnnouncements.NewRevisionsAreFetched` | packages/discovery/src/registry.ts:158-206 | in every run the listed revision is that of the last description, or -1, so a newer one keeps being asked for until a fetch has brought it |
| `DiscoveryAnnouncements.TurnDecides` | packages/discovery/src/registry.ts:221-248 | a node's turn in a sweep: forgotten, left alone, asked or shown by its age, with the limits written out |
| `DiscoveryAnnouncements.PingDecides` | packages/discovery/src/registry.ts:232-248 | the answer to a sweep's fetch: the description, or the age at the turn |
| `DiscoveryAnnouncements.GoodbyeShows` | packages/discovery/src/registry.ts:208-214 | a goodbye takes one node and all its applications offline |
| `DiscoveryRegistry.NodeRegistry.Announced` | packages/discovery/src/registry.ts:158-178 | `onAnnouncement` up to its fetch, on the node objects; it asks exactly when the announcement is news and nobody is asking already |
| `DiscoveryRegistry.NodeRegistry.Answered` | packages/discovery/src/registry.ts:179-206 | the rest of it: a new object takes the place of the old one, or a refused node goes |
| `DiscoveryRegistry.NodeRegistry.MarkLost` | packages/discovery/src/registry.ts:208-214 | a node and its applications go offline once |
| `DiscoveryRegistry.NodeRegistry.BeginTurn` | packages/discovery/src/registry.ts:221-231 | a node's turn in a sweep up to its fetch |
| `DiscoveryRegistry.NodeRegistry.EndTurn` | packages/discovery/src/registry.ts:241-248 | the judgement by the age at the turn's beginning |
| `DiscoveryRegistry.NodeRegistry.Pinged` | packages/discovery/src/registry.ts:232-240 | a turn from the answer to its fetch on |

## Left out

- Sockets, HTTP piping, headers, pages, SQL, the file system, child processes, Docker, mDNS and cryptography: a probe,
  a fetch, a token hash or an awaited call is an input of the step that reads it.
- The command line, popup, terminal form, Python client, detectors, configuration merging, plugins and API routes.
- Stores that fail, and fetches or teardown calls that throw where the daemon swallows the error.
- Ids of deployments, sessions, requests and sockets are taken to be fresh; project ids are not empty.
- What the engine does not promise: that no process exists after a stop, that a LIVE process is alive, that a running
  deployment's ports stay reserved, that ending a session closes its HTTP streams.
- Engine side work without influence on the lifecycle: health notices, metrics, hosting rows, exposure, persistence.
- Gateway and session records are values keyed by id, `records` also holding those that only a closure still refers to;
  the class keeps them in a map field. Who else may alias a record is therefore explicit, not an object reference.
- The gateway's probe, rate, size and path checks are one input, `passes`; what follows an admission is not.
- Session fields that only describe a client (user agent, how it was identified, confirmed cookies beyond joining).
- Port numbers of reservations are natural numbers; a probe answers the same throughout one call of `PortAllocator`
  and anything at any time in `PortQueue`. The 50 ms pauses between graces are awaits without effect.
- The text an entry is cleaned with, its level and the metadata it carries; entries that are blank are not written.
- Log transactions that roll back, and removing a project together with its rows.
- A log query with a limit above 10,000 is not promised the whole history once rows have been pruned.
- Numbers are real or unbounded: no floating point rounding in tokens, delays and pauses.
- `containsShellOperators`, `parseCommand`, `withArgs`, and every regular expression of the redactor.
- Redaction works on characters; the surrogate halves of one character are not told apart there.
- A node's `via` list, `pendingVia` and `rejected` only collect provider names and suppress repeated warnings.
- A sweep's stretch over several nodes is cut at every node, which allows more interleavings than the daemon has.
- The registry's `list`, `discover` and `announce`, and the checks inside a fetch that make a description genuine.
- PortQueueRuns.UndisturbedMeetsChoice: is about a call during which no project releases a port; with releases the answer
  is the first attempt that was free when it was tried (`PortQueueAttempts.EveryAnswerIsEarned`).
- DiscoveryLiveness.SilentNodesSink: is about runs in which sweeps do not overlap and no goodbye lands in a fetch;
  `UnheardSinksIff` is the exact statement for all runs.
- DiscoveryLiveness.OfflineUntilAnnounced: is about the same runs. `GoodbyeDuringFetchLifts` is a run outside them in which
  a node leaves OFFLINE unannounced; in `OverlappingSweepsLift` the node is UNREACHABLE.
