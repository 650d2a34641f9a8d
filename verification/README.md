# Wattetheria: a verified model of the event outbox and its neighbours

This project models the parts of Wattetheria whose guarantees span several operations, and proves
those guarantees for every input, every run or every reachable state:

- **The durable event outbox** (`Outbox`, `OutboxInvariants`, `OutboxRuns`, `OutboxHistory`,
  `OutboxCleanup`, `SqliteBackend`): three tables and ten transactions. `SqliteBackend` holds the
  tables in a class with one method per transaction, each proved equal to a transaction function;
  the other modules prove what every run of those transactions keeps.
- **The encryption boundary** (`EventStore`): the encrypted tables refine plaintext ones.
- **Delivery policy and secret rotation** (`DeliveryPolicy`, `Rotation`, `RotationRuns`).
- **The service layer** (`Service`, `ServiceInvariants`, `ServiceRuns`, `ServiceCalls`,
  `ServiceDelivery`, `ServiceCancel`, `ServiceRotation`, `ServiceSigners`, `ServiceScenarios`): delivery ticks, subscribe, unsubscribe,
  revoke, the environment webhook and publish as interleaved tasks with a lifecycle lock, a cache mutex,
  a clock read at every place the source reads it, and requests that may be dropped at any await. A
  dropped request whose store call was already submitted leaves that call running: a detached call. A
  restart ends every task at any point and opens the service again on the same store, with the same or
  another credential, so every theorem about service runs spans restarts.
- **The native process supervisor** (`Supervisor`).
- **Walking arithmetic** (`Walking`), over reals.
- **Webhook body shaping** (`Json`, `Template`, `TextBody`).
- **Small stateful helpers** (`RateLimiter`, `EnvReference`, `EventId`).

Clocks are arguments. A store run lets every transaction use any clock reading; where an order of
readings matters a theorem says so. In the service layer every reading comes from one clock that
never goes back. UUIDs are numbers that are never drawn twice. Digests that serve as subscription ids
are represented by what is digested. A post returns any status or failure.

## Findings

- **A cancelled row can be claimed once more, but only through a detached call.** Subscribe sweeps under
  the cache mutex before it writes, so a re-subscribe normally deletes the rows an unsubscribe cancelled:
  `UnsubscribedRowsNeverClaimed`. The exception needs a dropped request: when the cancel commits, a
  subscribe of the same id stands between its sweep and its write, one of the two is detached, and a
  claim in flight had read its clock before the cancel did (`CancelledRowNeedsDetachedCall`).
  `QueuedWriteRevivesRowIffClockOlder` gives the exact condition and `StaleClaimAfterDroppedSubscribe`
  such a run. Revoke is immune while its own request is not dropped: `RevokedRowsNeverClaimed`.
- **Restart waits run one doubling ahead after a stable run.** The exit of a stable run resets the
  failure count and is then itself counted, so the next unstable launch waits 2000 ms instead of 1000.
  `BackoffFormula` gives the exact condition and `FormulaFailsAfterStableRun` a run.
- **The rate limit needs a clock that does not go back.** It reads the wall clock, and pruning at a
  later reading forgets calls that an earlier reading would still count. The decision of the
  full-history limiter and the bound are certain if and only if the reading is no lower than any earlier
  one, or at most one call is allowed: `DecidesExactlyIffClockNotBack`, `BoundedIffClockNotBack`.
- **A subscribe can carry over the rotation of a row that is gone.** Its read and its write are two
  transactions, and a sweep may delete the expired row between them. `SubscribeRotatesStoredRow` says
  exactly when, `SweptRowIsCarriedOver` is such a run, and `ActiveSigners` says exactly which deliveries
  are signed with one secret too many: those made while the subscription has stayed active with the
  same secret since, refreshes included, and the carried deadline has not passed.

## Model

| member | source | states |
|---|---|---|
| `SqliteBackend.Backend.UpsertSubscription` | crates/control-plane/src/mcp_events/sqlite.rs:127-143 | inserts, or rewrites only for the same owner and agent; reports refusal exactly otherwise; keeps the table invariants |
| `SqliteBackend.Backend.GetSubscription` | crates/control-plane/src/mcp_events/sqlite.rs:145-151 | finds exactly the stored row |
| `SqliteBackend.Backend.DeactivateSubscription` | crates/control-plane/src/mcp_events/sqlite.rs:153-160 | switches off the owner's row and nothing else |
| `SqliteBackend.Backend.RevokeCredentialsExcept` | crates/control-plane/src/mcp_events/sqlite.rs:162-172 | afterwards the owner's active rows all carry the given fingerprint; counts exactly the rows it switched off |
| `SqliteBackend.Backend.ActiveSubscriptions` | crates/control-plane/src/mcp_events/sqlite.rs:174-180 | returns exactly the owner's active unexpired subscriptions |
| `SqliteBackend.Backend.Publish` | crates/control-plane/src/mcp_events/sqlite.rs:182-241 | the looped insert is one legal publish transaction: a fresh row id for each matching subscription |
| `SqliteBackend.Backend.ClaimOutbox` | crates/control-plane/src/mcp_events/sqlite.rs:243-300 | leases the row the claim transaction selects and returns it with its event and subscription |
| `SqliteBackend.Backend.CancelSubscription` | crates/control-plane/src/mcp_events/sqlite.rs:302-308 | switches the subscription off and lowers the expiry of its rows |
| `SqliteBackend.Backend.CancelSubscriptionsBySourceKind` | crates/control-plane/src/mcp_events/sqlite.rs:310-328 | cancelling one by one in a loop cancels exactly the subscriptions of the kind |
| `SqliteBackend.Backend.CompleteDelivery` | crates/control-plane/src/mcp_events/sqlite.rs:330-361 | completes exactly when the token holds the lease of a leased row |
| `SqliteBackend.Backend.DeleteExpired` | crates/control-plane/src/mcp_events/sqlite.rs:363-377 | three deletes with cascades leave the rows that keep all three of their parts |
| `OutboxInvariants.NextKeepsInv` | crates/control-plane/src/mcp_events/sqlite.rs:60-83 | every transaction keeps foreign keys, row expiry within occurrence expiry, uniqueness of events and of rows per event and subscription, and leased exactly with a token and a deadline |
| `OutboxInvariants.ClaimTakesEarliest` | crates/control-plane/src/mcp_events/sqlite.rs:259-290 | a claim finds a row exactly when one is claimable, and then the first by availability and id |
| `OutboxInvariants.WritesAreGuarded` | crates/control-plane/src/mcp_events/sqlite.rs:127-160 | a stored id is rewritten only for its owner and agent, switched off or cancelled only for its owner; any other attempt changes nothing |
| `OutboxRuns.ClaimLeasesDueRow` | crates/control-plane/src/mcp_events/sqlite.rs:259-297 | column by column: a claim leases a row exactly when one is due, takes the longest available, by id among equals, counts the attempt, notes token, deadline and time, and changes nothing else |
| `OutboxRuns.RetryWaits` | crates/control-plane/src/mcp_events/sqlite.rs:263-361 | backoff is enforced: in any run, a row completed into Retry is next leased only at a reading at or past the time its completion named |
| `OutboxRuns.RowOverTime` | crates/control-plane/src/mcp_events/sqlite.rs:243-361 | over any stretch of any run a row keeps its identity and payload, its expiry never rises, its attempts never fall, and a delivered or dead-lettered row is final |
| `OutboxRuns.SupersededLeaseNeverCompletes` | crates/control-plane/src/mcp_events/sqlite.rs:330-361 | the token of a claim superseded by a later claim of the row can never complete |
| `OutboxRuns.LeaseCompletesOnce` | crates/control-plane/src/mcp_events/sqlite.rs:330-361 | each claim completes at most once |
| `OutboxRuns.LeasesNeverOverlap` | crates/control-plane/src/mcp_events/sqlite.rs:263-265 | an uncompleted lease is taken over only at a reading at or past its deadline |
| `OutboxRuns.CancelledRowsStayUnclaimed` | crates/control-plane/src/mcp_events/sqlite.rs:500-517 | after a cancel or revoke at c, no claim reading c or later returns a row that existed then, re-activation included |
| `OutboxRuns.RewrittenRowClaimedIffClockOlder` | crates/control-plane/src/mcp_events/sqlite.rs:243-300 | at the store alone, with no sweep in between: a claim that would have taken a row takes it after a cancel and a re-write if and only if it read its clock before the cancel did and the written subscription suits it |
| `OutboxRuns.RetryBudget` | crates/control-plane/src/mcp_events/store.rs:157-196 | abandoned leases included, at most 19 completions leave a row in Retry, and a completion at 20 attempts or more is terminal |
| `OutboxRuns.AttemptsBounded` | crates/control-plane/src/mcp_events/sqlite.rs:291-297 | when every claim of a row is completed before the next, its attempts never exceed 20 |
| `OutboxRuns.ExhaustedBackoff` | crates/control-plane/src/mcp_events/service.rs:470-474 | a row exhausted by retryable outcomes was tried 20 times with backoff of exactly 3580 s |
| `OutboxHistory.FanOutIsExact` | crates/control-plane/src/mcp_events/sqlite.rs:182-241 | the first publish of an event gives each matching subscription exactly one fresh row, and no other subscription any |
| `OutboxHistory.RepublishChangesNothing` | crates/control-plane/src/mcp_events/sqlite.rs:207-223 | while the occurrence is retained, publishing the event again changes nothing, whatever happened in between |
| `OutboxHistory.ClaimReturnsWhatWasStored` | crates/control-plane/src/mcp_events/sqlite.rs:259-300 | every claim hands out the event id and payload of one publish and the subscription last written |
| `OutboxCleanup.CleanupInvisibleToClaims` | crates/control-plane/src/mcp_events/sqlite.rs:363-377 | a claim at or after a cleanup returns what it would have without it, and the two commute |
| `OutboxCleanup.OccurrenceDeletionSparesLiveRows` | crates/control-plane/src/mcp_events/sqlite.rs:73-83 | deleting occurrences never removes an unexpired row |
| `OutboxCleanup.CleanupDeletesExactlyExpired` | crates/control-plane/src/mcp_events/sqlite.rs:363-377 | a sweep deletes exactly the expired subscriptions, occurrences and rows, and the rows of deleted subscriptions |
| `OutboxCleanup.SweptEventFansOutAgain` | crates/control-plane/src/mcp_events/sqlite.rs:207-223 | once its occurrence has expired and been swept, an event is published again to whoever listens |
| `ServiceRotation.ResubscribeAfterExpiryStartsEmpty` | crates/control-plane/src/mcp_events/subscriptions.rs:161-196 | in every interleaving without detached calls, a subscribe of an id absent or expired at its clock reading ends with its row stored and an empty outbox, whatever others did between its sweep and its write |
| `DeliveryPolicy.PostDecidesRow` | crates/control-plane/src/mcp_events/service.rs:362-411 | delivered exactly on 2xx, dead-lettered exactly on permanent outcomes or at the maximum, otherwise retried 4 to 256 s later |
| `DeliveryPolicy.DelayBounds` | crates/control-plane/src/mcp_events/service.rs:470-474 | waits double from 4 s and settle at 256 s |
| `DeliveryPolicy.FullBackoff` | crates/control-plane/src/mcp_events/service.rs:28-30 | nineteen waits add up to 3580 s |
| `EventStore.EncryptedRunRefinesPlaintext` | crates/control-plane/src/mcp_events/store.rs:283-462 | over any run every claim of the encrypted store opens, to what the plaintext store would hand out |
| `EventStore.EncryptedClaimReturnsWhatWasStored` | crates/control-plane/src/mcp_events/store.rs:431-462 | every claim opens to the payload and event published for the occurrence and the kind, url, secrets and deadline last written, with the attempt counted and the token of the claim |
| `EventStore.Events.UpsertSubscription` | crates/control-plane/src/mcp_events/store.rs:283-309 | sealing under the subscription id is an upsert of the plaintext store |
| `EventStore.Events.GetSubscription` | crates/control-plane/src/mcp_events/store.rs:311-316 | reads back the stored secrets, never failing to open |
| `EventStore.Events.Publish` | crates/control-plane/src/mcp_events/store.rs:348-365 | sealing under the new occurrence is a publish of the plaintext store |
| `EventStore.Events.ClaimOutbox` | crates/control-plane/src/mcp_events/store.rs:367-387 | claims as the plaintext store does and never fails to open |
| `Rotation.SignersFollowHistory` | crates/control-plane/src/mcp_events/service.rs:490-512 | after any history of writes a delivery is signed with the current secret and, exactly for 600 s after the last change, with the one it replaced |
| `Rotation.RefreshIsInvisible` | crates/control-plane/src/mcp_events/service.rs:500-509 | refreshing with the same secret changes no later signature |
| `RotationRuns.StoredSigners` | crates/control-plane/src/mcp_events/service.rs:490-512 | the same, as an if-and-only-if, for an active subscription in any run of the store, from any row found at the start: it fails exactly while a write that rotated another row than the stored one is still felt and its old secret has not run out |
| `ServiceSigners.ActiveSigners` | crates/control-plane/src/mcp_events/service.rs:278-281 | in every interleaving without detached calls, restarts included, for MCP subscriptions and the environment webhook, newly written or found at start: an active subscription is signed as its history of writes says if and only if no lapsed write is still felt, or the old secret it carried over is absent or has run out |
| `ServiceSigners.DeliverySigners` | crates/control-plane/src/mcp_events/service.rs:256-281 | the same for every delivery a claim hands out |
| `ServiceSigners.ShapesKept` | crates/control-plane/src/mcp_events/service.rs:490-512 | what these ask of a row found at start, that old secret and deadline come together, the secrets differ and the change is not in the future, is kept: a run that starts with it, as on an empty store, has it in every state, restarts included |
| `Service.GrantedLifetime` | crates/control-plane/src/mcp_events/subscriptions.rs:124-136 | without a requested lifetime there is none; a requested one ends in the second that many milliseconds away, and in one second or one day when less or more was asked for |
| `Service.EnvSecretSurvivesRestart` | crates/control-plane/src/mcp_events/service.rs:114-130 | the configured secret is used; without one an active webhook keeps its secret and signatures; without both one is generated |
| `ServiceInvariants.OpenEstablishes` | crates/control-plane/src/mcp_events/service.rs:56-92 | opening on any store the service wrote establishes the service invariant |
| `ServiceInvariants.ApplyKeepsInv` | crates/control-plane/src/mcp_events/service.rs:94-341 | every action of every task, and every restart, keeps lock exclusion, clock readings in the past and the cache in step with the store |
| `ServiceCalls.CallsCommit` | crates/control-plane/src/mcp_events/service.rs:94-341 | in every interleaving, the transaction of each call does to the tables what the arguments of that call ask for, at a reading taken since it began, and nothing else: subscribe and the environment webhook store their row, unsubscribe and revoke switch off and lower expiries, publish adds one first row per listener and retains the occurrence for thirty days, a tick sweeps and leases for thirty seconds |
| `ServiceCalls.StepsInOrder` | crates/control-plane/src/mcp_events/service.rs:94-341 | no step of a call is skipped or repeated, and a call ends exactly when nothing is left to do |
| `ServiceCalls.DropKeepsSubmitted` | crates/control-plane/src/mcp_events/subscriptions.rs:190-196 | a dropped call ends at once unless its store call was submitted; that one goes on alone with the same arguments |
| `ServiceCalls.CacheCommits` | crates/control-plane/src/mcp_events/subscriptions.rs:197-206 | what the last step of each call makes the service remember and forget |
| `ServiceCalls.RestartCommits` | crates/control-plane/src/mcp_events/service.rs:56-92 | a restart switches off exactly the owner's active subscriptions under another credential and remembers exactly what is live |
| `ServiceDelivery.LeasedRowIsPosted` | crates/control-plane/src/mcp_events/service.rs:256-281 | a claim that leased a row goes on to post that row, with its payload, event, attempt, token and stored subscription |
| `ServiceDelivery.PostDecidesStoredRow` | crates/control-plane/src/mcp_events/service.rs:282-411 | in every interleaving, when a tick completes under a lease that still stands, the row becomes what the outcome of its own post says: Delivered exactly on 2xx, DeadLetter exactly on a permanent outcome or at 20 attempts, otherwise Retry and available `RetryDelay` after the post ended, with status code and category; nothing else changes |
| `ServiceDelivery.RetriedPostWaits` | crates/control-plane/src/mcp_events/service.rs:362-411 | and such a row is next claimed only by a claim that read its clock that long after the post ended |
| `ServiceRuns.CacheChangesAlone` | crates/control-plane/src/mcp_events/service.rs:150-164 | whatever changes the cache holds its mutex, or nobody does |
| `ServiceRuns.CacheIsStore` | crates/control-plane/src/mcp_events/subscriptions.rs:161-206 | between cache updates, for every id not out of step (written by a dropped call, or by a half-done environment change), an unexpired cache entry exists exactly when the owner has an active unexpired subscription, and agrees with it, now and later |
| `ServiceRuns.EarlyReturnHidesNothing` | crates/control-plane/src/mcp_events/service.rs:176-197 | when publish returns early, whatever the store would match at any later reading is out of step because of a dropped call or a half-done environment change |
| `ServiceRuns.EarlyReturnRefinesPublish` | crates/control-plane/src/mcp_events/service.rs:176-223 | when no id is out of step, the early return leaves the store as the publish transaction would |
| `ServiceCancel.UnsubscribedRowsNeverClaimed` | crates/control-plane/src/mcp_events/subscriptions.rs:147-272 | in every interleaving in which no dropped request leaves a store call running, abandoned leases included, no row an unsubscribe or revoke found is ever claimed again, re-subscribing the same id included |
| `ServiceCancel.CancelledRowsNeverClaimed` | crates/control-plane/src/mcp_events/subscriptions.rs:147-272 | the same when no detached call exists at the moment of the commit, whatever is dropped later and however often the service restarts |
| `ServiceCancel.CancelledRowNeedsDetachedCall` | crates/control-plane/src/mcp_events/subscriptions.rs:147-272 | a cancelled row is claimed only if, at the commit, a detached call existed, a subscribe of the id stood between sweep and write, and the claim was in flight with an older clock reading |
| `ServiceCancel.QueuedWriteRevivesRowIffClockOlder` | crates/control-plane/src/mcp_events/subscriptions.rs:190-196 | with a write of the id queued and a claim in flight that would take the row, cancel, write and claim take it if and only if the claim's reading is older than the cancel's and the written subscription is unexpired then and under the same credential |
| `ServiceScenarios.StaleClaimAfterDroppedSubscribe` | crates/control-plane/src/mcp_events/subscriptions.rs:147-255 | a run from `open` with one dropped subscribe in which that happens |
| `ServiceRuns.RevokedRowsNeverClaimed` | crates/control-plane/src/mcp_events/subscriptions.rs:257-272 | after a revoke commits, no MCP row that existed then is ever claimed again, restarts included |
| `ServiceRuns.NoRevokedPostInFlight` | crates/control-plane/src/mcp_events/service.rs:256-331 | from then on every MCP post in flight is for a newer row |
| `ServiceRuns.RevokedUntilNewSubscribe` | crates/control-plane/src/mcp_events/subscriptions.rs:190-196 | no MCP subscription is active again until a subscribe passes the gate after the revoke; a dropped one with its write queued cannot bring one back |
| `ServiceRuns.ServiceRetryBudget` | crates/control-plane/src/mcp_events/service.rs:325-329 | every service run obeys the retry budget |
| `ServiceRuns.ServiceBackoff` | crates/control-plane/src/mcp_events/service.rs:325-329 | every service run that completes its claims gives an exhausted row 20 attempts and 3580 s |
| `ServiceRotation.SubscribeRotatesStoredRow` | crates/control-plane/src/mcp_events/subscriptions.rs:161-196 | in every interleaving without detached calls, a subscribe writes the rotation of the row it read; it is the rotation of the row stored at the write if and only if it carries nothing over or no sweep at or past the read row's expiry ran since the read |
| `ServiceScenarios.SweptRowIsCarriedOver` | crates/control-plane/src/mcp_events/subscriptions.rs:161-196 | a run without any drop in which a tick sweeps the row between read and write and the write still carries its secret |
| `Supervisor.OneStateAlways` | lib/native.js:385-462 | in every ordering of events a service has exactly one launch, live process or timer, or, only while stopping, none |
| `Supervisor.NoSpawnAfterShutdown` | lib/native.js:526-544 | once stopping is set no process starts, no timer is armed, no launch begins |
| `Supervisor.ShutdownIsOrdered` | lib/native.js:509-538 | when a service is told to stop, every later service has no process and no timer, for good |
| `Supervisor.ShutdownCompletes` | lib/native.js:533-543 | when the loop is through, no service has a process or a timer |
| `Supervisor.StopsExactlyAtShutdown` | lib/native.js:526-530 | the supervisor is stopping exactly from the shutdown event on |
| `Supervisor.StepsRunFirst` | lib/native.js:385-399 | in every run a main process comes to life only after all setup steps of its service: its launch saw exactly that many step exits, all with code 0, and with setup steps neither a start nor a timer spawns it directly |
| `Supervisor.StepExitDecides` | lib/native.js:385-399 | each exit of a setup step leads to exactly one thing: nothing while stopping, a restart timer after a failure, the next step, or after the last the main process |
| `Supervisor.ExitIsLogged` | lib/native.js:404-417 | an exit while not stopping counts one restart and arms one timer, and the run was stable exactly when its start was reported a minute or more before |
| `Supervisor.StartedWhenReported` | lib/native.js:400-422 | the start time of a live process is none until it reports its start, and then that moment |
| `Supervisor.BackoffFormula` | lib/native.js:446-462 | in every run the k-th unstable launch in a row waits min(30000, 1000 * 2^(k-1)) ms if and only if no launch was ever stable before, or k is at least 6 |
| `Supervisor.FormulaFailsAfterStableRun` | lib/native.js:401-462 | a run from the initial state where it fails: 2000 ms after the first unstable launch |
| `Supervisor.NativeSupervisor.StartService` | lib/native.js:490-506 | one turn of the start loop is the start event |
| `Supervisor.NativeSupervisor.OnStepExit` | lib/native.js:385-400 | a setup step's exit stops, retries, goes on or spawns, as the event does |
| `Supervisor.NativeSupervisor.OnSpawn` | lib/native.js:420-422 | records the start time |
| `Supervisor.NativeSupervisor.OnExit` | lib/native.js:401-443 | the exit handler is the exit event |
| `Supervisor.NativeSupervisor.RestartLater` | lib/native.js:446-462 | the failure count, the restart count and the armed timer after a failure, with the doubled and capped wait |
| `Supervisor.NativeSupervisor.OnTimer` | lib/native.js:456-461 | the timer handler launches unless stopping |
| `Supervisor.NativeSupervisor.Shutdown` | lib/native.js:526-530 | sets stopping once |
| `Supervisor.NativeSupervisor.StopChild` | lib/native.js:509-524 | clears the timer and awaits the child of the next service in reverse order |
| `Walking.PositionAt` | crates/gateway-contract/src/space.rs:164-182 | the early-exit loop is floor(s) whole moves plus frac(s) of the next |
| `Walking.TileAt` | crates/gateway-contract/src/space.rs:190-205 | the loop makes the whole moves, clamped to the grid |
| `Walking.MovesAddUp` | crates/gateway-contract/src/space.rs:170-176 | whole moves add one in x per R, subtract one per L, add one in y per D and subtract one per U |
| `Walking.SaturatingMoveIsHeld` | crates/gateway-contract/src/space.rs:195-203 | a move on tiles is the move on points held at the edge of the grid |
| `Walking.SpeedLimit` | crates/gateway-contract/src/space.rs:164-182 | positions at two times are at most speed times elapsed time apart |
| `Walking.PositionNearTile` | crates/gateway-contract/src/space.rs:164-205 | on the grid, the position is exactly frac(s) from the tile |
| `Walking.RebaseKeepsPositions` | crates/gateway-contract/src/space.rs:164-182 | re-basing at a completed step changes no later position |
| `Json.PointerGrammar` | crates/control-plane/src/mcp_events/request.rs:239-251 | accepts exactly the strings of the grammar in section 3 of RFC 6901 |
| `Json.UnescapeMeansToken` | crates/control-plane/src/mcp_events/request.rs:239-251 | every accepted token unescapes by section 4 of RFC 6901 with no stray tilde |
| `Json.LookupFollowsTokens` | crates/control-plane/src/mcp_events/request.rs:255-258 | following an accepted pointer descends by the meanings of its tokens |
| `Json.PointerFinds` | crates/control-plane/src/mcp_events/request.rs:255-258 | an accepted pointer finds a value exactly when its unescaped tokens lead to it, fields by name and elements by their decimal index |
| `Json.IndexMeansDecimal` | crates/control-plane/src/mcp_events/request.rs:255-258 | a token is the index n exactly when it is the decimal text of n |
| `Template.ValidIffNoneMalformed` | crates/control-plane/src/mcp_events/request.rs:211-237 | a template is accepted exactly when no position looked at holds a `$ref` or `$json` with another key beside it or a `$ref` that is no JSON Pointer string |
| `Template.RendersIffResolves` | crates/control-plane/src/mcp_events/request.rs:211-274 | an accepted template renders exactly when every reference resolves |
| `Template.RenderedAt` | crates/control-plane/src/mcp_events/request.rs:253-274 | position by position the result is the template with references and serialized children replaced; inserted values are not expanded |
| `Template.NothingElse` | crates/control-plane/src/mcp_events/request.rs:253-274 | the result has no other positions |
| `TextBody.ShortenData` | crates/control-plane/src/mcp_events/env_webhook.rs:106-123 | the loop shortens every string and marks cut content |
| `TextBody.BodyWithText` | crates/control-plane/src/mcp_events/env_webhook.rs:100-146 | returns the body of the finest rung that meets both limits and fails exactly when no rung does; with a sound codec the body is faithful at that rung |
| `TextBody.FittingBodyIsFaithful` | crates/control-plane/src/mcp_events/env_webhook.rs:100-146 | both limits hold; the body decodes to the event plus its text and, when cut, the previewed data and a mark; the text decodes to the event or, at a limit, to the event with a mark in which strings within the limit are untouched and longer ones are prefixes of exactly that many characters |
| `TextBody.Ladder` | crates/control-plane/src/mcp_events/env_webhook.rs:104-104 | everything is tried first, then 4096, 1024, 256 and no characters, for events whose data is an object |
| `TextBody.FitsMeans` | crates/control-plane/src/mcp_events/env_webhook.rs:127-135 | a rung fits when its text takes at most 65536 UTF-16 units and its body at most 256 KiB |
| `TextBody.EncodedSizes` | crates/control-plane/src/mcp_events/env_webhook.rs:126-133 | sizes in UTF-16 units and UTF-8 bytes, counted by code point |
| `TextBody.ContentMark` | crates/control-plane/src/mcp_events/env_webhook.rs:111-123 | for data without a mark of its own, the content is marked cut exactly when it was longer than the limit |
| `RateLimiter.Limiter.Allow` | crates/control-plane/src/state.rs:64-75 | at any clock reading: refuses only what the full-history limiter refuses, decides exactly as it does when no earlier reading of the key was higher, and touches no other key |
| `RateLimiter.PrunedExactly` | crates/control-plane/src/state.rs:68-74 | after calls at readings in any order, the pruned bucket and the whole history agree at every reading from the highest on |
| `RateLimiter.NeverTooStrict` | crates/control-plane/src/state.rs:68-74 | at any reading whatever, a call is refused only when the full-history limiter would refuse it |
| `RateLimiter.WindowBound` | crates/control-plane/src/state.rs:64-75 | after any calls at readings in order, no closed interval of the window's length holds more than the maximum of accepted calls |
| `RateLimiter.LimiterBound` | crates/control-plane/src/state.rs:64-75 | the same for every key of a limiter whose calls read the clock in order |
| `RateLimiter.DecidesExactlyIffClockNotBack` | crates/control-plane/src/state.rs:66-74 | after calls whose highest reading is h, pruning is certain to decide a call as the full history does if and only if its reading is at least h or at most one call is allowed |
| `RateLimiter.BoundedIffClockNotBack` | crates/control-plane/src/state.rs:66-74 | the same condition, both ways, for keeping the bound |
| `RateLimiter.OvertakenUnbounded` | crates/control-plane/src/state.rs:66-74 | for every maximum of two or more, window and pair of readings out of order, a sequence of calls that breaks the bound |
| `EnvReference.GuardIsInvisible` | lib/cli.js:454-470 | for every value from which no cycle is reached through usable references, whatever else the map holds, the resolver without the guard ends, nested no deeper than there are keys, and returns what the guarded one does |
| `EnvReference.EndsIffNoCycleReached` | lib/cli.js:454-470 | the resolver without the guard ends on a value if and only if no cycle is reached from it |
| `EnvReference.MatchesExactlyReferences` | lib/cli.js:458-458 | the pattern matches exactly `${key}` and `${key:-fallback}` with a non-empty key without `}` or `:` and a fallback without `}` |
| `EnvReference.ResolvesAroundReference` | lib/cli.js:454-470 | around its first reference a value resolves to the text before, then the key's value resolved in turn, or the fallback when the key is missing, blank or already being resolved, then the rest |
| `EnvReference.NoReferenceNoChange` | lib/cli.js:454-470 | text without a reference is returned as it is |
| `EnvReference.SpaceCodes` | lib/cli.js:463-463 | which characters make a value blank |
| `EnvReference.SeenKeysAreMissing` | lib/cli.js:454-470 | on every map, cyclic or not, a key already followed behaves exactly as a missing one |
| `EnvReference.UnseenShrinks` | lib/cli.js:466-468 | every nested value leaves fewer keys to follow, so the resolver ends |
| `EventId.DigestInput` | crates/control-plane/src/mcp_events/service.rs:514-519 | the loop feeds the framed parts in order |
| `EventId.EventIdInputInjective` | crates/control-plane/src/mcp_events/service.rs:514-521 | two triples give the same digest input only if they are equal |
| `EventId.DigestLayout` | crates/control-plane/src/mcp_events/service.rs:514-521 | for each part in turn, eight bytes whose value is its length, then the part, and nothing more |

## Left out

- HTTP posting, DNS, TLS, callback challenges and address filtering: network I/O; a post returns any outcome.
- The cipher, SHA-256, key files and UUID generation: library code; the cipher is a parameter that opens exactly what was sealed under the same associated data, and ids are assumed fresh.
- Schema creation and migration: runs start from an empty version 4 store, or from any store that satisfies the invariant.
- The JSON library's text format: a parameter that reads back what it wrote; `render` and the text body are proved for every such codec.
- Private occurrence content: no caller supplies it, so its columns are not modelled.
- `log_delivery`: its test of the attempt count differs from the one the store applies (crates/control-plane/src/mcp_events/service.rs:420 and crates/control-plane/src/mcp_events/store.rs:173); it only logs.
- A bound on attempts when leases are abandoned: claiming does not check the maximum, so there is none.
- The callback verification cache and parameter checks of subscribe: they run before the first modelled step and change neither the store nor the subscription cache.
- Two environment webhook changes at once: the source applies one at start; the model lets a second begin only after the first.
- Dropped delivery ticks: workers are never dropped; a tick that stops early is modelled as a tick that is dropped and abandons its lease.
- Setup-step processes still running at shutdown: the source does not track them and neither does the model.
- `Walking.PositionAt`: works over reals, so floating-point rounding is not modelled.
- `RateLimiter.DecidesExactlyIffClockNotBack`: takes a window of zero or more; the source uses 60.
- `SqliteBackend.Backend.ActiveSubscriptions`: returns a map, without the order by id, because ids are digests whose text is not modelled; its caller fills a map.
- Wrap-around of 32-bit attempt counts and 64-bit times: counts and times are unbounded integers, except where the source saturates.
- `bounded_webhook_body`, request headers, request signatures and response matching: finite case work on top of the parts modelled.
- Skin labels, activity checks, gateway event classification, CLI argument parsing, routers, identity routes, the ledger client and release scripts: fixed tables, input parsing and calls into other services, with no state of their own to keep.
