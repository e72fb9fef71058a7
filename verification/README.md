# Proxy gateway: a verified model

The gateway moves HTTP requests, and webhook calls in the other direction, between a client library
and a proxy over a message bus that may lose, duplicate and reorder messages. Both sides keep their
state in SQL tables, any process may stop at any moment, and a transaction may commit although its
caller is told that it failed. This project models that exchange in Dafny and proves what the
design promises: one success per request, no HTTP call beyond the request's own retry budget and none
at all beside another, two-sided durability order, host limits, first-response-wins callbacks,
idempotent commands, and that every acceptable operation can still complete from every reachable state.

`dafny verify dfyconfig.toml` checks everything.

## How the model is built

- **Tables and transactions.** Each SQL transaction is one atomic step. The classes `Repository`,
  `HostLimits`, `Queue`, `WebhookTables`, `PostgresStore` and `MemoryStore` hold the tables as maps and
  update them statement by statement; each method is proved equal to a specification function on the
  rows it names and proved to leave every other row alone. `WebhookTables` holds all webhook tables:
  the routes, subscribers and commands that control commands write are the ones that fan-out,
  responses, timeouts and retention read.
- **Runs.** `OutgoingProtocol` follows one request ID: its rows (`Entry`), every worker, the bus, and
  every client that uses the ID. `CallbackProtocol` follows one webhook event: its row, its route, the
  waiting HTTP caller, the bus and, for each delivery, the client's record and callback run. The class
  contracts are what makes these slices exact: a transaction on one ID acts on its slice by the same
  function that the protocol uses, and on no other slice; a control command moves each event's slice by
  the protocol's route update, or not at all. A run is any sequence of events; an event
  that is not enabled changes nothing, so the theorems range over every interleaving.
- **Laws.** What a specification function computes is stated beside it without naming it: in the columns
  a transaction reads and writes, in the fields of a request, command or response, and over whole runs
  in the events that led there.
- **Failures.** The bus is a growing set of messages. A stop wipes memory and keeps the store. A
  `Report` says of each commit whether it took effect and whether the caller learned of it.
- **Time** is an argument. Leases, clock readings and the order of timestamps are arbitrary unless a
  lemma says otherwise.
- **Random values.** Dispatch tokens are never drawn twice. Webhook delivery IDs come from an
  arbitrary source, and a collision is the rolled-back insert it is in the database. Hashes are
  injective, and JSON round trips are the identity.

| file | content |
|---|---|
| `Contracts.dfy` | wire and storage types, delivery IDs, transactions and reports |
| `OutgoingTables.dfy`, `OutgoingRepository.dfy` | the proxy's outgoing tables: per-request specification, and the whole tables as a class |
| `OutgoingColumns.dfy` | what each of these transactions writes, column by column |
| `Worker.dfy`, `ClientOperation.dfy` | retry decision; one client row and the store calls on it |
| `OutgoingProtocol.dfy` | the outgoing exchange as a state machine |
| `OutgoingInvariant.dfy`, `OutgoingSteps.dfy`, `OutgoingSafety.dfy` | its inductive invariant, preservation by every event, theorems |
| `OutgoingLaws.dfy` | where results come from, why calls are repeated, what a running lease protects, in the fields of requests and rows |
| `OutgoingLiveness.dfy` | from every reachable state an operation can complete |
| `LateUnknown.dfy` | runs that reach the two exceptions named below: a late "unknown", and a second acceptance |
| `ClientStore.dfy` | both client stores, their agreement, success priority |
| `HostLimiter.dfy`, `LimiterThresholds.dfy` | host limits over arbitrary timestamps, and the exact skew up to which each holds |
| `HostConcurrency.dfy` | calls in flight against a clock |
| `DeliveryQueue.dfy` | claiming and rescheduling of deliveries |
| `WebhookControl.dfy` | control commands: planning, performing, whole runs of commands and retention |
| `WebhookLaws.dfy` | what commands do to routes and subscribers over runs, and who receives the next event |
| `WebhookEvents.dfy`, `WebhookRepository.dfy` | delivery rows and fan-out as values; the webhook tables as a class |
| `CallbackProtocol.dfy`, `CallbackSafety.dfy` | one webhook event on both sides, and its theorems |
| `CallbackLaws.dfy` | its steps column by column, where responses come from, and that deliveries can settle |

## What the proofs found

- The permit lease adds one minute to the longest timeout. For every longest timeout, the concurrency
  limit holds in all configurations and runs if and only if calls start within at most one minute of
  their permit's timestamp (`SlackIsExact`); one microsecond later two calls can run on a host whose
  limit is one (`LateCallBreaksBound`).
- Spacing, counters and rate depend on how far a timestamp may lag a cleanup that has already run. For
  every host configuration: grants stay `gap` apart in all runs if and only if `gap <= minInterval` and
  `gap + skew <= 24 h + 1 us` (`SpacingIsExact`); a second never exceeds rps if and only if
  `skew + 1 s <= 1 h + 1 us` or spacing alone leaves no room for more (`RateIsExact`); and the counters equal the
  grants they count under the same condition for one grant (`CountersAreExact`).
- From every reachable state the operation of an acceptable request can complete, with its caller told
  the result, if and only if no other client owns its ID (`OperationCompletes`, `OnlyOwnerCompletes`); this takes one more HTTP call
  exactly if none is recorded as running or done. An open delivery of a webhook event can be settled on
  both sides from every reachable state if it asks for no reply (`StaticDeliverySettles`), or while the
  event waits and its route still asks that client (`DelegatedDeliverySettles`); once the event has
  timed out it never is (`TimedOutReplyStaysOpen`).
- `MemoryStore.MarkAccepted` overwrites `complete`, `PostgresStore.MarkAccepted` does not. That is the
  only call on which the stores part ways (`CallAgreement`), and the client does make it: a caller that
  loaded the operation before it completed runs the protocol again (`ReacceptanceReachable`). A
  `ListPending` limit of zero or less means 1000 rows in the SQL store and no limit in the memory store
  (`PostgresStore.ListPending`, `MemoryStore.ListPending`); the client passes 10,000.
- Publishing a callback response before saving it opens a window. Without a stop in the window client
  and proxy agree (`BothSidesAgree`). From every reachable state in it whose event is still waiting or
  has been answered, a stop can be followed by a second handler run that answers differently, and then
  they keep different responses for ever (`StopInWindowDiverges`, `WindowReachable`).
- A timeout closes the delivery of the route's current responder. If the route changed while the event
  was waiting, the first responder's delivery stays open for ever (`TimeoutCloses`,
  `RouteUpdateStrands`), and the retention statement then never removes the event (`CleanUpEvents`).
- Once a success is in a client's store it stays (`SuccessStays`), but callers can still be told
  "unknown": apart from the success and from what was told before, a result can be told in some
  continuation if and only if a caller has already loaded it from a complete operation
  (`SuccessIsFinal`). For every acceptable request and every response that is not retried there is a run
  that gets there (`UnknownAfterSuccess`): recovery writes `unknown` while the call is running, the
  client completes with it, and a caller with an older snapshot then fetches the success.
- A registration, or an update of an owned webhook, with a response timeout above zero and below one
  millisecond passes validation and is rolled back by the schema. After every run of commands and
  retention, the refused commands are exactly these, the conflicting reuses of a recorded ID, and
  registrations whose webhook has outlived its record (`RefusedExactly`). The last kind needs a command
  ID that returns after retention removed its record, which README.md:298-299 of the repository forbids;
  it is reachable (`RegistrationOutlivesRecord`).
- Such a registration never commits, so it is never recorded and never answered
  (`ShortRegistrationNeverCommits`). Such an update of an owned webhook commits if and only if the
  webhook is gone, which takes its removal by retention, and then only to report that there is none
  (`ShortUpdateCommits`, reachable by `ShortUpdateAfterRemoval`).

## Model

| member | source | states |
|---|---|---|
| `Contracts.WireIdInjective` | internal/transport/outgoing.go:40 | the prefixed delivery IDs are equal exactly when kind and ID are, so IDs of different kinds never meet in the delivery table |
| `Worker.Budget` | internal/worker/worker.go:135-146 | the number of calls a request may cause: at least one; exactly one unless its method is GET, HEAD or OPTIONS or it is marked idempotent; MaxAttempts, if positive, otherwise; at most 20 for a validated request |
| `Worker.DecideRetry` | internal/worker/worker.go:135-156 | a repeat is decided if and only if attempts are left, the method is GET, HEAD or OPTIONS or the request is marked idempotent, and the request asks for a repeat after a network failure or after this status code |
| `OutgoingRepository.Repository.AcceptRequest` | internal/repository/outgoing.go:13-51 | accepted if and only if the ID is new or client, proxy, method, URL, headers, body, timeout, retry policy and trace parent are the stored ones; the first is inserted, a repetition reopens its handshakes, any other changes nothing; other requests are untouched |
| `OutgoingRepository.Repository.ConfirmAcceptanceAck` | internal/repository/outgoing.go:53-73 | only the owner's matching ACK closes the acceptance delivery, and it moves only a row awaiting it; other requests are untouched |
| `OutgoingRepository.Repository.OldestDue` | internal/repository/outgoing.go:83 | the loop finds the oldest due row that is not locked, or there is none |
| `OutgoingRepository.Repository.ReserveOldest` | internal/repository/outgoing.go:75-95 | the oldest due row is reserved under the new token, with its request and attempts returned, or nothing changes |
| `OutgoingRepository.Repository.FenceDispatch` | internal/repository/outgoing.go:97-106 | only the holder of the reservation token moves the row to dispatching and uses up an attempt |
| `OutgoingRepository.Repository.ReleaseReservation` | internal/repository/outgoing.go:108-111 | only the holder's reservation goes back to ready |
| `OutgoingRepository.Repository.SaveResult` | internal/repository/outgoing.go:113-146 | the token holder's result is stored with its delivery; a late save over a finished row changes neither the row nor an existing delivery; otherwise refused |
| `OutgoingRepository.Repository.RetryLater` | internal/repository/outgoing.go:148-154 | only the token holder puts a dispatched row back to wait |
| `OutgoingRepository.Repository.ConfirmResultAck` | internal/repository/outgoing.go:156-176 | only the owner's matching ACK closes the result delivery and marks the row delivered |
| `OutgoingRepository.LostDispatch` | internal/repository/maintenance.go:42-57 | one turn of the recovery loop turns one dispatch whose lease ended before now into an unknown result with its delivery, and touches no other request |
| `OutgoingRepository.LoseDispatches` | internal/repository/maintenance.go:42-57 | the loop recovers every dispatch whose lease ended before now, in any order, and nothing else |
| `OutgoingRepository.Repository.RecoverExpiredDispatches` | internal/repository/maintenance.go:11-62 | bulk update plus loop move exactly the reserved and dispatching rows whose lease ended before now, to ready and to unknown; every other row is unchanged, and the count returned is the number of rows moved |
| `OutgoingSafety.RecoverClearsStale` | internal/repository/maintenance.go:17-57 | recovery leaves reserved or dispatching exactly the rows whose lease runs until now or later, and those as they are; it keeps requests and attempts, never requeues a dispatched row, and repeating it changes nothing |
| `OutgoingColumns.AcceptColumns` | internal/repository/outgoing.go:25-50 | acceptance commits if and only if the ID is new or every field but createdAt is the stored one; the columns of an inserted row and delivery, and that a repetition clears `acknowledged_at` and the lease of both handshakes, makes them due, and leaves the row alone |
| `OutgoingColumns.ConfirmAcceptanceColumns` | internal/repository/outgoing.go:53-73 | an acceptance ACK counts if and only if it is the delivery's client's; it sets `acknowledged_at` once, ends the lease and makes only a waiting row ready |
| `OutgoingColumns.ConfirmResultColumns` | internal/repository/outgoing.go:156-176 | the same for a result ACK, which makes a finished row delivered |
| `OutgoingColumns.ReserveColumns` | internal/repository/outgoing.go:83-91 | a row can be reserved if and only if it is ready or waiting and due; token and lease are set, nothing else |
| `OutgoingColumns.FenceColumns` | internal/repository/outgoing.go:97-106 | the fence opens if and only if the row is reserved under the token; it adds one attempt and a new lease |
| `OutgoingColumns.ReleaseColumns` | internal/repository/outgoing.go:108-111 | only the holder's reservation is made ready without token and lease |
| `OutgoingColumns.SaveResultColumns` | internal/repository/outgoing.go:113-146 | a result reaches the row if and only if it is dispatching under the token, is refused if and only if the row is missing or unfinished otherwise, and never replaces an earlier result delivery |
| `OutgoingColumns.RetryColumns` | internal/repository/outgoing.go:148-154 | only the holder's dispatch waits until the given time, with the reason recorded |
| `OutgoingColumns.RecoverColumns` | internal/repository/maintenance.go:17-57 | recovery moves a row if and only if it is reserved or dispatching with `lease_until` before now; every column of a requeued row, and of a lost one with its result and delivery |
| `OutgoingInvariant.ProxyStep` | internal/transport/outgoing.go:21-121 | a proxy step that keeps the proxy's own invariant and only adds facts keeps every client's and every message's part |
| `OutgoingInvariant.ClientStep` | client/outgoing.go:155-210 | a client step that only advances its own record keeps the invariant of proxy, bus and other clients |
| `OutgoingSteps.WorkerEventInv` | internal/worker/worker.go:71-134 | every step of any worker, including stops and unreported commits, keeps the protocol invariant |
| `OutgoingSteps.ProxyEventInv` | internal/transport/outgoing.go:21-121 | every message handler, publication, claim and recovery keeps the protocol invariant |
| `OutgoingSteps.ClientEventInv` | client/outgoing.go:108-237 | every step of any client, including stale loads and stops, keeps the protocol invariant |
| `OutgoingSafety.RunInv` | internal/worker/worker.go:48-134 | the invariant over proxy rows, deliveries, workers, messages and client stores holds along every run |
| `OutgoingSafety.RunLater` | client/postgres_store.go:249-283 | along every run the winner, the owner, a delivered row, each stored request, a stored success and every published message stay |
| `OutgoingSafety.OneSuccess` | internal/worker/worker.go:96-134 | at most one successful result value per request ever appears, across rows, deliveries, worker memory, bus, client stores and callers, and across time |
| `OutgoingLaws.ResultHasOrigin` | internal/worker/worker.go:96-116 | every result that appears anywhere is, field by field, the record of an earlier call of the row's request that was not to be repeated (a response's status code, headers and body, or the error of a failed call, and the attempt's number), or what recovery left of a dispatch whose lease had ended; a success is exactly the response that a call received |
| `OutgoingLaws.CallIsRecorded` | internal/worker/worker.go:98-116 | at the end of a call the worker holds that record, or will repeat the call with the reason, and repeats it if and only if method, policy and outcome ask for it |
| `OutgoingLaws.WorkerGivesBack` | internal/worker/worker.go:75-107 | a worker without a permit makes its reservation ready, and one whose call is to be repeated makes its dispatch wait with time and reason; a row it no longer owns stays as it is |
| `OutgoingLaws.CallsAsSubmitted` | internal/worker/worker.go:96 | whatever a worker calls is the request that its client stored first |
| `OutgoingSafety.CallsBounded` | internal/worker/worker.go:85-107 | HTTP calls never overlap; their number is at most the attempts column, at most max(1, MaxAttempts), at most 20, and at most one for a request that is not marked idempotent and whose method is not GET, HEAD or OPTIONS |
| `OutgoingLaws.RepeatsAreAsked` | internal/worker/worker.go:98-107 | in every run there are at most as many calls, and attempts, as one more than the number of ended calls whose outcome the request asks to repeat |
| `OutgoingLaws.LeaseProtects` | internal/repository/maintenance.go:17-21 | while the lease of a reserved or dispatching row runs, no recovery up to and including its end, no other worker, no client and no message changes the row |
| `OutgoingLaws.DispatchStands` | internal/repository/outgoing.go:97-106 | a fence committed at s with lease L leaves a dispatching row that stays as it is, over every run, until its own worker moves it or a recovery runs later than s + L |
| `OutgoingSafety.DurabilityOrder` | client/outgoing.go:162-207 | a call starts only after its owner's store has left `outgoing`; a complete operation has a result and a `result_delivered` row of that client |
| `OutgoingSafety.RowDeliveryCoupling` | internal/repository/outgoing.go:113-146 | a row is finished exactly when its result delivery exists, with the row's result as payload; token and lease are set exactly in reserved and dispatching |
| `OutgoingSafety.WireStability` | client/outgoing.go:108-121 | every request a client publishes equals the one it stored first, and the proxy refuses a valid copy exactly when another client owns the ID |
| `OutgoingLaws.RequestAnswered` | internal/transport/outgoing.go:21-76 | a request is answered at once if and only if it is refused, as invalid exactly if it is not well formed, as a conflict exactly if its ID holds another request; otherwise it is stored with its acceptance |
| `OutgoingLaws.AckAnswered` | internal/transport/outgoing.go:78-121 | an ACK is confirmed if and only if it names the request, the delivery and the delivery's client and the proxy learns that it is recorded; any other changes nothing |
| `OutgoingLaws.DeliveriesSent` | internal/transport/delivery.go:29-34 | the delivery loop sends what is stored to the client it is stored for, and changes queue columns only |
| `OutgoingLaws.AcceptanceReceived` | client/outgoing.go:175-186 | a rejection ends the run and leaves the store; an acceptance is recorded if the commit takes effect and acknowledged if the client learns of it |
| `OutgoingLaws.ResultReceived` | client/outgoing.go:192-200 | a result is saved unless a success is stored and it is unknown, and acknowledged with the stored value in hand if the client learns of the save |
| `OutgoingSafety.SuccessStays` | client/postgres_store.go:249-283 | once a success is in a client's store it stays in every continuation, every later load sees it, and every later run of that client is about to report it |
| `OutgoingSafety.SuccessIsFinal` | client/outgoing.go:115-207 | from then on a result other than the success and those told before can be told to a caller in some continuation if and only if a caller had already loaded it from a complete operation |
| `OutgoingLiveness.OperationCompletes` | client/outgoing.go:155-210 | from every reachable state, whoever was interrupted wherever, an acceptable request whose ID no other client owns can be completed and its result told to a caller: with one more HTTP call, and that call's outcome, if the row is not dispatched or finished, and without a call otherwise |
| `OutgoingLiveness.OnlyOwnerCompletes` | internal/repository/outgoing.go:39-41 | once another client owns the ID, the operation completes in no continuation |
| `LateUnknown.UnknownAfterSuccess` | client/outgoing.go:115-207 | for every acceptable request and every response that is not retried, a run after which the success is stored and no caller has been told anything, and a caller is then told "unknown" |
| `LateUnknown.ReacceptanceReachable` | client/outgoing.go:115-180 | for the same requests, a run after which a run of the protocol from a stale snapshot is about to accept a completed operation again, the call on which the two stores differ |
| `OutgoingSafety.ProgressBounded` | internal/repository/outgoing.go:53-176 | (attempts left, stage) strictly falls on every status change except reserve, release and reservation expiry |
| `OutgoingSafety.StatusChangesBounded` | internal/repository/outgoing.go:53-176 | so a row makes at most 126 such changes in any run |
| `ClientStore.StoreKeyInjective` | client/memory_store.go:194 | with NUL-free proxy IDs the joined key determines the pair |
| `ClientStore.StoreKeyCollides` | client/memory_store.go:194 | for every proxy ID with a NUL another pair has the same key |
| `ClientStore.EffectsAlike` | client/memory_store.go:88-172 | on rows that agree, a call keeps agreement exactly when it does not re-accept a completed operation, and both stores answer alike |
| `ClientStore.SaveOutgoingColumns` | client/postgres_store.go:165-184 | the first request under an ID is stored as it is, and a later one is refused if and only if a field other than creation time and timeout differs |
| `ClientStore.MarkColumns` | client/postgres_store.go:240-291 | acceptance and completion move the state of a known operation and nothing else, and acceptance moves only `outgoing` in the SQL store |
| `ClientStore.SaveResultColumns` | client/postgres_store.go:249-283 | a result is stored and returned, unless a success is stored and the result is unknown: then the success stays and is returned |
| `ClientStore.CallTouches` | client/memory_store.go:88-172 | in both stores a call acts on the row it names, and on no other |
| `ClientStore.CallAgreement` | client/postgres_store.go:165-291 | over whole stores: one call keeps agreement if and only if it is not a MarkAccepted of a completed operation |
| `ClientStore.StoresAgree` | client/memory_store.go:88-172 | over every call sequence without such a call, the stores agree on request, result and completeness |
| `ClientStore.ListedArePending` | client/postgres_store.go:209-238 | a listing below its limit holds exactly the requests and results of the unfinished operations |
| `ClientStore.PendingAgrees` | client/postgres_store.go:209-238 | after any such sequence from empty stores, both stores have the same pending operations for every proxy |
| `ClientStore.SuccessPriority` | client/postgres_store.go:266-282 | after any nonempty sequence of saves the stored result is the last success if any, else the last unknown, and each save returns the value then stored |
| `ClientStore.PostgresStore.SaveOutgoing` | client/postgres_store.go:165-184 | the first request is kept with its creation time, an equal one accepted, a different one refused |
| `ClientStore.PostgresStore.MarkAcceptedRow` | client/postgres_store.go:240-247 | only `outgoing` advances; an unknown ID is an error |
| `ClientStore.PostgresStore.SaveResultRow` | client/postgres_store.go:249-283 | a late unknown never replaces a success, and the stored value is returned |
| `ClientStore.PostgresStore.MarkCompleteRow` | client/postgres_store.go:285-291 | completion of a known operation, error otherwise |
| `ClientStore.SelectPending` | client/postgres_store.go:213 | the ordered, limited selection itself: nothing older is left out, and nothing at all when the limit is not reached |
| `ClientStore.PostgresStore.ListPending` | client/postgres_store.go:209-238 | the oldest unfinished operations of the proxy in order of creation, up to the limit (1000 when it is zero or less), each once |
| `ClientStore.MemoryStore.SaveOutgoing` | client/memory_store.go:88-100 | as the SQL store, under the joined key |
| `ClientStore.MemoryStore.MarkAcceptedRow` | client/memory_store.go:127-138 | any state becomes `accepted` |
| `ClientStore.MemoryStore.SaveResultRow` | client/memory_store.go:140-159 | as the SQL store, with the not-found check first |
| `ClientStore.MemoryStore.MarkCompleteRow` | client/memory_store.go:161-172 | completion of a known operation, error otherwise |
| `ClientStore.MemoryStore.ListPending` | client/memory_store.go:112-125 | only unfinished operations of the proxy, and all of them when a positive limit is not reached or there is none |
| `HostLimiter.HostLimits.AcquireHostPermit` | internal/repository/limits.go:8-48 | the statements grant exactly when concurrency, spacing and window allow, and a refusal leaves all three tables as they were |
| `HostLimiter.AcquireGrants` | internal/repository/limits.go:17-45 | a permit is granted if and only if fewer permits are in use than the concurrency, the interval since the last grant has passed, and the second has room, and its token is new |
| `HostLimiter.AcquirePermits` | internal/repository/limits.go:17-45 | a grant drops exactly the permits whose lease has ended and adds its own |
| `HostLimiter.AcquireCounts` | internal/repository/limits.go:27-42 | a grant adds one to its second and, for a host with an interval, stamps the host |
| `HostLimiter.OtherColumns` | internal/repository/maintenance.go:69-70 | a release removes its permit alone, cleanup exactly the counters older than an hour and the stamps older than a day |
| `HostLimiter.HostLimits.ReleaseHostPermit` | internal/repository/limits.go:50-53 | exactly that permit row goes |
| `HostLimiter.StepPermits` | internal/repository/limits.go:17-26 | each acquisition, release or cleanup keeps the permit rows of every host within its concurrency |
| `HostLimiter.PermitsBounded` | internal/repository/limits.go:14-47 | so does every sequence of them, for timestamps in any order |
| `HostLimiter.GrantsSpaced` | internal/repository/limits.go:27-35 | grants of a host are at least `gap` apart in commit order, for timestamps in any order, whenever `gap` is at most minInterval and gap + skew at most a day and a microsecond |
| `HostLimiter.RateConserved` | internal/repository/limits.go:36-42 | the counter of each second equals the number of grants stamped in it and stays within rps, for timestamps in any order with skew + 1 s at most an hour and a microsecond |
| `HostLimiter.RateInAnyInterval` | internal/repository/limits.go:36-42 | a kept rate leaves at most (ceil(L) + 1) * rps grants in any interval of length L, of whole seconds or not |
| `LimiterThresholds.SpacingIsExact` | internal/repository/maintenance.go:70 | for every host configuration: all runs keep grants `gap` apart if and only if gap <= minInterval and gap + skew <= a day and a microsecond |
| `LimiterThresholds.RateIsExact` | internal/repository/maintenance.go:69 | for every host configuration: all runs keep each second within rps if and only if skew + 1 s <= an hour and a microsecond, or rps times the guaranteed spacing fills a second |
| `LimiterThresholds.CountersAreExact` | internal/repository/maintenance.go:69 | for every host configuration: in all runs `used` equals the grants stamped in its second if and only if the same holds for one grant |
| `LimiterThresholds.ForgottenGrant` | internal/repository/maintenance.go:70 | beyond the threshold, a run whose cleanup forgets the last dispatch breaks the spacing |
| `LimiterThresholds.Overfill` | internal/repository/maintenance.go:69-70 | beyond the threshold, a run puts n + 1 grants into a second and leaves its counter at one |
| `LimiterThresholds.IntervalBounded` | internal/repository/limits.go:36-47 | below the threshold, any interval of length L holds at most (ceil(L) + 1) * rps grants |
| `HostConcurrency.ConcurrencyBounded` | internal/worker/worker.go:74-97 | calls in flight to a host never exceed its concurrency across all instances when each call starts within one minute of its permit's timestamp, with limiter cleanups at any times |
| `HostConcurrency.SlackIsExact` | internal/worker/worker.go:74-97 | for every longest timeout: the bound holds for all configurations, runs and hosts whose calls start within `slack` if and only if slack is at most one minute |
| `HostConcurrency.LateCallBreaksBound` | internal/worker/worker.go:74-97 | for every longest timeout, a run with all starts within one minute and a microsecond has two calls at concurrency one |
| `DeliveryQueue.Queue.ClaimDelivery` | internal/repository/delivery.go:10-28 | the oldest claimable unlocked delivery is leased and no longer claimable, or there is none |
| `DeliveryQueue.Queue.RescheduleDelivery` | internal/repository/delivery.go:30-33 | only an unacknowledged delivery is rescheduled |
| `DeliveryQueue.NoStrandedDelivery` | internal/transport/delivery.go:12-37 | in every interleaving of claims, crashes, late reschedules, ACKs and reopenings an unacknowledged delivery is claimable max(10 s, retry delay) after its last change |
| `DeliveryQueue.AcknowledgedStays` | internal/repository/delivery.go:30-33 | no claim or late reschedule reopens an acknowledged delivery |
| `DeliveryQueue.AcknowledgedIsNotClaimed` | internal/repository/delivery.go:18 | after an acknowledgement no claim at any time succeeds until the delivery is reopened |
| `DeliveryQueue.RetryIsDelayed` | internal/repository/delivery.go:30-33 | after a reschedule at s nobody claims the delivery before s + retry delay, whatever follows, until it is reopened |
| `DeliveryQueue.ClaimExcludes` | internal/repository/delivery.go:18-24 | a claim succeeds on every due, unleased delivery, and shuts out all other claims up to and including the end of its ten seconds |
| `DeliveryQueue.SlotColumns` | internal/repository/delivery.go:24-31 | what a claim, a reschedule, an acknowledgement and a reopening write, and that they write nothing else |
| `DeliveryQueue.ClaimableColumns` | internal/repository/delivery.go:18 | claimable is: not acknowledged, due, and not leased until now or later |
| `WebhookControl.Distinct` | internal/transport/callback.go:280-290 | no duplicates, and exactly the non-empty members |
| `WebhookControl.Dedupe` | internal/transport/callback.go:280-290 | one pass with a seen-map computes it, keeping first occurrences |
| `WebhookControl.CommandsIdempotent` | internal/repository/webhook.go:15-103 | routes, subscribers and records after any sequence of commands and retention steps equal those after the retention steps and the first committed occurrence of each ID alone |
| `WebhookControl.KeptOnce` | internal/repository/webhook.go:26-46 | between two committed occurrences of an ID its record was removed, and likewise before the first one if the ID was recorded at the start |
| `WebhookControl.KeptDistinct` | internal/repository/webhook.go:26-46 | if no ID returns after its record is removed, each ID commits at most once |
| `WebhookControl.ReplayAnswered` | internal/repository/webhook.go:26-40 | until retention removes it a record never changes; each later copy gets the first result, even after an opposite command or the removal of its route, and a reuse by another client or for another command is refused |
| `WebhookControl.RefusedExactly` | internal/repository/migrations/000001_initial.up.sql:59 | after every run of commands and retention a validated command is refused if and only if its ID is recorded for something else, or is not recorded and the command writes a route with a timeout above zero and below one millisecond or registers a webhook that exists; the last happens only after a record of that ID was removed |
| `WebhookControl.RecordedIffKept` | internal/repository/webhook.go:92-98 | an ID is on record if and only if some arrival committed under it, or it was on record at the start, and retention has not removed it since |
| `WebhookControl.ShortRegistrationNeverCommits` | internal/repository/webhook.go:105-112 | a registration with such a timeout never commits in any run from any state, and its ID stays unrecorded unless another arrival uses it |
| `WebhookControl.ShortUpdateCommits` | internal/repository/webhook.go:54-63 | an update with such a timeout of a webhook its client owned commits under an unrecorded ID if and only if the webhook is gone, which takes its removal by retention while disabled; it then changes no route and reports `webhook_not_found` |
| `WebhookControl.RouteLeavesBy` | internal/repository/maintenance.go:73 | a route leaves the table only by retention, at a moment when it is disabled |
| `WebhookLaws.SubscribedExactly` | internal/repository/webhook.go:44-76 | after every run of commands and retention a client is subscribed if and only if some registration listed it (or is its own), or a subscription by the owner named it, and since then no unsubscription by the owner and no removal of the route took it away |
| `WebhookLaws.RouteExistsExactly` | internal/repository/webhook.go:46-63 | a route exists if and only if a registration or update wrote it and retention has not removed it since |
| `WebhookLaws.RouteExactly` | internal/repository/webhook.go:46-87 | its owner, name, mode, responder, reply, timeout in whole milliseconds and body limit are those of the last such command, with defaults, and it is enabled if and only if the owner has not deleted it since |
| `WebhookLaws.ControlAnswers` | internal/transport/callback.go:48-148 | the first use of a command ID that commits is answered with success if and only if the command takes effect, and otherwise with the first reason that applies; a command without an ID is dropped |
| `WebhookLaws.NextEventReaches` | internal/repository/webhook.go:169-199 | an event stored after a run is delivered to a client if and only if it has joined and not left, or is the responder of a delegated route, who alone is asked for the answer |
| `WebhookLaws.ResultIsSent` | internal/repository/webhook.go:37-101 | a committed command leaves an open delivery of its result for its sender, new or reopened, and changes no other delivery |
| `WebhookLaws.StampedColumns` | internal/repository/webhook.go:54-87 | the update time of a route is that of the last registration, owner's update or owner's deletion |
| `WebhookLaws.ExpiredEventColumns` | internal/repository/maintenance.go:71 | retention may delete an event if and only if it is old enough and has no open delivery |
| `WebhookLaws.ExpiredCommandColumns` | internal/repository/maintenance.go:72 | the same for a command |
| `WebhookEvents.ListTargets` | internal/repository/webhook.go:169-187 | subscribers, and the responder in delegated mode, each exactly once |
| `WebhookEvents.InsertDeliveries` | internal/repository/webhook.go:188-199 | one new delivery per client, or failure exactly when a drawn ID is taken |
| `WebhookEvents.BatchFansOut` | internal/repository/webhook.go:188-199 | the deliveries the loop makes are one open delivery per target, with a reply subject for the responder alone |
| `WebhookEvents.FanOutDeliveries` | internal/repository/webhook.go:169-199 | selection and loop together give the event exactly that fan-out, and touch no other row |
| `WebhookEvents.FanOutCounts` | internal/repository/webhook.go:185-199 | as many deliveries as distinct targets; exactly one asks for a reply in delegated mode, none in static mode |
| `WebhookEvents.FanOutDelivers` | internal/repository/webhook.go:169-199 | a client has a delivery of the event if and only if it is subscribed or the responder of a delegated route, and has one; each is open and carries the event, and the responder's alone asks for a reply |
| `WebhookRepository.PerformControl` | internal/repository/webhook.go:44-88 | the switch over actions, with the subscriber loop, gives the routes, subscribers, timestamps and result that the specification names |
| `WebhookRepository.ControlCommand` | internal/repository/webhook.go:15-103 | replay answered from the record with its delivery reopened, conflicting reuse refused, first use performed, recorded and delivered; every refusal changes nothing |
| `WebhookRepository.ControlMovesDesk` | internal/repository/webhook.go:54-63 | a control command moves the desk of an event by the protocol's route update, exactly when it is a first accepted update of that event's webhook |
| `WebhookRepository.WebhookTables.ApplyWebhookControl` | internal/repository/webhook.go:15-103 | the same on the tables that events use: registry, result delivery and timestamps as specified, events untouched, schema keys kept, each event's desk moved by the route update or not at all |
| `WebhookRepository.WebhookTables.ConfirmWebhookControl` | internal/repository/webhook.go:120-126 | exactly the named client's control delivery is closed, or the ACK is refused |
| `WebhookRepository.StoreEvent` | internal/repository/webhook.go:147-203 | event and fan-out are stored together, or nothing is; it fails exactly on a known event ID, a missing route or a taken delivery ID |
| `WebhookRepository.NewEventColumns` | internal/repository/webhook.go:159-165 | a stored event waits for an answer if and only if its route is delegated |
| `WebhookRepository.WebhookTables.SaveWebhookEvent` | internal/repository/webhook.go:147-203 | event and fan-out are stored together, or nothing is; it fails exactly on a known event ID, a missing route or a taken delivery ID; the deliveries are those of the subscribers and of a delegated route's responder, one each |
| `WebhookRepository.WebhookTables.ConfirmWebhook` | internal/repository/webhook.go:205-211 | exactly the named client's webhook delivery is closed, or the ACK is refused |
| `WebhookRepository.StoreResponse` | internal/repository/webhook.go:213-244 | the protocol's first-response-wins step on the event row (status, response, time stamp on change, nothing else) and on the closed flags of its deliveries; no other row or column changes |
| `WebhookRepository.WebhookTables.SaveWebhookResponse` | internal/repository/webhook.go:213-244 | the same on the tables, with the schema keys kept |
| `WebhookRepository.WebhookTables.MarkWebhookTimedOut` | internal/repository/webhook.go:246-259 | the protocol's timeout step on the event row (status, time stamp on change, nothing else) and on the closed flags of its deliveries; no other row or column changes |
| `WebhookEvents.SelectOldest` | internal/repository/maintenance.go:71 | the oldest candidates up to the batch size, and all of them when they fit |
| `WebhookRepository.WebhookTables.CleanUpEvents` | internal/repository/maintenance.go:71 | deletes the oldest expired events without an open delivery, with their deliveries; no open delivery is ever deleted |
| `WebhookRepository.WebhookTables.CleanUpCommands` | internal/repository/maintenance.go:72 | the same for the commands that ApplyWebhookControl records, as the forgetting step of the command runs |
| `WebhookRepository.WebhookTables.CleanUpRoutes` | internal/repository/maintenance.go:73 | deletes exactly the expired disabled routes that no event references, with their subscribers, as the route removal step of the command runs |
| `WebhookRepository.RegistrationOutlivesRecord` | internal/repository/maintenance.go:72-73 | on the tables: every accepted registration, acknowledged and then forgotten by retention, is refused when it arrives again |
| `WebhookRepository.ShortUpdateAfterRemoval` | internal/repository/maintenance.go:73 | on the tables: an update with a timeout below one millisecond is refused while its webhook exists, and commits with `webhook_not_found` once the deleted webhook is removed |
| `CallbackSafety.ActOk` | client/callback.go:150-316 | every step of a callback run keeps its part of the invariant and publishes only what that part allows |
| `CallbackSafety.ProxyInv` | internal/transport/callback.go:166-258 | every proxy step, including route updates and stops, keeps the invariant of the whole event |
| `CallbackSafety.RunInv` | internal/transport/callback.go:166-258 | the invariant holds along every run of both sides |
| `CallbackSafety.RunLater` | client/callback.go:150-256 | along every run final statuses, the stored responses, closed deliveries and messages stay |
| `CallbackLaws.ResponseColumns` | internal/repository/webhook.go:213-244 | a response is stored if and only if the delivery is its sender's, the delegated route names the sender, and the event waits or already holds this very response; it closes that delivery alone |
| `CallbackLaws.RepeatIsConfirmed` | internal/transport/callback.go:201-205 | a stored response that is sent again commits and is confirmed again while the route names its sender |
| `CallbackLaws.HandleResponseSteps` | internal/transport/callback.go:188-215 | what the handler of a response does to event, deliveries, bus and waiting caller, for every report of its commit |
| `CallbackLaws.HandleAckSteps` | internal/transport/callback.go:170-186 | an ACK closes the delivery of the client that sent it, and is confirmed if the proxy learns of it |
| `CallbackLaws.TimeoutColumns` | internal/repository/webhook.go:246-259 | a timeout ends a wait and closes exactly the deliveries of the client that the route names now |
| `CallbackLaws.CallerSteps` | internal/transport/callback.go:251-257 | the HTTP caller gets the response handed to it while it waits, and a timeout or stop ends the wait without one |
| `CallbackLaws.HandlerRuns` | client/callback.go:159-185 | the handler runs if and only if neither a response nor completion is on record and the event makes a request; a recorded response is delivered instead, a completed delivery acknowledged again |
| `CallbackLaws.ResumeDelivers` | client/callback.go:283-300 | at its start the client goes on with exactly the deliveries that hold a response and no completion |
| `CallbackLaws.ResponseHasOrigin` | client/callback.go:185-198 | every response that is stored, sent, or returned to the HTTP caller has the status code, headers and body that some run of the handler returned, for the delivery and client it ran for |
| `CallbackLaws.StaticDeliverySettles` | client/callback.go:150-210 | from every reachable state an open delivery that asks for no reply can be closed at the proxy and completed at the client |
| `CallbackLaws.DelegatedDeliverySettles` | client/callback.go:150-256 | from every reachable state in which the event waits and the route asks the client, its open delivery can be settled with one response on both sides, which a waiting HTTP caller receives: the one on record, or else whatever the handler returns |
| `CallbackSafety.DelegatedAnswer` | internal/repository/webhook.go:213-259 | `responded` and `timed_out` are final, the stored response never changes, the external caller gets only the stored one, and a reply-bearing delivery of a timed-out event is never confirmed |
| `CallbackSafety.HandlerStarts` | client/callback.go:150-205 | a handler starts at most 1 + stops times, and never again once its response or completion is on record |
| `CallbackSafety.BothSidesAgree` | client/callback.go:212-256 | without a stop between the publication of a response and its save, client and proxy hold the same response; a delivery that asks for a reply completes only after the proxy stored one |
| `CallbackSafety.StopInWindowDiverges` | client/callback.go:222-236 | from every reachable state with a published, unsaved response whose event is waiting or answered, a stop can be followed, without another stop, by records that differ for ever |
| `CallbackSafety.WindowReachable` | client/callback.go:222-236 | every reply-bearing delivery of every waiting event can get there |
| `CallbackSafety.TimedOutReplyStaysOpen` | internal/repository/webhook.go:213-259 | a reply-bearing delivery open after its event timed out is open in every later state |
| `CallbackSafety.TimeoutCloses` | internal/repository/webhook.go:246-259 | after a timeout the reply-bearing delivery is closed, then and for ever, if and only if it was closed before or its client is the route's current responder |
| `CallbackSafety.RouteUpdateStrands` | internal/repository/webhook.go:246-259 | a route update to another responder followed by the timeout leaves the first responder's delivery open in every continuation |
| `CallbackSafety.ClosesOnlyBy` | internal/repository/webhook.go:205-259 | a delivery closes only by its client's ACK, its client's accepted response, or a timeout while that client is the route's responder |

## Left out

- HTTP execution (internal/httpx/executor.go): a call has an arbitrary outcome.
- Bus connection, subscriptions, flushing and bounded channels (client/client.go, internal/transport/core.go): covered by the lossy message set.
- Signing and sender authentication (internal/message/message.go): a message names its true sender.
- Public HTTP ingress, token check, metrics, health and shutdown.
- Configuration parsing and schema migration; the bounds that configuration guarantees appear as conditions where a lemma needs them.
- SQL isolation: row locks, the advisory lock and unique keys make each transaction atomic.
- Fairness of the bus, the external server and the handlers: that completion stays possible is proved, not that it happens.
- Retry delays (`backoff`, `nextBackoff`): they only choose when a step happens, and every theorem holds for all times.
- Retention inside callback runs: an event is followed until retention removes it.
- Retention of outgoing rows and client rows: IDs are taken as never reused after retention, as README.md:298-299 of the repository demands.
- Several processes for one (client, proxy) pair: one process is assumed.
- `failed` and `canceled` request statuses: no code path writes them.
- Empty client IDs: a sender is authenticated, so the schema check that a delegated route has a responder cannot fail.
- Columns that only record time (`updated_at` of requests and operations) and message subjects.
- The delivery table appears three times, with the columns each area uses: queue columns in `DeliveryQueue`, request deliveries in `OutgoingRepository`, webhook and control deliveries in `WebhookRepository`.
- The client's callback tables: one record per delivery inside `CallbackProtocol`; a delivery ID that returns with a different event is not modelled.
- The client half of control commands (publishing a command until its result arrives) and the webhook URL token.
- Client and worker loops appear as events of the protocols rather than as loops, because their iterations interleave with every other process.
