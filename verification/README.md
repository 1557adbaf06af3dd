# A verified model of the Binance Pay connector's payment protocol

The connector creates orders at Binance Pay, follows their status by polling and by webhooks,
refunds them, and publishes normalized events to an orchestrator through an outbox. Five Postgres
tables are its only shared state. No statement locks a row across steps, so every actor (create,
get, cancel, refund, webhook, reconciler, publisher) works on snapshots that go stale. This
project models that protocol in Dafny and proves what holds in every interleaving.

How the project is built:

- `Tables.dfy` gives every SQL statement or transaction as a function of the five tables.
  `Store.dfy` is the store as a mutable class; each method is proved against those functions.
- `Protocol.dfy` is the payment protocol as one transition system. Each statement, provider call
  and local decision is one step. Processes carry the snapshot of their last step, so in-flight
  answers are part of the state; processes may crash at any point, and a write may take effect and
  still be reported as failed. The provider keeps, per order, every raw status the order has had,
  and a query or webhook may report any of them.
- `Agreement.dfy`, `Creation.dfy`, `Commands.dfy`, `Schedule.dfy`, `Outcomes.dfy`, `Announcements.dfy`
  and `Progress.dfy` hold the invariants and results; `Statements.dfy` reduces steps to what a
  statement does to one row.
- `Service.dfy` is the service as a mutable class over the store, and `ServiceSteps.dfy` proves
  that each of its calls is a schedule of the transition system. `Calls.dfy` concludes that the tables
  any sequence of calls leaves belong to a reachable state.
- `Refunds.dfy` (with `RefundCalls.dfy`), `Delivery.dfy` and `ParallelEach.dfy` are three further transition systems: refunds
  by idempotency key, delivery of the outbox, and the reconciler's worker pool. `Publisher.dfy` is
  the publisher as a class.
- `Amounts.dfy`, `EventIds.dfy`, `Statuses.dfy` and `Text.dfy` hold the arithmetic and the strings
  the protocol rests on.

Assumptions, all stated in the definitions:

- A final provider status (`PAY_SUCCESS`, `PAY_CLOSED`, `PAY_FAIL`) is followed by no other, up to
  letter case; a reported status was held by the order at some time; a successful close sets
  `PAY_CLOSED`; a new order starts as `INITIAL`. These shape `Protocol.MayMove`, `Protocol.Held` and
  `Protocol.ProviderAfter`, and serve the results on agreement with the provider and on progress.
- Statements and transactions are atomic, the database clock never decreases, and clock readings of
  the service do not lie ahead of it. `SKIP LOCKED` is an arbitrary set of excluded rows.
- SHA-256 is an arbitrary function to 32 bytes; where distinct ids matter, the exact condition is
  that two particular seeds do not collide in the truncated hash. The request fingerprint (SHA-256 of
  the encoded command) is an arbitrary function of the command, so "the same command" means "the same
  fingerprint".

Claims that look natural and are false of this code, each with a run that refutes it and the exact
condition under which it holds:

- *Finished statuses are absorbing.* `Counterexamples.FinishedOrderReopens` reopens a confirmed order
  with a stale answer. `Progress.StaysFinishedExactly`: a finished order stays finished throughout a run if
  and only if no step of the run writes it with a raw status that is not the provider's present one.
- *Every finished order has an outbox event.* The same run confirms an order through `Get` with an
  empty outbox. `Announcements.AnnouncedThroughoutExactly`: it holds throughout a run if and only if no
  Get or Cancel of the run stores a finished status that no event was recorded with.
- *Reconciling an order the provider has finished finishes it.* `Counterexamples.ReconciledOrderStaysOpen`
  reaches an open order whose event id is already recorded, and which stays open in every run until a
  Get, a Cancel or a webhook writes it. `Progress.RecordingFinishesExactly` gives the condition,
  `Progress.ReconcileProgress` the case of fresh runs.
- *A refund request id causes one provider call.* `RefundCounterexamples.SecondKeyCallsAgain` calls twice
  for any two refunds with one request id. `RefundCounterexamples.OneCallPerRefundExactly`: for any set of
  accepted refunds, all runs keep to one call if and only if different keys have different request ids.
- *A stored refund response answers its row's command, and a key that has a row called the provider once.*
  `RefundCounterexamples.ReusedKeyHitsOtherRow` breaks both. `RefundCounterexamples.HarmlessExactly`: for any
  set of accepted refunds, each holds of all runs if and only if no key with a request id that another key
  has, too, also has a different request id. One command per key is a special case.
- *Poll ids identify payments.* `EventIds.PlacesDifferExactly`: the hashed texts do if and only if no
  connection id, with a colon, begins another one; `EventIds.OverlapsConfuse` gives two payments of any
  two such connections that share every poll id.

`dafny verify dfyconfig.toml` checks the whole project.

## Model

| member | source | states |
|---|---|---|
| Stores.Store.Migrate | internal/adapters/postgres/migration.sql:38 | the startup UPDATE schedules exactly the unfinished rows that have no time, now, and touches nothing else |
| Stores.Store.ReserveCreate | internal/adapters/postgres/store.go:52-77 | inserts a processing row when the key is new; otherwise replays a completed response under the same hash, or conflicts |
| Stores.Store.ViolatesUnique | internal/adapters/postgres/migration.sql:12-33 | true exactly when some row shares the transaction id, or the connection and reference |
| Stores.Store.CompleteCreate | internal/adapters/postgres/store.go:79-97 | inserts the order, due in 10 seconds if open, and completes the operation with the payment without amount and currency, together; or changes nothing, exactly when a row shares the key, the transaction, or connection and reference |
| Stores.Store.FailCreate | internal/adapters/postgres/store.go:99-102 | marks the key's operation aborted with the message, whatever its status was |
| Commands.FoundAsCreated | internal/adapters/postgres/store.go:104-128 | a created payment is found for ever, on every field its creation set: later runs change its status, raw status and observation time only |
| Stores.Store.FindPaymentByReference | internal/adapters/postgres/store.go:107-109 | a snapshot with the connection and reference; not found exactly when no row has them |
| Stores.Store.UpdateStatus | internal/adapters/postgres/store.go:129-135 | unguarded write of status, raw status and the database time, due in a minute exactly while open, clearing the error; not found exactly when the row is missing |
| Stores.Store.UpdatePaymentObservation | internal/adapters/postgres/store.go:160-163 | the same write with the caller's observation time |
| Stores.Store.RetryPaymentReconciliation | internal/adapters/postgres/store.go:164-167 | postpones an unfinished row by 10*2^min(attempts,8) seconds, with the error cut at 1000, and leaves everything else of it and finished rows alone |
| Stores.Store.Earliest | internal/adapters/postgres/store.go:137 | a row of the given set scheduled no later than any other of it |
| Stores.Store.SelectDue | internal/adapters/postgres/store.go:137 | the selected keys are distinct, due and unlocked, and a due unlocked row is left out only when the limit is full of rows no later than it |
| Stores.Store.ClaimPaymentsForReconciliation | internal/adapters/postgres/store.go:136-159 | claims at most the limit of distinct open, due, unlocked rows, none later than one left out, gives each a minute and an attempt, and returns the updated rows |
| Stores.Store.RecordProviderEvent | internal/adapters/postgres/store.go:168-189 | inbox row, unpublished outbox row and order update together when inbox and outbox lack the id; false exactly when the inbox knows it; nothing at all otherwise |
| Stores.Store.PendingEvents | internal/adapters/postgres/store.go:196-211 | a page of unpublished due events, oldest first, leaving out none that is older than one on a full page |
| Stores.Store.MarkPublished | internal/adapters/postgres/store.go:212-215 | sets the publication time of this event only |
| Stores.Store.MarkFailed | internal/adapters/postgres/store.go:216-219 | counts an attempt, stores the error and backs off by min(300, 2*2^min(attempts,8)) seconds, for this event only |
| Stores.Store.ConflictsWithRefund | internal/adapters/postgres/migration.sql:57-76 | true exactly when the insert would repeat a refund id, request id or idempotency key |
| Stores.Store.ReserveRefund | internal/adapters/postgres/store.go:221-246 | inserts a processing row exactly when nothing blocks it; otherwise replays a response stored under the same hash, conflicts over another hash or an unanswered row, and proceeds exactly when the key has no row |
| Stores.Store.Affected | internal/adapters/postgres/store.go:251-258 | exactly the rows with this idempotency key; empty exactly when there is none |
| Stores.Store.CompleteRefund | internal/adapters/postgres/store.go:248-256 | stores the refund, its status and provider id in the rows with this key and no other; not found exactly when there is none |
| Stores.Store.FailRefund | internal/adapters/postgres/store.go:257-260 | marks the rows with this key failed and no other |
| Services.Service.Validate | internal/app/service.go:207-222 | accepts exactly the valid commands, and the error names the first check that failed |
| Services.Service.Create | internal/app/service.go:36-92 | which error, replay or conflict answers an invalid or repeated creation; a new one stores, field by field, the reply's id, completion and expiry (the command's if it has none) with the completed operation, exactly when no row shares the key, transaction or reference; a refused call leaves an aborted operation, a constraint a reserved one |
| Services.Service.Get | internal/app/service.go:94-114 | an answered query writes one row: the raw status, its normalized status, the database time, a next poll in a minute exactly while open, no error, terms and attempts kept; otherwise nothing changes and the stored payment comes back beside the error |
| Services.Service.Cancel | internal/app/service.go:116-134 | a successful close writes one row: cancelled, PAY_CLOSED, the database time, no next poll; otherwise nothing changes and the stored payment comes back beside the error |
| Services.Service.HandleWebhook | internal/app/webhook.go:14-23 | the target is an order with the reference, or the answer is not found and nothing changes |
| Services.Service.RecordWebhook | internal/app/webhook.go:23-43 | a matching document with an id new to inbox and outbox is recorded if and only if its raw status folds to INITIAL, PAID, PAY_SUCCESS, PAY_CLOSED or PAY_FAIL, with inbox, outbox and order rows given field by field; every other answer, named exactly, leaves the tables |
| Services.Service.FirstMismatch | internal/app/reconciler.go:53-64 | the message of the first of the id, currency and amount checks that fails, none exactly when the document matches |
| Services.Service.ReconcilePayment | internal/app/reconciler.go:44-89 | a failed query or mismatch only postpones the row with its message; a matching open answer stores raw and normalized status, the stamp, a poll in a minute and no error, and no event; a matching final one records event and settled row, field by field, unless the id is known |
| Services.Service.RecordOrRetry | internal/app/reconciler.go:83-87 | a poll event that collides in the outbox postpones its order instead |
| Services.Service.CreateRefund | internal/app/service.go:136-173 | the error of the first check that fails; the replay or conflict of a key with a row; otherwise the row as stored from the reply, confirmed for REFUNDED or REFUND_SUCCESS, failed for CANCELLED, REFUND_FAIL or FAILED, else pending, and the same answered; not found, with no change, when its refund or request id is taken |
| ServiceSteps.CreateIsSchedule | internal/app/service.go:36-92 | the steps of an uninterrupted Create, one by one, are a run of the protocol that leaves the call's tables and no process |
| ServiceSteps.GetIsSchedule | internal/app/service.go:94-114 | find, query and write, in this order, are a run of the protocol that leaves the tables of Get, for any status the order has had |
| ServiceSteps.CancelIsSchedule | internal/app/service.go:116-134 | the same of find, close and write for Cancel, when the provider may close the order |
| ServiceSteps.HookIsSchedule | internal/app/webhook.go:14-44 | the same of a webhook's find, decision and recording, in all its outcomes |
| ServiceSteps.ReconcileIsSchedule | internal/app/reconciler.go:44-89 | the same of a claimed order's query, decision and statement, for every answer and failure |
| ServiceSteps.RefundIsSchedule | internal/app/service.go:136-173 | the same of the steps of CreateRefund in the refund protocol, for row owners and others |
| Calls.CallSchedules | internal/app/service.go:36-134 | every call the provider allows, from any state, is a schedule that leaves the call's tables |
| Calls.CallsServe | internal/app/service.go:36-134 | after any sequence of calls that was served, every possible next call can be served, too |
| Calls.CallsReach | internal/app/service.go:36-134 | the tables any sequence of calls leaves, one after the other, are those of a reachable state |
| Calls.CallsAgree | internal/app/service.go:36-134 | after any sequence of calls on empty tables finished orders name the provider's status, inbox and outbox match, and every order has its completed operation |
| Statements.RowsChange | internal/adapters/postgres/store.go:79-189 | order rows are never deleted, change only as their statement says, and appear only by a completed creation |
| Statements.BoxesChange | internal/adapters/postgres/store.go:168-189 | inbox and outbox grow together, only by a recorded event |
| Statements.OutboxChanges | internal/adapters/postgres/store.go:168-219 | an outbox row keeps its event for ever |
| Agreement.StepSound | internal/app/reconciler.go:44-89 | every step keeps: stored and emitted statuses were held at the provider, snapshots agree with immutable columns, inbox and outbox agree |
| Agreement.ReachableSound | internal/app/service.go:94-134 | that invariant holds in every reachable state |
| Outcomes.TerminalAgreement | internal/app/service.go:94-134 | a finished order names the provider's current status, or says expired of a closed order past its expiry, whatever stale writes were applied |
| Outcomes.FinalEventsAgree | internal/app/reconciler.go:70-83 | all final events of one order carry the provider's one final status |
| Outcomes.RegressesExactly | internal/adapters/postgres/store.go:129-189 | a step loses a finished status if and only if it writes a raw status that is not the provider's present one |
| Outcomes.EventIntegrity | internal/app/reconciler.go:96-99 | every outbox event repeats the immutable columns of one order, names its status in its type, and that status is the normalized raw one or an expiry |
| Outcomes.ReportedAmountsAgree | internal/app/webhook.go:29-31 | any two amounts reported with recorded events of one order are equal as rationals |
| Outcomes.InboxMatchesOutbox | internal/adapters/postgres/store.go:168-183 | projecting inbox rows to event ids is a bijection onto the outbox ids, across connections |
| Outcomes.AtMostEightEvents | internal/app/webhook.go:32-43 | an order yields at most five webhook events and three poll events over unboundedly many deliveries and polls |
| Announcements.OutboxCompleteByLastWriter | internal/adapters/postgres/store.go:160-189 | a finished order last written by an event has that event in the outbox; one without such an event was last written by Get or Cancel |
| Announcements.SilencedExactly | internal/app/service.go:104-132 | a step leaves a finished order without its event if and only if it is a Get or Cancel storing a finished status no event was recorded with |
| Announcements.AnnouncedThroughoutExactly | internal/app/service.go:104-132 | every finished order has its event throughout a run if and only if the run has no such step |
| Progress.FinishedStaysFinishedWhenFresh | internal/app/reconciler.go:66-83 | while every write is fresh, a finished order stays finished |
| Progress.StaysFinishedExactly | internal/adapters/postgres/store.go:129-189 | a finished order stays finished throughout a run if and only if no step of it writes a raw status that is not the provider's present one |
| Progress.ReconcileProgress | internal/app/reconciler.go:44-88 | after any fresh run, every poll about to record, however its steps were interleaved, can record and leaves its order finished and no other lagging more; if the order was open, strictly fewer orders lag |
| Progress.ReconciliationAtOnce | internal/app/reconciler.go:44-88 | its link to the call: a claimed lagging order reconciled at once with a fresh answer ends with exactly the tables of the call, finished |
| Progress.LaggingOrderServed | internal/app/reconciler.go:33-42 | in fresh runs a due lagging order is claimed within floor(ahead/50)+1 batches that do not find it locked, and from then on the recording of a poll of it finishes it, in every fresh continuation |
| Progress.StrandedForEver | internal/adapters/postgres/store.go:174-180 | an open order whose provider is finished and whose poll event is recorded stays open in every run without a Get, Cancel or webhook of it |
| Progress.RecordingFinishesExactly | internal/adapters/postgres/store.go:174-189 | in general a recorded poll leaves its order finished if and only if it was finished or the event id is new to inbox and outbox |
| Counterexamples.FinishedOrderReopens | internal/app/service.go:109-112 | a reachable confirmed order with an empty outbox that a stale Get then reopens |
| Counterexamples.ReconciledOrderStaysOpen | internal/adapters/postgres/store.go:178-180 | a reachable open order whose provider is finished, with a poll that saw it in flight, which no run without a Get, Cancel or webhook of it finishes |
| Creation.AtMostOneProviderCall | internal/app/service.go:43-91 | an operation settles once, for ever, over any interleaving, crash and failed completion, and the provider calls remembered for its key are one |
| Creation.KeysCallOnce | internal/app/service.go:43-73 | counted over the steps of any run, a key calls the provider at most once |
| Creation.OperationsAndOrdersPair | internal/adapters/postgres/store.go:79-97 | completed operations and order rows are in bijection in every reachable state |
| Creation.ReplaysFirstPayment | internal/adapters/postgres/store.go:60-76 | after completion every request with the key and command replays the first payment on all serialized fields however the order moved; another fingerprint conflicts |
| Commands.OrdersRepeatCommands | internal/app/service.go:73-88 | in every run an order has the connection, transaction, reference, amount and currency of its own creation's command, and the id, completion and expiry of the reply to that creation's provider call, the command's expiry if it gave none |
| Commands.OrdersUnique | internal/adapters/postgres/migration.sql:12-33 | in every reachable state no two orders share a transaction, or a connection and a reference, so a webhook names one order |
| Schedule.BackfillSchedules | internal/adapters/postgres/migration.sql:38 | the backfill makes the schedule exact if and only if no finished row had a time |
| Schedule.ScheduledThroughout | internal/adapters/postgres/store.go:129-189 | in every run from a scheduled state, an order has a next time exactly while it is unfinished, so none is lost and no finished one is claimed |
| Schedule.NothingGetsAhead | internal/adapters/postgres/store.go:137 | no statement puts an order ahead of a due one; a batch removes its orders from those ahead |
| Schedule.NoStarvation | internal/adapters/postgres/store.go:136-159 | a due order nothing else rewrites is claimed within floor(ahead/50)+1 batches that do not find it locked, in every interleaving and with any tie-breaking |
| Schedule.ClaimsApart | internal/adapters/postgres/store.go:165 | two batches of a run that claim one order are at least 20 seconds apart, whatever runs between them |
| Schedule.RetryDelayUncapped | internal/adapters/postgres/store.go:165 | the retry delay is 10*2^min(attempts,8) seconds, so the hour cap never binds |
| Schedule.RetryDelayBounds | internal/adapters/postgres/store.go:165 | it lies between 10 and 2560 seconds, and is at least 20 after a claim |
| Schedule.TotalDelayFromFirst | internal/adapters/postgres/store.go:165 | k delays from the first attempt on sum to 10(2^(k+1)-2) seconds up to k = 8 and to 5100+2560(k-8) beyond |
| Schedule.BackoffAfterFailures | internal/adapters/postgres/store.go:137-165 | after k stored failures in a row from zero attempts with no other writer, the order is not due again before that sum has passed |
| RefundCalls.ProceedsExactly | internal/adapters/postgres/store.go:221-246 | a reservation goes on to the provider if and only if its key had no row as it was made, whatever runs before its lookup; its insert fails exactly when its key has a row or another refund blocks it |
| RefundCalls.RowOwnersCallOnce | internal/app/service.go:151-172 | while reuse of keys does no harm, a key with a row has called the provider at most once in the whole run, and one without only if another key's row blocks it |
| RefundCalls.DistinctRequestsCallOnce | internal/app/service.go:160-162 | when different keys are sent with different request ids, every run calls the provider at most once per request id, with however many commands per key |
| RefundCounterexamples.OneCallPerRefundExactly | internal/app/service.go:160-162 | for any set of accepted refunds, all runs of them call at most once per request id if and only if different keys have different request ids |
| RefundCounterexamples.HarmlessExactly | internal/adapters/postgres/store.go:248-256 | for any set of accepted refunds, stored responses answer their rows' commands in all runs if and only if reuse does no harm, and exactly then keys with a row call once |
| Refunds.OwnersCallOnce | internal/adapters/postgres/migration.sql:57-63 | refund rows map injectively to request ids, each its refund id without dashes; calls counted for row owners number one |
| Refunds.ForeignCallsChangeNothing | internal/adapters/postgres/store.go:248-260 | in every run, completing or failing a call whose key owns no row changes nothing |
| Refunds.ResponsesReplay | internal/adapters/postgres/store.go:238-245 | a stored response is never changed; every later reservation with its key replays it to its command and conflicts for another fingerprint |
| Refunds.ResponsesAnswerTheirCommands | internal/app/service.go:168-169 | while reuse does no harm, a stored response says what its row's command asked for and agrees with the row's other columns |
| RefundCounterexamples.SecondKeyCallsAgain | internal/adapters/postgres/store.go:232-234 | for any two refunds with one request id under two keys, a run calls the provider twice with it |
| RefundCounterexamples.ReusedKeyHitsOtherRow | internal/adapters/postgres/store.go:251 | for any two refunds of one key and a third of another key with the first's request id, a run completes the second one's row with the first one's refund |
| Deliveries.DeliveryConserved | internal/adapters/publisher/publisher.go:44-78 | between items, accepted posts number the unstored publish marks plus one if published, refused posts the unstored failure marks plus the attempts; an unpublished event is due within five minutes |
| Deliveries.NeverResent | internal/adapters/publisher/publisher.go:44-78 | no step unpublishes an event, loses its row or posts it again |
| Deliveries.BackoffRespected | internal/adapters/postgres/store.go:216-219 | with all marks stored, an event refused k times is not posted again before 2^(k+1)-2 seconds since its first post up to k = 8, and 510+300(k-8) beyond |
| Deliveries.DelayBounds | internal/adapters/postgres/store.go:217 | the delays lie between 2 and 300 seconds and are the differences of those sums |
| Deliveries.MarksAreStatements | internal/adapters/postgres/store.go:212-219 | the publisher's marks are the store's statements |
| Deliveries.OthersOnlyEmit | internal/adapters/postgres/store.go:168-189 | every other statement of the protocol at most adds one unpublished row |
| Publishers.Publisher.Flush | internal/adapters/publisher/publisher.go:44-78 | a flush marks exactly the rows of its page, each as its post was answered: published now, or one more attempt, the error and the backoff; no other row or table |
| Publishers.Publisher.Mark | internal/adapters/publisher/publisher.go:70-75 | one post's mark, or none when it is not stored |
| Publishers.FlushRefinesSteps | internal/adapters/publisher/publisher.go:44-78 | an uninterrupted flush is a run of the delivery steps |
| Pools.WorkedOnceInOrder | internal/app/reconciler.go:109-135 | in every schedule the started items are a prefix, each once, and at most min(concurrency, items) run at a time |
| Pools.ReturnsWhenDone | internal/app/reconciler.go:124-134 | the call returns only when all started work has ended, which without cancellation is all items |
| Pools.EveryScheduleEnds | internal/app/reconciler.go:109-135 | every schedule has at most two steps an item, one for each of min(concurrency, items) workers and two more |
| Pools.AllAtOnce | internal/app/reconciler.go:115-123 | in some schedule min(concurrency, items) items run at once |
| Pools.ProgressExactly | internal/app/reconciler.go:109-135 | before it returns, some step of the call is possible if and only if it is not stuck without workers |
| Pools.ReconcilerNeverStuck | internal/app/reconciler.go:17-20 | raised to at least one worker, no schedule gets stuck |
| Pools.NoWorkersStick | internal/app/reconciler.go:115 | with items and no cancellation a call is stuck from its start exactly when the concurrency is below one |
| Amounts.EqualIffSameCanonicalForm | internal/binancepay/webhook.go:95-102 | amounts are equal if and only if both parse and have the same canonical form |
| Amounts.PartialEquivalence | internal/binancepay/webhook.go:95-102 | equality is symmetric and transitive, and reflexive exactly on the inputs that parse |
| Amounts.ParsesAsWritten | internal/binancepay/webhook.go:95-102 | a text of blanks, a sign, digits and an optional point with digits parses to its own sign, whole and fraction digits |
| Amounts.ParsesExactly | internal/binancepay/webhook.go:95-102 | no other text parses |
| Amounts.SpelledEqualExactly | internal/binancepay/webhook.go:95-102 | amounts are equal exactly when they differ in blanks, a plus sign, leading zeros, trailing zeros of the fraction and the sign of zero only |
| Amounts.WholePartsTell | internal/binancepay/webhook.go:95-102 | a trailing zero changes nothing, and amounts with whole parts of different value are not equal |
| EventIds.FormatUuid | internal/app/reconciler.go:101-107 | overwriting the version and variant bits in place gives the specified text |
| EventIds.UuidLayout | internal/app/reconciler.go:101-107 | every poll id has the layout of RFC 9562 sections 4.1 and 4.2: version 4, variant 10xx |
| EventIds.PollIdDigits | internal/app/reconciler.go:97-107 | every digit of a poll id is the hexadecimal digit of its place in the digest of poll:connection:payment:STATUS, but for the version digit and the variant bits |
| EventIds.PollIdsExactly | internal/app/reconciler.go:97 | poll ids of final statuses coincide exactly for one connection-and-payment text and folded status, or on a hash collision of the seeds |
| EventIds.PlacesDifferExactly | internal/app/reconciler.go:97 | a configuration's payments have different such texts if and only if no connection id, with a colon, begins another |
| EventIds.ConnectionsConfusedExactly | internal/app/reconciler.go:97 | two connections can share such a text if and only if one of them, with a colon, begins the other |
| EventIds.PollIdInjective | internal/app/reconciler.go:97 | among such connections, poll ids coincide exactly for one payment and folded status or on a hash collision |
| EventIds.PollSeedsExactly | internal/app/reconciler.go:97 | the hashed texts of final statuses coincide exactly for one connection-and-payment text and folded status |
| EventIds.HookIdsAreNotPollIds | internal/app/webhook.go:40 | no webhook id is a poll id |
| EventIds.HookIdInjective | internal/app/webhook.go:40 | webhook ids coincide exactly for one payment id and folded status |
| EventIds.OverlapsConfuse | internal/app/reconciler.go:97 | of any two connections of which one, with a colon, begins the other, two payments share every poll id, whatever the hash |
| Statuses.StatusTable | internal/app/service.go:224-239 | which raw status, in any letter case, means which status; the final ones are PAY_SUCCESS, PAY_CLOSED and PAY_FAIL |
| Statuses.RefundStatusTable | internal/app/service.go:196-205 | which raw refund status means confirmed and which failed; none means processing |
| Statuses.EventTypes | internal/app/reconciler.go:98 | the event type of each status, spelled out |
| Statuses.FitsKeepsFinality | internal/app/service.go:224-239 | a status that fits a raw status is final exactly when the raw status is |
| Statuses.SettleFits | internal/app/webhook.go:32-35 | the expiry rule of webhooks and reconciliations yields a status that fits, and expired exactly for a closed order at or after its expiry |
| Statuses.StatusTextInjective | internal/app/reconciler.go:98 | an event type names one status |
| Text.FoldsAgree | internal/app/webhook.go:36-40 | lower-casing, upper-casing and EqualFold identify the same ASCII strings |
| Text.FoldsExactly | internal/app/webhook.go:26-36 | two ASCII texts fold together exactly when they differ in the case of letters only |
| Text.CasesChanged | internal/app/webhook.go:40 | upper-casing leaves no small letter, lower-casing no capital, and both change the case of letters only |
| Text.RemoveDashesKeepsTheRest | internal/app/service.go:55 | a reference has no dash and every other character of the transaction id as often |
| Text.RemoveDashesCuts | internal/app/service.go:55 | the characters that stay keep their order: at any character, the text loses it exactly when it is a dash |

## Left out

- HTTP server, routing, authentication and error mapping: the entry points appear as calls and steps with arbitrary inputs.
- Binance client, request signing, webhook signature verification and key handling: provider calls are steps with arbitrary replies.
- JSON encoding and webhook parsing: documents are the records of `Model.dfy`; encoding a payment drops amount and currency, and decoding restores the rest.
- An unreadable or failing database: an error without effect is a crash of the caller or a failed step; a statement that takes effect and then reports an error is a step of its own for event recording; elsewhere the caller ignores the report or ends, so the step alone covers it.
- `PollObserve` failures: the reconciler only counts them, so such a process ends, which is the crash step.
- Completion links, QR codes, goods details and return URLs: one opaque text per order, since nothing is decided on them.
- Raw provider payloads: an inbox row keeps the reported amount only, since no statement reads the rest.
- Services.Service.CreateRefund: the database clock is read once a call; the same holds of the other calls of the class.
- GetRefund, FindRefund and Stats: they read only.
- The reconciler's batch as one call: claims and reconciliations are interleaved steps of `Protocol.dfy`, the pool that runs them is `ParallelEach.dfy`.
- Panics of the work function in the pool, and a work call that never returns.
- Tickers of the reconciler and the publisher: a batch or flush may start at any time.
- More than one publisher: conservation and backoff are stated for one, as the program starts one.
- Amounts.EqualIffSameCanonicalForm: `big.Rat` also reads fractions, exponents, base prefixes and digit separators; amounts here are decimal strings with an optional sign and point, and other inputs do not parse.
- Amounts.ParsesExactly: for the same reason, texts in those other notations count as not parsing.
- Unicode: case folding, trimming and truncation are those of ASCII text.
- Refund totals against the payment's amount: the program keeps no such sum.
- Metrics, tracing, request ids, configuration and process startup.
