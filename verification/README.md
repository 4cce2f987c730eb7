# A verified model of the payment pipeline

This project models, in Dafny 4.11, the parts of the payment service where correctness depends on
several components acting together, and proves what they promise.

* **The durable event pipeline.** Webhook inbox, transactional outbox, relays with leases, the
  broker with its retry tiers and dead-letter queue, consumers and operator replay. `Pipeline` is a
  step system over which any number of events, relays and deliveries interleave, with crashes,
  redeliveries and lease expiry; `PipelineTheorems` states what holds over every run. `Store`,
  `Relay`, `Publisher` and `Consumer` are the methods that update the tables and the broker in
  place, each proved against a function and, beside it, in plain statuses and numbers; `StoreRuns`,
  `Consumer.HandleIsRun`, `Publisher.PublishIsRun` and `RelayRuns.CycleIsRun` turn them into steps and
  runs of the step system. `PipelineProgress` shows that no event gets stuck.
* **The payment aggregate.** Orders, payments and attempts, moved by checkouts and by consumer
  transactions. `Transition` is the matrix, `Ledger` the rows, the unique indexes and the guarded
  statements, `LedgerSteps` the interleaving of single statements under row locks, `LedgerTheorems`
  what holds over every run, and `LedgerVerdicts` and `LedgerFinality` when the verdict on an event
  can still change. `LedgerStore` and `Checkout` are the repository methods and the checkout use case,
  in place; `LedgerRefinement.ProcessIsRun` and `CheckoutRuns.CheckoutIsRun` turn a processing
  transaction and a checkout request into runs, and `LedgerProgress` shows that no pending order gets
  stuck. `LedgerWitnesses` and `PipelineWitnesses` hold runs
  that show what the code does *not* guarantee.
* **The rate limiter.** `Bucket` is the token bucket of one caller, `Limiter` the bounded LRU/TTL
  structure (a list and a map over shared entries) together with its specification on values.
  `LimiterTheorems`, `LimiterComparison` and `LimiterTransparency` compare it with an unbounded map
  that never forgets, `AnyClock` and `LateCalls` do so for times that arrive out of order, and
  `LimiterRefusals` says which limiters never refuse what that map admits. `LimiterRate` gives the rate
  of the whole limiter in terms of its policy alone. `Forgetting` says what it
  means to lose one bucket, and `Clocks` what it means to read the clock before taking the lock.

Three devices are used throughout. Credit of a bucket is counted in nanoseconds of refill
(`tokens * tokenInterval`), which stays a whole number because buckets start full and clocks
advance by whole nanoseconds. History that no table stores (which grant was confirmed, how often an
event was applied) is kept in `Log` records that no step reads. And a delivery counts as a live copy
of its event while nobody decided it done or dead and no confirmed copy of it exists.

Row locks, unique indexes, atomic commits, durable queues, publisher confirms, mandatory returns and
requeueing on channel close are the environment's rules, as is the AMQP client closing the return
channel together with its channel. The row locks of the aggregate query are
taken in the order attempt, payment, order. A settlement statement is executed before the method
returns, or never.

## What the code does not promise

* `processed` is not absorbing: the failure statement has no status guard
  (internal/adapters/postgres/queries/consumer.sql.go:203-215), although the comment on marking an
  event processed suggests a closed event (lines 192-194). `PipelineTheorems.ProcessedSurvivesIff`
  names the one step that takes the flag away, and `PipelineWitnesses.ProcessedBecomesFailed` is a run
  under every configuration in which it does, with transient failures alone. Exactly-once is
  therefore proved from the matrix; what the flag does promise is `LedgerVerdicts.ProcessedIsSpent`.
* A no-op does not stay a no-op unconditionally. An event that names a session can be applied before
  its attempt has one; if the attempt is then given another session, the event, delivered again with
  its flag gone, is a reference mismatch and ends in the dead-letter queue
  (`LedgerWitnesses.AppliedEventIsRefused`). `LedgerVerdicts.FinalUnlessForeign` is the exact
  condition over runs, `LedgerVerdicts.FinalKeptIff` the exact step, and
  `LedgerFinality.FinalIff` the check that can be made beforehand: the event names no session, or the
  attempt already has one, or it was closed without one, or no checkout can reach it any more.
  Conflicts behave in the same way.
* Without a retry tier a transient failure is copied to the dead-letter queue while its inbox row
  stays pending. `PipelineTheorems.NoLossIffTier`: no event is lost in any run if and only if a tier
  is configured, which internal/platform/config/config.go:233 enforces.
* A checkout reads its active payment without a lock, so it can open an attempt under a payment that
  has just failed (`LedgerWitnesses.OpenAttemptUnderFailedPayment`). `LedgerTheorems.FailedClosedKeptIff`
  says exactly which step does it, and `LedgerTheorems.OrphanedSuccessIsConflict` what it costs.
* A reference mismatch is terminal (internal/application/consumer/service.go:408-419) although rows
  can still appear later. `LedgerVerdicts.EarlyIffUnstored`: an event that ever belongs to its
  rows is refused before that exactly while its attempt is not stored, and
  `LedgerWitnesses.EarlyEventIsRefused` is a run in which it happens. Only an event that guesses identifiers can do that: the provider is
  asked after the rows were committed (internal/application/payments/service.go:173-197), so no
  genuine event is early (`LedgerVerdicts.GenuineEventIsNeverEarly`). db/README.md:146-152, which
  explains why the correlation is not a foreign key, counts on such events being kept.
* The limiter's comment claims that eviction never denies a caller that should have been allowed
  (internal/platform/ratelimit/limiter.go:22-26). Request by request that is true of a configuration if
  and only if a token takes one nanosecond or the TTL is one nanosecond
  (`LimiterRefusals.NeverRefusesIff`; `LimiterRefusals.SomethingIsRefused` builds the refusal for every
  other one), and of a single lost bucket exactly when it was full or a token takes one nanosecond
  (`Forgetting.DropDeniesNobodyIff`). It is true cumulatively (`AnyClock.NeverBehindReference`).
* A TTL of at least the interval (internal/platform/config/config.go:370-381) does not keep idle expiry
  from handing out a fresh burst when times arrive out of order. When they can lag by `d`, expiry is
  unobservable exactly for a TTL that is off or at least the refill time plus `d`, and with a single slot
  at least the refill time and half of that sum (`LateCalls.UnseenIff`; `LateCalls.ImpatientIsSeen`
  builds the request that notices).
* The loop that drains the returns (internal/adapters/rabbitmq/publisher.go:203-211) ends only on a
  channel that is open: the AMQP client closes the return channel together with its channel, and a
  closed channel is always ready to receive. A channel that closes after the check at line 84 and
  before the drain leaves the publisher in that loop (`Publisher.DrainEndsIff`), and
  `Publisher.Publisher.Publish` says exactly when a call does not return.
* `Allow` reads the clock before it takes the lock, so times can arrive out of order, and then the
  window bound fails for every policy, by any number of requests, as soon as the clock can go back by
  one nanosecond (`Clocks.BackwardClockExceedsWindow`); times that never go back are the exact condition
  (`Clocks.WindowHoldsIff`). Refused calls are not free either when they arrive out of order, and only
  then (`Clocks.RefusedIsFreeIff`). `Bucket.AdmittedWithinForward` is the bound that holds for every
  clock, and the comparison with the unbounded limiter needs no order at all
  (`AnyClock.NeverBehindReference`).
* Refunds would break the stability of conflicts (`Transition.RefundBreaksConflict`); nothing in
  the repository produces them, and the model has no step that does.

## Model

| member | source | states |
|---|---|---|
| Transition.DecideMoves | internal/domain/payments/transition.go:111-247 | no event moves a payment or an attempt out of a settled state, back to its first state, or to success under a settled payment |
| Transition.DecideAnswers | internal/domain/payments/transition.go:111-247 | in plain statuses: an event applies exactly while the payment is pending or processing and the attempt open or already where it leads, and then reaches exactly that state; it conflicts exactly when money comes that nobody expects; otherwise it is ignored |
| Transition.VerdictStable | internal/application/consumer/service.go:408-419 | a no-op stays a no-op and a conflict stays a conflict under every later evolution of payment and attempt, which makes a state conflict terminal |
| Transition.AppliedThenNoOp | internal/domain/payments/transition.go:129-247 | an outcome that was applied is at once a no-op if it is delivered again |
| Transition.RefundBreaksConflict | internal/domain/payments/transition.go:129-153 | for every attempt, a success under a succeeded payment is a conflict exactly when this attempt is not the one that succeeded, and after a refund it is a no-op, so conflict stability needs the absence of refunds |
| Transition.FoldIsClosedForm | internal/domain/payments/transition.go:99-247 | folding the matrix over any sequence of outcomes equals a function of the first closing outcome and of whether a pending one came before it |
| Transition.ConflictsCharacterised | internal/domain/payments/transition.go:129-174 | in any order of delivery the conflicts are exactly the successes after a failed or expired first closer, and unknown outcomes |
| Orders.OverflowRejectedExactly | internal/domain/orders/order.go:96-127 | an order is refused for overflow exactly when unit price times quantity exceeds int64, and otherwise costs exactly that product |
| Orders.PricedIff | internal/domain/orders/order.go:96-127 | an order is taken exactly for a positive price, a quantity from 1 to 1000 and a product within int64 |
| Orders.ProviderTotalIsExact | internal/application/payments/service.go:193-197 | the division by quantity loses nothing: unit amount times quantity asked from the provider is the order's amount |
| LedgerTheorems.ApprovedWritesAlwaysMatch | internal/adapters/postgres/repositories/events.go:189-240 | in every run, from its decision to its commit a consumer's snapshot equals the stored rows and all its guarded writes find their row: the invariant-violated error is unreachable |
| LedgerTheorems.NoGuardEverMissed | internal/adapters/postgres/queries/consumer.sql.go:245-273 | no guarded update executed anywhere in any run has ever matched zero rows |
| LedgerTheorems.PaidIffPaymentSucceeded | db/README.md:235-236 | in every reachable state an order is paid if and only if one of its payments succeeded |
| LedgerTheorems.OneSuccessPerOrder | db/README.md:172-178 | beside a succeeded payment an order has no other payment that succeeded or can still succeed |
| LedgerTheorems.SucceededPaymentIsClosed | db/README.md:187-192 | a succeeded payment has exactly one succeeded attempt and none that is created or pending |
| LedgerTheorems.RepairBranchesUnreachable | internal/domain/payments/transition.go:154-161 | the branches that repair a half-applied aggregate are never taken in a reachable state |
| LedgerTheorems.StepEvolves | internal/adapters/postgres/queries/consumer.sql.go:245-273 | every step of every checkout or consumer only adds rows and moves statuses forward, with identities and amounts untouched |
| LedgerTheorems.VerdictIsFinal | internal/application/consumer/service.go:408-419 | over any continuation of a run a no-op or an error never becomes a write, and an error stays an error; the one change left, to a reference mismatch through a session attached in between, can also turn a no-op into that error |
| LedgerTheorems.AppliedAtMostOnce | internal/application/consumer/service.go:316-354 | whatever happens to its processed flag, an event is applied at most once in any run; from then on the matrix has nothing left to do for it, and its verdict is never a write |
| LedgerTheorems.RedeliveryIsNoOp | internal/adapters/postgres/repositories/events.go:44-98 | a transaction that commits an already applied event changes no row, after any interleaving of other events |
| LedgerTheorems.RankNeverFalls | internal/domain/payments/transition.go:129-247 | every step keeps or raises the combined rank of attempt, payment and order, and a commit that writes raises it |
| LedgerTheorems.AbsorbedIsBounded | internal/adapters/postgres/repositories/payments.go:134-163 | a payment with n attempts absorbs at most n + 1 applied events in any run |
| LedgerTheorems.PaidForExactAmount | internal/application/consumer/service.go:322-328 | the event that paid an order reported success for exactly the order's amount and currency, which is what the provider was asked for |
| LedgerTheorems.FailedClosedKeptIff | internal/adapters/postgres/repositories/payments.go:48-93 | a step leaves an open attempt under a failed payment exactly when it inserts one under a payment that failed after the checkout read it |
| LedgerTheorems.OrphanedSuccessIsConflict | internal/domain/payments/transition.go:129-153 | a matching success for an attempt under a failed payment is a conflict, now and in every continuation |
| LedgerWitnesses.OpenAttemptUnderFailedPayment | internal/adapters/postgres/repositories/payments.go:71-93 | a concrete run of statements that ends with an open attempt under a failed payment |
| LedgerWitnesses.EarlyEventIsRefused | internal/application/consumer/service.go:408-419 | while a checkout transaction has not committed, an event that names its rows is refused as a mismatch, and the same event is approved after the commit |
| LedgerWitnesses.AppliedEventIsRefused | internal/application/consumer/service.go:329-340 | a run in which an event that was applied, and was a no-op, becomes a terminal mismatch through a session attached afterwards |
| LedgerVerdicts.FinalUnlessForeign | internal/application/consumer/service.go:316-354 | over any continuation of any run a no-op stays a no-op, and a conflict a conflict, exactly as long as the attempt was not given a session other than the one the event names; otherwise both are reference mismatches |
| LedgerVerdicts.FinalKeptIff | internal/adapters/postgres/repositories/payments.go:134-163 | exactly one step takes a no-op or a conflict away: saving another session on the attempt of the event |
| LedgerFinality.FinalIff | internal/application/payments/service.go:144-215 | in every reachable state, a no-op or conflict is final over all continuations if and only if the event names no session, or its attempt has one, or is no longer in the created state, or no request can still reach it: its order is no longer pending and no checkout in flight has its key |
| LedgerVerdicts.FinalWhenSessionKnown | internal/application/consumer/service.go:329-340 | a no-op or conflict of an event without a session, or of an attempt that already has one, is the same in every continuation |
| LedgerVerdicts.EarlyIffUnstored | internal/application/consumer/service.go:408-419 | an event that belongs to its rows at some point belonged to none earlier if and only if its attempt was not stored then |
| LedgerVerdicts.GenuineEventIsNeverEarly | internal/application/payments/service.go:173-197 | from the moment a checkout may ask the provider, an event about its attempt belongs to stored rows, in every continuation |
| LedgerVerdicts.ProcessedIsSpent | internal/adapters/postgres/queries/consumer.sql.go:179-185 | in every reachable state an event marked processed is one whose effect its aggregate has absorbed |
| LedgerVerdicts.MismatchIsFinal | internal/application/consumer/service.go:408-419 | once the attempt is stored, a correlation that failed fails in every continuation |
| LedgerRuns.InvHolds | db/README.md:158-192 | the invariant behind the theorems, unique indexes, agreement of the three levels, exclusive row locks and truthful history, holds in every reachable state |
| LedgerRuns.BudgetGrows | internal/domain/payments/transition.go:129-247 | every applied effect closes an attempt of its payment or starts its processing |
| LedgerStore.Tables.CreateOrGetActivePayment | internal/adapters/postgres/repositories/payments.go:95-111 | inserts the payment exactly when the order has none that is neither failed nor cancelled, and otherwise reads that one back unchanged |
| LedgerStore.Tables.FindAttemptByKey | internal/adapters/postgres/repositories/payments.go:121-130 | finds an attempt with the key if and only if there is one |
| LedgerStore.Tables.PrepareRows | internal/adapters/postgres/repositories/payments.go:48-93 | every answer with the rows it leaves: the attempt of the key, a key of another order, a live attempt of another key, or a new attempt under the one active or a new payment |
| LedgerStore.Tables.PrepareCheckout | internal/adapters/postgres/repositories/payments.go:27-46 | each answer exactly in its case (reused iff the key serves the order, conflict iff it serves another, in progress iff the key is new and the active payment has a live attempt); keeps the ledger invariant and, as one transaction, never opens an attempt under a failed payment |
| LedgerStore.AnswersAreSound | internal/adapters/postgres/repositories/payments.go:48-93 | none of these answers breaks an index or the agreement of the three levels, or opens an attempt under a failed payment |
| LedgerStore.Tables.SaveSession | internal/adapters/postgres/repositories/payments.go:134-163 | attaches a session, which makes the attempt pending, exactly to an attempt still created whose session nobody else has, and accepts only the same session again |
| LedgerStore.Tables.ApplyWrites | internal/adapters/postgres/repositories/events.go:189-240 | performs the guarded updates in order, stops at the first that misses with the rows as they are by then, and reports whether anything was applied |
| LedgerStore.Tables.Process | internal/adapters/postgres/repositories/events.go:44-98 | one transaction, each answer exactly in its case and with exactly its rows: unknown event, closed event, terminal error, missed guard with complete rollback, or writes together with the closed inbox row |
| LedgerStore.EachAnswer | internal/adapters/postgres/repositories/events.go:44-98 | each answer exactly in its case, in terms of the inbox row, the three rows and the event: already processed, unknown, unreadable, mismatched in reference, amount or session, in conflict, not pending to be paid, or done, with or without a write |
| LedgerStore.EachEnd | internal/adapters/postgres/repositories/events.go:189-240 | the rows afterwards: attempt, payment and order where the event takes them together with the closed inbox row, or all as they were |
| LedgerStore.ProcessIsSound | internal/adapters/postgres/repositories/events.go:44-98 | on a consistent ledger a transaction never misses a guard, keeps the ledger consistent, applies exactly the approved writes and leaves the event nothing to write; on any error nothing changed |
| LedgerStore.ProcessTwice | internal/application/consumer/service.go:316-354 | processing an event again changes no row whether or not its processed flag survived |
| LedgerRefinement.ProcessIsRun | internal/adapters/postgres/repositories/events.go:44-98 | from any reachable state in which nobody holds its rows, the transaction is a run of ledger steps with the same tables and the same processed flag |
| Checkout.Service.CreateCheckout | internal/application/payments/service.go:144-215 | every answer exactly in its case: unknown order, order not pending, key of another order, live attempt of another key; any other request is answered from the persisted session of its key if there is one and asks the provider otherwise, for exactly the amount of the attempt's own payment; the session the provider opened is handed out exactly when the attempt can take it or has it already, and is then stored; a known key never opens a second payment or attempt, and no row but the opened ones and the attempt asked for changes |
| Checkout.Service.AskProvider | internal/application/payments/service.go:191-214 | asks once for the attempt; the session opened is attached and handed out exactly when the attempt is created and nobody else has it, or already carries it, and any other reply leaves every row as it was |
| Checkout.OutcomeAccepts | internal/application/payments/service.go:191-214 | once the provider is asked, the request succeeds if and only if the provider opened a session that was nobody's for a created attempt, or the attempt's own |
| Checkout.OutcomeTouches | internal/adapters/postgres/repositories/payments.go:48-93 | no request changes an order, an existing payment, or an attempt other than the one it asked the provider for |
| Checkout.OutcomeRows | internal/application/payments/service.go:160-214 | the row of the attempt the provider is asked for, and of a new payment: created without a session, pending with the session once that is handed out, or as it was |
| Checkout.OutcomeKeepsDb | internal/adapters/postgres/repositories/payments.go:48-93 | every request keeps the unique indexes and the agreement of the three levels, and only moves statuses forward |
| CheckoutRuns.CheckoutIsRun | internal/application/payments/service.go:144-215 | from any reachable state, whatever the provider answers, a request is a run of ledger steps with the same rows and every consumer and other checkout where it was, so the theorems over runs hold of it |
| LedgerProgress.ExpiryFreesOrder | db/migrations/00002_payments.sql:108-114 | in every run, when an expiry is applied the order is pending and nothing of it is created, pending or succeeded any more |
| LedgerProgress.NewKeyOpens | internal/adapters/postgres/repositories/payments.go:71-93 | then, and in every reachable state in which nothing of a pending order is under way, a checkout with a new key opens a new attempt that can pay the order |
| LedgerProgress.PendingOrderCanBePaid | internal/application/payments/service.go:144-215 | in every reachable state a pending order has an attempt, or gets one from the next checkout, for which a reported success over the order's amount pays it |
| Checkout.RequestCharges | internal/application/payments/service.go:193-197 | on a consistent ledger the request for an attempt carries its own payment, key and currency, and a total that is the order's and the payment's amount |
| Checkout.OutcomePays | internal/application/payments/service.go:191-214 | the provider is asked for this order under this key and for the attempt's own amount, and a session handed out is stored under the key of the request |
| Checkout.Service.Respond | internal/application/payments/service.go:144-215 | rows and answer are those of the two transactions and the reply between them, which the lemmas above are about |
| PipelineTheorems.NoAcceptedEventIsLost | internal/adapters/rabbitmq/consumer.go:244-341 | in every reachable state of every run an event with a message is processed or failed, or its message is still to be published, or a live copy of it is in the broker |
| PipelineTheorems.AcceptedEventIsNeverLost | internal/adapters/postgres/repositories/webhooks.go:40-82 | from the step that accepts an event on, in every later state, both its rows exist and it is not lost |
| PipelineTheorems.NoTierLosesEvent | internal/adapters/rabbitmq/consumer.go:300-319 | with no retry tier there is a run that loses an event |
| PipelineTheorems.NoLossIffTier | internal/platform/config/config.go:230-247 | no event is lost in any run if and only if at least one retry tier is configured |
| PipelineTheorems.SettlementIsExclusive | internal/application/outbox/service.go:346-384 | in every run a settlement takes effect exactly while its grant is unexpired; then the grant is the row's latest and was never settled, and the row becomes published exactly after a confirm under that grant |
| PipelineTheorems.PublishedMeansConfirmed | internal/adapters/postgres/queries/outbox.sql.go:126-133 | a published row was confirmed by the broker under its latest grant |
| PipelineTheorems.OneHolder | internal/adapters/postgres/queries/outbox.sql.go:14-32 | no two unexpired grants of one row exist, within a relay or across relays |
| PipelineTheorems.ReplayNeverSteals | internal/adapters/postgres/queries/operations.sql.go:180-186 | a replay never resets a row while some relay holds an unexpired grant of it |
| PipelineTheorems.TimelySettlementSucceeds | internal/application/outbox/service.go:284-320 | a publish that returned inside the publication window and is settled within the reserve keeps its lease, whatever others did meanwhile |
| PipelineTheorems.RetriesAreBounded | internal/platform/config/config.go:230-247 | between two resets an event gets at most MaxAttempts - 1 retries, with delays that never decrease |
| PipelineProgress.EventCanStillBeProcessed | internal/adapters/postgres/queries/outbox.sql.go:58-62 | from every state of every run each accepted event is processed or still can be, by steps in which nothing arrives that was not published and an operator replays only what had failed |
| PipelineProgress.ClaimableIff | internal/adapters/postgres/queries/outbox.sql.go:14-32 | in every reachable state any relay that began a cycle can lease a row exactly when it is pending past its backoff or its lease has run out |
| StoreRuns.ArrivalIsStep | internal/adapters/postgres/repositories/webhooks.go:30-82 | an arrival is a step exactly when its provider event is new, with exactly the rows the repository inserts |
| StoreRuns.ClaimIsStep | internal/adapters/postgres/queries/outbox.sql.go:14-32 | every batch the repository may claim is a lease step with the same rows |
| StoreRuns.ReplayIsStep | internal/adapters/postgres/repositories/operations.go:42-90 | a replay is a step exactly for the statuses the repository accepts, with exactly the rows it leaves |
| PipelineTheorems.ProcessedSurvivesIff | internal/adapters/postgres/queries/consumer.sql.go:203-215 | of all steps of the pipeline exactly one takes the processed flag away, a failure recorded for that event that is terminal or spends the budget, and it leaves the row failed |
| PipelineWitnesses.ProcessedBecomesFailed | internal/adapters/postgres/queries/consumer.sql.go:203-215 | under every configuration a run of transient failures in which a processed event ends up failed |
| PipelineProofs.LiveRepublish | internal/adapters/rabbitmq/consumer.go:300-341 | a republication never loses the event: the copy exists before the original stops counting |
| PipelineProofs.SettleKeeps | internal/adapters/postgres/queries/outbox.sql.go:100-162 | a settlement keeps the pipeline invariant |
| PipelineProofs.ReplayKeeps | internal/adapters/postgres/repositories/operations.go:42-90 | an operator replay keeps the pipeline invariant |
| Publisher.Publisher.Publish | internal/adapters/rabbitmq/publisher.go:117-199 | each result exactly in its case: success exactly when the broker confirmed this very message and did not return it, no return of an earlier message is ever blamed on it, a channel whose confirms can no longer be matched is discarded and any other kept, and the call fails to return exactly when the channel closes between the check and the drain |
| Publisher.Publisher.DrainReturns | internal/adapters/rabbitmq/publisher.go:203-211 | clears every buffered return of an open channel |
| Publisher.DrainEndsIff | internal/adapters/rabbitmq/publisher.go:203-211 | receiving until nothing is ready comes to an end if and only if the return channel has not been closed |
| Publisher.PublishIsRun | internal/adapters/rabbitmq/publisher.go:117-199 | a publication is a run of pipeline steps in which the relay ends with a confirm exactly when the call succeeded, and stays where it is when the call never returns |
| Store.Database.StorePending | internal/adapters/postgres/repositories/webhooks.go:40-82 | stores inbox and outbox row together, exactly when the provider event is new |
| Store.Database.StoreIgnored | internal/adapters/postgres/repositories/webhooks.go:30-35 | stores an ignored event as skipped, exactly when it is new, and no message |
| Store.Database.Lease | internal/adapters/postgres/queries/outbox.sql.go:14-32 | claims the earliest rows that are pending past their backoff or whose lease ran out, none that somebody has locked, as many as fit the batch, and stamps exactly those |
| Store.Database.Settle | internal/adapters/postgres/repositories/outbox.go:80-139 | changes the row, to exactly the status, count and backoff of the outcome, exactly when the caller's lease is unexpired, and reports the rows affected |
| Inbox.FailuresClosedForm | internal/adapters/postgres/queries/consumer.sql.go:203-215 | after any series of failures: every one was counted, and an open row has failed exactly when one of them was terminal or the budget is spent, with its status left alone until then |
| Store.Database.Reprocess | internal/adapters/postgres/repositories/operations.go:42-90 | resets both rows, to exactly the values of a row that waits again, exactly for a failed event, or a pending one whose publication failed, whose message is not being published; otherwise nothing changes |
| Relay.Service.PublishOne | internal/application/outbox/service.go:322-384 | publishes within what is left of the window and settles the outcome, in the presence of arbitrary statements by others; under a lease that outlasts the window by the reserve the outcome and the row are exactly what the broker answered in time |
| Relay.Service.PublishBatch | internal/application/outbox/service.go:284-320 | the loop equals its specification and its counters are the counts of the outcomes |
| Relay.Service.Claim | internal/adapters/postgres/repositories/outbox.go:42-72 | leases the earliest due rows nobody has locked, as many as fit the batch, after whatever others did meanwhile, unless the claim outlives its own timeout or the window, and then takes nothing |
| Relay.Service.RunOnce | internal/application/outbox/service.go:284-320 | a whole cycle for every offset between the local and the database clock: it claims the earliest due rows, as many as fit the batch, and then ends with the table, outcomes and counters of the specification, which knows only the database clock |
| Relay.NoLeaseLost | internal/application/outbox/service.go:353-358 | for a batch of any size and any interference by others, no message of the loop ends lease-lost |
| Relay.CycleNeverLosesLease | internal/application/outbox/service.go:284-320 | from the claim on, no message of a cycle ends lease-lost when settlements run within the reserve |
| Relay.OutcomesAreExact | internal/application/outbox/service.go:346-384 | every outcome of a batch is published exactly after an acknowledgement within five seconds and the window, failed exactly after a permanent error within them, and retried otherwise, unless the lease was lost |
| Relay.TrialIsExact | internal/application/outbox/service.go:322-384 | one message under such a lease: the outcome is the broker's answer, and the row has one attempt more, no lock, the status of the outcome and a backoff when it is retried |
| Relay.LeaseLostIff | internal/application/outbox/service.go:386-400 | a settlement is lost exactly when the row is not leased to this relay any more by the time it is executed |
| Relay.CyclePublishesAll | internal/application/outbox/service.go:284-320 | when the broker acknowledges everything in time, nobody replays the rows and the delays fit the lease, the counters say that every leased message was published, and every row is |
| Relay.TallyCounts | internal/application/outbox/service.go:297-318 | each counter of a cycle is the number of its outcome |
| Relay.WholeBatchAttempted | internal/platform/config/config.go:209-218 | with the configured minimum lease, and delays that fit into what it leaves over, every message of the batch is attempted |
| RelayRuns.CycleIsRun | internal/application/outbox/service.go:284-384 | a loop over its leases that nobody interferes with is a run of pipeline steps, with the same tables and clock |
| Relay.OthersKeepHeld | internal/adapters/postgres/queries/outbox.sql.go:14-32 | no claim, settlement or replay by others touches a row before its lease expires |
| Consumer.Service.HandleDelivery | internal/adapters/rabbitmq/consumer.go:244-341 | one delivery: process, record, copy, and acknowledge only after the copy was confirmed; the session goes on exactly when the delivery was settled, and otherwise the delivery is still there to be given back |
| Consumer.HandleAnswers | internal/adapters/rabbitmq/consumer.go:244-341 | the session goes on exactly when the acknowledgement got through after the commit, or after the broker confirmed the copy of a recorded failure |
| Consumer.HandleKeeps | internal/adapters/rabbitmq/consumer.go:237-239 | the delivery is gone exactly when the session goes on; otherwise it is still unacknowledged for the same event, and nobody else's delivery is touched |
| Consumer.HandleRecords | internal/application/consumer/service.go:356-406 | the inbox row: closed by a commit, counted and failed exactly for a terminal cause or a spent budget by a recorded failure, otherwise as it was |
| Consumer.HandleCopies | internal/adapters/rabbitmq/consumer.go:290-341 | the copy of a recorded failure is in the tier of its count, the last tier beyond the ladder, while the row is open and there are tiers, and in the dead-letter queue otherwise |
| Consumer.RabbitMq.Republish | internal/adapters/rabbitmq/consumer.go:349-413 | copies to the tier or the dead-letter queue and succeeds exactly when the copy was confirmed |
| Consumer.DeadLetterIff | internal/adapters/rabbitmq/consumer.go:290-341 | with a retry tier, a rejected delivery is copied to the dead-letter queue if and only if its row has failed or there is none, and otherwise to the tier of its failure count |
| Consumer.RabbitMq.CloseSession | internal/adapters/rabbitmq/consumer.go:148-239 | ending a session gives back every unacknowledged delivery exactly once, and loses no live copy |
| Consumer.HandleIsRun | internal/adapters/rabbitmq/consumer.go:244-341 | handling a delivery is a run of pipeline steps, for every way it can end |
| Bucket.TakeKeepsOk | internal/platform/ratelimit/bucket.go:89-105 | credit stays between nothing and one burst |
| Bucket.RetryAfterIsExact | internal/platform/ratelimit/bucket.go:89-116 | whole seconds, as the delay-seconds form of section 10.2.3 of RFC 9110: after Retry-After a request is admitted, a second earlier it is refused unless Retry-After is one second |
| Bucket.NextCallIff | internal/platform/ratelimit/bucket.go:60-105 | in terms of the policy alone: after a burst the next request is admitted exactly when interval / burst has passed, and a refusal asks for exactly the missing time in whole seconds |
| Bucket.RefillRate | internal/platform/ratelimit/bucket.go:89-105 | after a burst and a pause, of any number of requests exactly as many are admitted as whole tokens of interval / burst fit the pause, a burst at most |
| Bucket.ValidIff | internal/platform/ratelimit/bucket.go:44-58 | a policy can be enforced exactly when burst is at least one and at most the interval in nanoseconds |
| Bucket.RefusedCallIsFree | internal/platform/ratelimit/bucket.go:89-105 | a refused call that is not out of order changes no later decision, Retry-After included |
| Bucket.OnlyAdmittedCallsMatter | internal/platform/ratelimit/bucket.go:89-105 | with non-decreasing times, inserting any number of refused calls changes no later decision |
| Bucket.AdmissionsArePaid | internal/platform/ratelimit/bucket.go:89-105 | every admission is paid for by credit or by time that went forward, for any clock |
| Bucket.AdmittedWithinForward | internal/platform/ratelimit/bucket.go:89-105 | the window bound for every clock: a burst plus what forward movement of the clock pays for |
| Bucket.WindowBound | internal/platform/ratelimit/bucket.go:89-105 | with non-decreasing times a window of length T admits at most burst + T / (interval / burst) |
| Clocks.RefusedIsFreeIff | internal/platform/ratelimit/bucket.go:89-105 | for every bucket a refused call changes no later decision if and only if its time is not before the last call |
| Clocks.BackwardClockExceedsWindow | internal/platform/ratelimit/limiter.go:91-95 | for every policy a clock that can go back by a nanosecond admits any number of requests more than the window bound |
| Clocks.WindowHoldsIff | internal/platform/ratelimit/limiter.go:91-95 | for every policy and every amount a clock may go back, the window bound holds for all buckets, windows and call sequences if and only if that amount is zero |
| Forgetting.DropIsUnseenIff | internal/platform/ratelimit/limiter.go:22-26 | dropping a bucket is unobservable, over all later calls, exactly when it is full by then |
| Forgetting.DropDeniesNobodyIff | internal/platform/ratelimit/limiter.go:22-26 | dropping a bucket never refuses a later call it would have admitted, exactly when it is full by then or a token takes one nanosecond |
| Limiter.New | internal/platform/ratelimit/limiter.go:63-85 | builds an empty limiter exactly for a policy that can be enforced, a positive capacity and a TTL that is not negative |
| Limiter.Bounded.Allow | internal/platform/ratelimit/limiter.go:91-114 | in place on list, map and entries: the slots in order of use and the decision are those of the specification, list and map keep holding the same entries, and a held key is admitted exactly when its credit and what passed since cover interval / burst |
| Limiter.Bounded.ExpireIdle | internal/platform/ratelimit/limiter.go:119-135 | the walk from the back removes what the specification removes, and an entry stays exactly when it or one less recently used is younger than the TTL |
| Limiter.Bounded.EvictIfFull | internal/platform/ratelimit/limiter.go:140-149 | makes room by dropping the least recently used entries only, no more than needed for one, from list and map together |
| Limiter.Entry.Take | internal/platform/ratelimit/bucket.go:89-105 | charging an entry in place is charging its bucket: admitted exactly when the credit and what passed since cover interval / burst |
| Limiter.ServeHeld | internal/platform/ratelimit/limiter.go:91-114 | a call of a key that is held: decision, Retry-After, new credit and the list afterwards, in terms of positions, times and the policy |
| Limiter.ServeUnheld | internal/platform/ratelimit/limiter.go:100-149 | a call of any other key: admitted with a full bucket, in front of the survivors that still fit |
| LimiterRate.KeyIsBucket | internal/platform/ratelimit/limiter.go:91-114 | a key that is new to the limiter and never dropped is served by one token bucket of its own, whatever the others do and in whatever order the times arrive |
| LimiterRate.AdmittedAgainIff | internal/platform/ratelimit/bucket.go:60-105 | such a caller, having spent its burst at one instant, is admitted again exactly when interval / burst has passed, and until then is told the missing time in whole seconds |
| LimiterRate.DroppedIff | internal/platform/ratelimit/limiter.go:116-149 | a call drops a bucket exactly when that and all behind it are idle for the TTL, or when a new key leaves no room for its position |
| Limiter.LinkedMeans | internal/platform/ratelimit/limiter.go:41-46 | the keys of the list are distinct and are the keys of the map, and the map leads to the entry in the list |
| Limiter.LinkedMove | internal/platform/ratelimit/limiter.go:110-111 | moving an entry to the front keeps list and map in step and every bucket as it was |
| LimiterTheorems.ServeKeepsInv | internal/platform/ratelimit/limiter.go:91-149 | a call not before the last one keeps distinct keys, at most capacity of them, ordered by last use, each with at most a burst of credit |
| LimiterTheorems.ExpiryIsExact | internal/platform/ratelimit/limiter.go:116-135 | on a list in order of use, stopping at the first young entry removes exactly the entries idle for at least the TTL |
| LimiterTheorems.ServeLookup | internal/platform/ratelimit/limiter.go:91-114 | a call charges its own key's bucket and leaves or drops every other, never alters it |
| AnyClock.ServeKeepsShape | internal/platform/ratelimit/limiter.go:91-149 | with times in any order every call keeps distinct keys, at most capacity of them, each with at most a burst of credit, and leaves its own in front with its time |
| Limiter.ExpireByIndex | internal/platform/ratelimit/limiter.go:116-135 | on any list, an entry survives expiry if and only if it or one less recently used is younger than the TTL |
| AnyClock.NeverBehindReference | internal/platform/ratelimit/limiter.go:22-26 | on every prefix of every request sequence, with times in any order, each key was admitted at least as often as by the unbounded limiter, and at most one burst more per dropped bucket |
| AnyClock.NeverDroppedNeverSeen | internal/platform/ratelimit/limiter.go:22-26 | a key whose bucket was never dropped gets the decisions of the reference, with times in any order |
| AnyClock.RefIsBucket | internal/platform/ratelimit/limiter.go:91-114 | with times in any order the unbounded limiter gives each key the decisions of one token bucket fed with that key's times |
| AnyClock.WindowOnAnyClock | internal/platform/ratelimit/limiter.go:91-149 | the window bound of the whole limiter with times in any order: a burst, what forward movement of the clock between the key's own calls pays for, and a burst more per drop |
| LateCalls.UnseenIff | internal/platform/config/config.go:370-381 | for every configuration and every amount by which times can lag: idle expiry is unobservable over all sequences that evict nobody if and only if the TTL is off or long enough, with the exact lengths for one slot and for more |
| LateCalls.SizedAndPatientIsExact | internal/platform/ratelimit/limiter.go:22-26 | with capacity for every caller and such a TTL, the bounded limiter is the unbounded one although times lag |
| LateCalls.ImpatientIsSeen | internal/platform/config/config.go:370-381 | for every shorter TTL and every lag, requests that evict nobody and get another decision than the reference's |
| LimiterComparison.BoundedAgainstReference | internal/platform/ratelimit/limiter.go:22-26 | with non-decreasing times only the drops of buckets that were not full by then count: at most one burst more per loss of spent credit |
| LimiterComparison.NothingLostNothingSeen | internal/platform/ratelimit/limiter.go:22-26 | with non-decreasing times, a key whose spent credit was never lost gets the reference's decisions, Retry-After included |
| LimiterComparison.CallKeepsBalance | internal/platform/ratelimit/limiter.go:91-149 | the potential behind it: a call not before the last one keeps admissions plus credit between the reference's and a burst per loss above, for every key |
| LimiterTransparency.IdleExpiryIsUnseenIff | internal/platform/config/config.go:370-381 | with non-decreasing times: for a configuration, idle expiry is unobservable over all sequences that evict nobody if and only if the TTL is off or at least the refill time |
| LimiterTransparency.IntervalIsPatient | internal/platform/config/config.go:370-381 | the TTL bound the configuration enforces implies that condition |
| LimiterTransparency.SizedAboveCallersIsExact | internal/platform/ratelimit/limiter.go:22-26 | with non-decreasing times, capacity for every caller it will see, and a TTL that is off or at least the refill time, the bounded limiter is the unbounded one |
| LimiterTransparency.ImpatientTtlIsSeen | internal/platform/config/config.go:370-381 | a shorter TTL is noticed by a caller that spends two bursts |
| LimiterTransparency.WindowBoundPerKey | internal/platform/ratelimit/limiter.go:91-149 | with non-decreasing times, from any state of a run, a window of length T admits of a key at most a burst plus T / tokenInterval, and a burst more per loss within the window |
| LimiterRefusals.NeverRefusesIff | internal/platform/ratelimit/limiter.go:22-26 | for every configuration: no request that the reference admits is ever refused, over all sequences with non-decreasing times, if and only if a token takes one nanosecond or the TTL is one nanosecond |
| LimiterRefusals.SomethingIsRefused | internal/platform/ratelimit/limiter.go:22-26 | for every other configuration, requests of which one is refused although the reference admits it |

## Left out

- HTTP transport, handlers, OpenAPI code, authentication and client addresses: no state of their own that the properties depend on.
- Stripe SDK, signature checks and JSON decoding: the interpretation of a stored event is a fixed function from events to references, amount and outcome; an unreadable message is an event without an inbox row.
- PostgreSQL, GORM, sqlc and AMQP internals: their rules are assumed as stated above.
- Logging, metrics, observers, health checks, samplers, test hooks, migrations and the sandbox tool, which also deletes rows.
- Refund steps: the statuses exist, nothing produces them.
- Identifiers are natural numbers, of which only equality is used; currencies and providers are compared by equality, not case-insensitively.
- 64-bit integers outside order pricing, saturation of durations, float rounding of credit, backoff jitter and error texts.
- Liveness: that every event can still be processed and every pending order still be paid is proved, and that retries are bounded, but not that a scheduler ever gets there.
- Database errors inside a transaction appear only as a rollback, and inside a relay cycle as a settlement that is not executed.
- Pipeline steps leave the outcome of processing open (commit, terminal or transient failure), so that the theorems cover every outcome of the aggregate transaction; the ledger's `Forget` step in turn allows any loss of the processed flag.
- The retry topology declaration and the names of exchanges and queues.
- `attachAttemptReferences` of consumer.sql.go, which nothing calls.
- LedgerStore.Tables.PrepareCheckout: one transaction without other statements in between; the interleaving, including the second key lookup after a lost race, is the subject of LedgerSteps.
- Limiter.Bounded.Allow: the linked list is a sequence of entries, so the cost of unlinking is not modelled; the mutex is, in that calls are served one after another.
- LimiterComparison.BoundedAgainstReference: takes non-decreasing times in lock order; for other clocks the count of losses is replaced by the count of drops in AnyClock.
- Publisher.Publisher.DrainReturns: modelled for an open channel; on a closed one the loop does not end, which `Publisher.DrainEndsIff` and the `Hangs` result state instead.
- Relay.Service.PublishOne: takes it that the publish call returns by its context's deadline, which a call caught in the drain of a closed channel does not.
- RelayRuns.CycleIsRun: without statements of others in between, which in the pipeline are steps of their own, and without copies that reach the broker although the call failed, which are the pipeline's `Arrive`.
- Bucket.OnlyAdmittedCallsMatter: takes non-decreasing times, because a single refused call that is out of order already matters.
