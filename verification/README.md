# Verification of the food-delivery back end

A Dafny model of the parts of the repository whose correctness spans several functions, services or interleavings, with
machine-checked proofs about it: the order saga across the order, inventory and payment services; the transactional
outbox, its relay and the de-duplicating consumer; the Redis lock; the driver assignment store; the consumer's retry and
dead-letter discipline; and the money arithmetic.

`dafny verify dfyconfig.toml` checks everything.

## How it is built

Code that changes state step by step is a class whose methods are proved equal to a function of the old state
(`OrderService`, `Placement.PlaceOrderHandler`, `SagaReaper.Reaper`, `Inventory.InventoryTables`, `InventoryConsumer.CommandConsumer`,
`Payment.PaymentTables`, `Payment.ChargeWorkflow`, `Outbox.OutboxTable`, `Outbox.KafkaProducer`, `Relay.OutboxRelay`,
`MessageProcessing.PartitionConsumer`, `WithLocks.DistributedLock`, `Assignment.RedisAssignmentStore`,
`Assignment.FakeAssignmentStore`, `RateLimiter.LocationRateLimiter`). The theorems are then about those functions over all
sequences of steps.

| files | what they model |
|---|---|
| `Orders`, `OrderService`, `SagaView`, `OrderSystem`, `OrderRuns`, `SagaReaper` | the order service: reply handlers, reaper, reset, placement, cancel and confirm; an open system that accepts any traffic |
| `Placement` | placing an order under an idempotency key |
| `Inventory`, `InventoryLaws`, `InventoryConsumer` | stock, reservations and the command consumer |
| `Payment` | charge workflow, reply activity, gateway |
| `SagaSystem`, `SagaOutcomes`, `SagaProgress`, `SagaReplies`, `SagaEnding`, `ExampleRuns` | the three services together over a network that repeats, delays and reorders |
| `Outbox`, `Streams`, `ExactlyOnce`, `OutboxRelay`, `RelayPrefix` | outbox table, producer, relay, broker, de-duplicating consumer |
| `MessageProcessing` | one message through retry, dead letter and commit |
| `LockFencing`, `WithLocks`, `LockRounds` | the lock command by command; one call that takes several locks; many such calls against each other |
| `Assignment` | the Lua scripts on one keyspace, the in-memory store, and the book both keep |
| `Pricing`, `PriceSolver`, `RateLimiter` | amounts, their inverse, and the rate bound |

Each transaction is one atomic step, and a throw in it leaves every table alone. The reaper's recovery is two steps, its
read and its transaction, with any steps of others in between. A run is any sequence of steps; "in every run" below means
after every such sequence.

## What the proofs found

- **Payment "sends exactly one reply" is false.** A charge command that reaches a completed workflow makes the gateway
  append another reply without de-duplication (temporal-workflow-gateway.adapter.ts:83-98). There is at most one reply
  exactly when no such command arrived (`Payment.AtMostOneReplyExactlyWhen`). All replies still agree unless a charge command
  starts a second workflow for an order already answered, after the first one's retention has ended
  (`Payment.RepliesRepeatTheOutcome`); and from any such restart a run leads to two replies that contradict each other
  (`Payment.RestartedWorkflowContradictsItself`, `SagaOutcomes.RestartBreaksAgreement`); such a restart does happen
  (`ExampleRuns.RestartHappens`).
- **A saga can end exactly when nothing blocks it.** From any world a saga can be brought to its end, with its one lifecycle
  event and its workflow retained, if and only if no user has ended its order, its charge has not failed unanswered, and its reserve request, if it
  still waits for that, is valid (`SagaEnding.SagaCanEndExactlyWhen`). The second condition does fail: the gateway answers only for
  a completed workflow (temporal-workflow-gateway.adapter.ts:78-81), so a charge that fails before its reply strands its saga in
  STOCK_RESERVED (`ExampleRuns.StuckHappens`), re-driving only uses up its budget (`SagaProgress.FailedChargeStrandsSaga`), and
  only the end of the failed workflow's retention frees it (`SagaEnding.ForgettingFreesSaga`).
- **A user's confirm or cancel strands the saga.** Both move the order without its saga (confirm-order.handler.ts,
  cancel-order.handler.ts). The order and its saga part exactly when such a command goes through
  (`OrderRuns.DivergedExactlyWhenUserEndedIt`); from then on replies that would move the order throw
  (`OrderRuns.ReplyThrowsExactlyWhen`), no lifecycle event is ever sent (`OrderRuns.OneLifecycleEvent`), and an order can be
  confirmed unpaid (`OrderRuns.UserConfirmsUnpaidOrder`).
- **A cancelled order can hold stock.** The stock effect comes before the de-duplication
  (inventory-command.consumer.ts:74-81), so a redelivered reserve command reserves again
  (`ExampleRuns.CancelledOrderHoldsStock`). A cancelled order holds nothing exactly when none of its reserve commands was
  granted since its last release (`SagaOutcomes.CancelledOrderHoldsNothingExactlyWhen`), and a user's cancel whose release
  call is lost leaves everything held (`SagaOutcomes.CancelLeavesStockToItsRelease`).
- **A message that can be neither handled nor dead-lettered is passed over** by the next commit on its partition
  (`MessageProcessing.AbandonedMessageIsPassed`); `MessageProcessing.CommittedMeansAccounted` says, with restarts and
  redeliveries, exactly when every offset below the committed one was handled or dead-lettered.
- **A row that commits late can be skipped.** Rows are fetched in order of creation (typeorm-order-outbox.adapter.ts:84-86), so
  the published rows are a prefix of the table exactly as long as no row lands before them or within the open batch
  (`RelayPrefix.TablePrefixExactlyWhen`), and a partition's log holds a prefix of its rows exactly as long as none of its own rows
  lands before what is logged or about to be (`RelayPrefix.LanePrefixExactlyWhen`).
- **The location limiter's bound survives one millisecond of a clock going back, not two**
  (`RateLimiter.ClockMayGoBackExactlyWhen`); `RateLimiter.SlidingBound` gives the exact bound for any drift.
- **A Redis error while several locks are being taken leaves the ones already taken** until they expire
  (redis-distributed-lock.ts:73-79; `WithLocks.NoHoldAndWait` states both cases).
- **Callbacks under a common key never overlap** while both calls' time on that key lasts (`LockRounds.CallbacksNeverOverlap`),
  unless another call's release has deleted one of the locks.
- **A fencing token kept too long frees another call's lock**, in three ways: a release after the counter's hour, a SET after
  it, or a counter that runs out between INCR and PEXPIRE (`LockFencing.LateReleaseFreesAnothersLock`,
  `LockFencing.LateSetLosesItsLock`, `LockFencing.LateExpiryFreesAnothersLock`). Otherwise a stale release is harmless
  (`LockFencing.StaleReleaseIsHarmless`).
- **A driver with an empty name** is assigned by the script and not found by the in-memory store. The two stores agree exactly
  when no claim of a run reaches such a driver (`Assignment.StoresAgreeExactlyWhen`).

README.md:60 of the repository says every step is kept exactly-once. What holds is: effects of outbox rows are applied once
and in order per topic and key (`ExactlyOnce.ExactlyOnceInOrder`), given handlers that de-duplicate before their effect; the
inventory consumer does not.

## Model

| member | source | states |
|---|---|---|
| OrderService.OrderService.HandleInventoryReply | apps/order/src/application/saga/handle-inventory-reply.handler.ts:42-111 | the imperative handler, dedupe and rollback included, computes the reaction table's step on all four tables, with every error case |
| OrderService.OrderService.ApplyInventoryReply | apps/order/src/application/saga/handle-inventory-reply.handler.ts:53-97 | inside the transaction: same tables, outcome and error as the reaction table |
| OrderService.OrderService.CancelBySaga | apps/order/src/application/saga/handle-inventory-reply.handler.ts:99-111 | order cancelled, saga cancelled and the cancellation announced with the order's total, or the error and nothing |
| OrderService.OrderService.HandlePaymentReply | apps/order/src/application/saga/handle-payment-reply.handler.ts:39-90 | as above for payment replies |
| OrderService.OrderService.ApplyPaymentReply | apps/order/src/application/saga/handle-payment-reply.handler.ts:50-90 | inside the transaction: same tables, outcome and error as the reaction table |
| OrderService.OrderService.UpdateStatus | apps/order/src/infrastructure/persistence/repositories/typeorm-order.repository.ts:53-77 | the status moves and the version counts up exactly if tenant and version read are still the stored ones |
| OrderService.OrderService.TransitionSaga | apps/order/src/infrastructure/persistence/repositories/typeorm-order-saga.repository.ts:56-88 | the saga's optimistic update: state, driving event, version |
| OrderService.OrderService.MarkProcessed | libs/shared/messaging/src/idempotent-consumer.ts:15-30 | an event id is accepted once |
| OrderService.OrderService.ReadStranded | apps/order/src/interface/messaging/saga-reaper.provider.ts:114-136 | the reaper's read and decision on the service's tables, which `OrderRuns.ReadDecidesExactlyWhen` states by state and budget |
| OrderService.OrderService.RecordAttemptAndAppend | apps/order/src/infrastructure/persistence/repositories/typeorm-order-saga.repository.ts:90-101 | the reaper's transaction: attempt counted and command appended exactly if the state is the one read |
| OrderService.OrderService.ResetReconcileAttempts | apps/order/src/infrastructure/persistence/repositories/typeorm-order-saga.repository.ts:103-124 | the operator's reset and its three answers |
| OrderService.OrderService.Place | apps/order/src/application/order/commands/place-order.handler.ts:126-137 | order, started saga and reserve command appear together, or the duplicate changes nothing |
| Placement.PlaceOrderHandler.ClaimAndPlace | apps/order/src/application/order/commands/place-order.handler.ts:118-150 | the transaction: key, order, saga and command together, or the winner of the key, or a conflict |
| Placement.PlaceOrderHandler.Execute | apps/order/src/application/order/commands/place-order.handler.ts:86-151 | with any other requests between lookup and transaction, the answer and the tables of a request handled in one step after them |
| Placement.OneOrderPerKey | apps/order/src/application/order/commands/place-order.handler.ts:167-183 | two successful requests, whatever lies between them, get the same order if and only if they have the same tenant, user and key |
| Placement.RepeatedRequestGetsItsOrder | apps/order/src/application/order/commands/place-order.handler.ts:89-96 | a repeated request, whatever came in between, succeeds with the first one's order and changes nothing |
| Placement.NewKeyPlacesExactlyWhen | apps/order/src/application/order/commands/place-order.handler.ts:118-150 | a new key is placed exactly if the order's id is free; all it writes, or nothing |
| OrderService.OrderService.CancelOrConfirm | apps/order/src/application/order/commands/confirm-order.handler.ts:18-26 | a user's move of the order alone, on the service's tables |
| OrderRuns.UserMovesExactlyWhen | apps/order/src/domain/order/order.ts:6-11 | a confirm goes through if and only if the order is there for its owner or an administrator and is RESERVED, a cancel if and only if it is PENDING or RESERVED; what it then changes, and which error is thrown otherwise |
| Sagas.TransitionsLowerRank | apps/order/src/domain/saga/order-saga.ts:5-11 | the transition table has no cycle, and its terminal states are those of rank zero |
| SagaView.ReactionsFit | apps/order/src/application/saga/handle-payment-reply.handler.ts:61-84 | every reaction is a legal saga transition and, on a coupled order, a legal order transition that keeps the coupling |
| SagaView.CoupledOrDiverged | apps/order/src/domain/order/order.ts:6-11 | coupled and diverged exclude each other; coupled orders are final exactly when their saga is terminal |
| SagaView.ReplyOutcome | apps/order/src/application/saga/handle-inventory-reply.handler.ts:59-96 | on an order that satisfies the invariant, which reply errs and what every other one does |
| SagaView.ReplyKeepsHealth | apps/order/src/application/saga/handle-inventory-reply.handler.ts:64-111 | a reply keeps the order's whole invariant |
| SagaView.CommitKeepsHealth | apps/order/src/interface/messaging/saga-reaper.provider.ts:138-147 | the reaper's transaction keeps it, whatever happened since its read |
| SagaView.MoveKeepsHealth | apps/order/src/application/order/commands/cancel-order.handler.ts:27-34 | a user's final move keeps it |
| SagaView.RedriveIsRight | apps/order/src/application/saga/saga-reconciler.ts:26-43 | a remembered decision is still the right command if the state is still the one read |
| OrderSystem.StepIsLocal | apps/order/src/infrastructure/persistence/repositories/typeorm-order-saga.repository.ts:56-88 | every step on the shared tables is the same step on one order's history and leaves all other orders alone |
| OrderSystem.RunIsHealthy | apps/order/src/application/saga/handle-inventory-reply.handler.ts:64-111 | in every run every order satisfies the invariant: coupling, lifecycle events, fitting messages, budget, open decision |
| OrderRuns.OrderAndSagaAgree | apps/order/src/domain/order/order.ts:6-11 | in every run order and saga are coupled unless a user ended the order under a running saga |
| OrderRuns.DivergedExactlyWhenUserEndedIt | apps/order/src/application/order/commands/confirm-order.handler.ts:18-26 | they part if and only if its owner or an administrator cancelled or confirmed that order while its status allowed it, and then for good |
| OrderRuns.ConfirmedOnlyAfterReservation | apps/order/src/domain/order/order.ts:6-11 | in every run an order is RESERVED or CONFIRMED only after its saga took in the reservation and asked for the payment |
| OrderRuns.VersionsCount | apps/order/src/infrastructure/persistence/repositories/typeorm-order.repository.ts:53-77 | in every run an order's version is that of its status, and a saga knows the event that last moved it exactly when it has moved |
| OrderRuns.ReplyReportsTheEnd | apps/order/src/application/saga/handle-payment-reply.handler.ts:39-90 | a reply reports a completed or cancelled order exactly when its saga has just become so |
| OrderRuns.ReplyThrowsExactlyWhen | apps/order/src/application/saga/handle-payment-reply.handler.ts:54-90 | a reply throws if and only if the saga is unknown to its tenant or the reply would move an order a user has ended; no other transition ever throws |
| OrderRuns.ThrowingReplyChangesNothing | apps/order/src/application/saga/handle-payment-reply.handler.ts:39-90 | on any tables, a reply to a missing or foreign order throws, and a throwing reply changes nothing and is not recorded |
| OrderRuns.OneLifecycleEvent | apps/order/src/application/saga/saga-commands.ts:64-99 | the outbox holds exactly one lifecycle event of an order if and only if its saga is over, of the right kind and with the total fixed at creation |
| OrderRuns.EveryRowFits | apps/order/src/application/saga/saga-commands.ts:18-99 | every row ever sent carries its order's terms; no charge before the reservation, no release before the declined payment |
| OrderRuns.HistoryGrows | apps/order/src/domain/saga/order-saga.ts:97-107 | between any two points of a run: terms kept, rows only added, one version per transition |
| OrderRuns.NoStateTwice | apps/order/src/testing/saga-reply-test-doubles.ts:95-99 | if a saga's state is the same at two points it made no transition in between, so comparing states is enough |
| OrderRuns.ThreeTransitionsAtMost | apps/order/src/domain/saga/order-saga.ts:5-11 | at most three transitions per saga, whatever is delivered |
| OrderRuns.RedriveIsSafe | apps/order/src/interface/messaging/saga-reaper.provider.ts:114-158 | a re-driven command is appended if and only if the state is still the one read, and is then right for the order as it is: a charge only in STOCK_RESERVED, a release only in COMPENSATING |
| OrderRuns.RedriveBudget | apps/order/src/application/saga/saga-reconciler.ts:20-22 | attempts never pass the maximum; re-drives over a lifetime are at most max × (1 + resets) |
| OrderRuns.ReadDecidesExactlyWhen | apps/order/src/application/saga/saga-reconciler.ts:20-43 | in every run an idle reaper's read of an order decides to re-drive it if and only if its saga is the tenant's, running and below the maximum of attempts, and with which command |
| OrderRuns.RecoveriesSendWhatIsLeft | apps/order/src/interface/messaging/saga-reaper.provider.ts:114-158 | after any run, n recoveries in a row append the command n times or as often as attempts are left, and count each |
| OrderRuns.ResetGivesBudgetBack | apps/order/src/infrastructure/persistence/repositories/typeorm-order-saga.repository.ts:103-124 | a reset sets the attempts of the tenant's running saga to zero, and of no other, with its three answers |
| OrderRuns.CommandWasSent | apps/order/src/application/saga/saga-commands.ts:18-60 | the command for the state a running saga is in is always in the outbox |
| OrderRuns.RedriveMakesProgress | apps/order/src/application/saga/saga-reconciler.ts:26-43 | every running saga has a command, and every answer in the table of answers is accepted and lowers the rank |
| SagaProgress.AnswersAreExact | apps/inventory/src/interface/messaging/inventory-command.consumer.ts:83-105 | that table is exact: it lists just the replies the stock handlers, on some shelf, and the charge workflow, in some run, can give to the command |
| SagaReplies.RepliesAnswerTheirCommands | apps/inventory/src/interface/messaging/inventory-command.consumer.ts:83-105 | in every world each inventory reply is an answer to its own command, for its order and tenant |
| SagaReplies.RecordedRepliesArePast | apps/order/src/application/saga/handle-inventory-reply.handler.ts:42-97 | in every world a reply whose event is recorded has taken its saga beyond the state that waited for it: none is recorded and lost |
| SagaReplies.OneCorrelationPerOrder | apps/order/src/application/saga/saga-commands.ts:18-99 | in every world all rows and replies of an order, from whichever service, carry the correlation id it was placed with |
| SagaProgress.StockCommandsAreAnswered | apps/inventory/src/interface/messaging/inventory-command.consumer.ts:74-105 | in every world a stock command is answered, whenever it arrives, if and only if its request is valid; it never conflicts |
| Payment.FailedStays | apps/payment/src/infrastructure/temporal/temporal-workflow-gateway.adapter.ts:78-81 | a failed workflow adds no reply, whatever arrives, while it is retained |
| Payment.AnswerableExactlyWhen | apps/payment/src/infrastructure/temporal/temporal-workflow-gateway.adapter.ts:63-98 | after any run, another reply to a charge can follow without the workflow being forgotten if and only if the workflow has not failed |
| SagaProgress.FailureSticks | apps/payment/src/workflows/charge-workflow.ts:23-46 | in every world with an unanswered charge still running, one failure leaves the saga stuck |
| ExampleRuns.StuckHappens | apps/payment/src/workflows/charge-workflow.ts:23-46 | a run from the start to a stuck saga |
| SagaProgress.FailedChargeStrandsSaga | apps/payment/src/infrastructure/temporal/temporal-workflow-gateway.adapter.ts:63-81 | whatever follows, re-drives and resets included, the stuck saga stays in STOCK_RESERVED and announces nothing while the failed workflow is retained |
| SagaEnding.LeavesStockReservedExactlyWhen | apps/payment/src/infrastructure/temporal/temporal-workflow-gateway.adapter.ts:63-98 | in every world, a saga that waits for its payment and whose order no user has ended can leave STOCK_RESERVED, the workflow retained, if and only if that has not failed without a reply |
| SagaEnding.SagaCanEnd | apps/order/src/application/saga/saga-reconciler.ts:26-43 | from every world in which nothing stands in its way, a run to the saga's end with exactly one lifecycle event |
| SagaEnding.SagaCanEndExactlyWhen | apps/order/src/application/saga/saga-reconciler.ts:26-43 | in every world such a run exists if and only if no user ended the order, the charge has not failed unanswered, and the request still waited for is valid |
| SagaEnding.ForgettingFreesSaga | apps/payment/src/infrastructure/temporal/temporal-workflow-gateway.adapter.ts:46-52 | the end of the failed workflow's retention unblocks a stuck saga |
| OrderRuns.UserConfirmsUnpaidOrder | apps/order/src/application/order/commands/confirm-order.handler.ts:18-26 | for any order, a run to its confirmation while its saga still waits for the payment and nothing is announced |
| SagaReaper.SelectStranded | apps/order/src/domain/saga/stranded-saga-sweep.ts:16-27 | exactly the candidates in STARTED, STOCK_RESERVED or COMPENSATING older than the threshold, in order |
| SagaReaper.Reaper.RecoverOne | apps/order/src/interface/messaging/saga-reaper.provider.ts:114-158 | one recovery, with any events of other handlers inside it, is a stretch of a run |
| SagaReaper.Reaper.Sweep | apps/order/src/interface/messaging/saga-reaper.provider.ts:77-112 | a sweep does nothing if the lock is taken; otherwise, after any run, it leaves the tables of that run continued, and the lock free |
| SagaReaper.SweepReadsEachOnce | apps/order/src/interface/messaging/saga-reaper.provider.ts:108-110 | a sweep reads every order of its worklist once, in order |
| Inventory.NormalizeItems | apps/inventory/src/application/reservation/commands/reserve-stock.handler.ts:42-58 | rejects empty requests and non-positive quantities, otherwise one line per item |
| Inventory.NormalizedAsksTheSame | apps/inventory/src/application/reservation/commands/reserve-stock.handler.ts:46-57 | the normalised request asks for the same quantity of every item |
| Inventory.NormalizedIsSorted | apps/inventory/src/application/reservation/commands/reserve-stock.handler.ts:55-57 | its items are strictly increasing |
| Inventory.InventoryTables.ReserveStock | apps/inventory/src/application/reservation/commands/reserve-stock.handler.ts:88-153 | the decrement loop with its rollback: replay, conflict, all lines or none |
| Inventory.InventoryTables.TakeAll | apps/inventory/src/application/reservation/commands/reserve-stock.handler.ts:126-150 | the loop over the lines takes every line, or leaves stock and reservations as they were because some line is short |
| Inventory.InventoryTables.DecrementIfAvailable | apps/inventory/src/infrastructure/persistence/repositories/typeorm-stock.repository.ts:29-41 | taken exactly if enough is there |
| Inventory.InventoryTables.ReleaseStock | apps/inventory/src/application/reservation/commands/release-stock.handler.ts:48-61 | every active reservation of the order is closed and its units go back |
| InventoryLaws.ReserveOutcome | apps/inventory/src/application/reservation/commands/reserve-stock.handler.ts:65-77 | granted if and only if the order already holds exactly this or everything is available; afterwards it holds exactly this; conflict if and only if it holds something else |
| InventoryLaws.AvailableMeansEveryTotal | apps/inventory/src/infrastructure/persistence/repositories/typeorm-stock.repository.ts:29-41 | "available" means: for every item named, the stock covers all its lines together |
| InventoryLaws.ReleaseUndoesReserve | apps/inventory/src/application/reservation/commands/release-stock.handler.ts:48-61 | after a reservation and its release the stock is what it was |
| InventoryLaws.UnitsAreConserved | apps/inventory/src/infrastructure/persistence/migrations/1753747200000-create-inventory-tables.ts:9-18 | in every run stock is never negative, and stock plus active reservations of an item is its initial stock |
| InventoryLaws.RunKeepsTables | apps/inventory/src/infrastructure/persistence/migrations/1753747300000-add-active-reservation-unique-index.ts:6-12 | in every run an order has at most one active reservation per item, of a positive quantity of a stocked item |
| InventoryLaws.NothingIsPromisedTwice | apps/inventory/src/application/reservation/commands/reserve-stock.handler.ts:126-150 | distinct orders together never hold more of an item than there was |
| InventoryLaws.ReservedAgainAfterRelease | apps/inventory/src/interface/messaging/inventory-command.consumer.ts:74-81 | the same reserve command, arriving again after the release, takes the units again |
| InventoryLaws.HoldsExactlyWhenGrantedSinceRelease | apps/inventory/src/interface/messaging/inventory-command.consumer.ts:74-81 | in every run of commands an order holds stock if and only if some reserve command of it was granted and no release of it came after |
| InventoryConsumer.CommandConsumer.HandleCommand | apps/inventory/src/interface/messaging/inventory-command.consumer.ts:74-105 | one delivery: the effect always, the reply once |
| InventoryConsumer.RecordingKeepsOneReplyEach | apps/inventory/src/interface/messaging/inventory-command.consumer.ts:76-80 | recorded commands and answered commands are the same, each answered once |
| Payment.ChargeWorkflow.Execute | apps/payment/src/workflows/charge-workflow.ts:23-46 | the last signal before the charge returned; else, for a pending charge, the last in the window; else the charge's own result |
| Payment.StepsReachOutcome | apps/payment/src/workflows/charge-workflow.ts:29-34 | the workflow taken step by step replies with just that |
| Payment.RepliesSayTheLastWord | apps/payment/src/workflows/charge-workflow.ts:24-43 | in every run, each reply sent for an order carries the result of the last signal that found its workflow charging or waiting, else what the charge returned; all that a step adds to the replies |
| Payment.WaitsExactlyWhen | apps/payment/src/workflows/charge-workflow.ts:29-34 | the workflow waits for the provider if and only if the charge is pending and no signal came |
| Payment.ClosedWorkflowsStay | apps/payment/src/infrastructure/temporal/temporal-workflow-gateway.adapter.ts:46-52 | a closed workflow stays until its retention ends, which only closed ones' does; a workflow completes only after its reply |
| Payment.PaymentTables.EmitReplyActivity | apps/payment/src/activities/emit-reply.activity.ts:26-41 | the reply is appended once per order id |
| Payment.PaymentTables.StartChargeWorkflow | apps/payment/src/infrastructure/temporal/temporal-workflow-gateway.adapter.ts:44-104 | a first command starts the workflow; one that finds it completed appends its result again; any other does nothing |
| Payment.ReplyCount | apps/payment/src/activities/emit-reply.activity.ts:31-37 | the number of replies of an order: one from the activity, one more per recovered command |
| Payment.AtMostOneReplyExactlyWhen | apps/payment/src/infrastructure/temporal/temporal-workflow-gateway.adapter.ts:83-98 | at most one reply if and only if no command was answered from a completed workflow |
| Payment.RepliesRepeatTheOutcome | apps/payment/src/infrastructure/temporal/temporal-workflow-gateway.adapter.ts:83-98 | all replies of an order repeat its outcome, unless a command starts a second workflow for an order already answered |
| Payment.RestartedWorkflowContradictsItself | apps/payment/src/infrastructure/temporal/temporal-workflow-gateway.adapter.ts:46-52 | after any run such a restart can go on so that the order is told both that it was paid and that it was not |
| SagaSystem.WorldIsLinked | apps/order/src/application/saga/handle-payment-reply.handler.ts:61-84 | in every run of the three services: no charge without reservation, no release without declined payment, no completion without payment, and a granted order holds its items until released |
| SagaOutcomes.PaymentAndOutcomeAgree | apps/order/src/application/saga/handle-payment-reply.handler.ts:50-90 | unless an answered order is charged anew: a payment means never compensated or cancelled, a declined one never completed; completed means paid, compensating means declined |
| SagaOutcomes.RestartBreaksAgreement | apps/payment/src/infrastructure/temporal/temporal-workflow-gateway.adapter.ts:46-52 | in any world where a charge row can restart an answered order, both replies can follow |
| ExampleRuns.RestartHappens | apps/payment/src/infrastructure/temporal/temporal-workflow-gateway.adapter.ts:46-52 | a run from the start to a world in which a charge row can restart an answered order |
| SagaOutcomes.CompletedOrdersHoldTheirItems | apps/inventory/src/application/reservation/commands/reserve-stock.handler.ts:111-153 | a completed order holds exactly its items |
| SagaOutcomes.CompletedOrdersNeverOversell | apps/inventory/src/application/reservation/commands/reserve-stock.handler.ts:126-150 | distinct completed orders never took more of an item than there was |
| SagaOutcomes.OneAnswerPerCommand | apps/inventory/src/interface/messaging/inventory-command.consumer.ts:76-80 | no inventory command is answered twice |
| SagaOutcomes.CancelledOrderHoldsNothingExactlyWhen | apps/inventory/src/interface/messaging/inventory-command.consumer.ts:74-81 | in every world a cancelled order holds nothing if and only if no reserve command of it was granted since its last release |
| SagaOutcomes.CancelLeavesStockToItsRelease | apps/order/src/application/order/commands/cancel-order.handler.ts:34-43 | a user's cancel leaves the order holding what it held; only its release call, if it is not lost, takes that away |
| SagaOutcomes.RedeliveryReservesForCancelledOrder | apps/inventory/src/interface/messaging/inventory-command.consumer.ts:74-81 | a redelivered reserve command takes stock for a cancelled order that holds none if and only if the request is valid and everything is available |
| ExampleRuns.CancelledOrderHoldsStock | apps/inventory/src/interface/messaging/inventory-command.consumer.ts:74-81 | a run from the start to a cancelled order that holds stock |
| Outbox.OutboxTable.Append | apps/order/src/infrastructure/outbox/typeorm-order-outbox.adapter.ts:46-59 | the row appears where its creation time puts it |
| Outbox.OutboxTable.FetchUnpublished | apps/order/src/infrastructure/outbox/typeorm-order-outbox.adapter.ts:68-112 | the oldest unpublished rows, at most the limit |
| Outbox.OutboxTable.MarkPublished | apps/order/src/infrastructure/outbox/typeorm-order-outbox.adapter.ts:114-122 | exactly the named rows are marked |
| Outbox.KafkaProducer.GroupByTopic | libs/shared/messaging/src/kafka-producer.ts:74-79 | every topic's bucket is that topic's messages, in order, and nothing is lost |
| Outbox.KafkaProducer.PublishBatch | libs/shared/messaging/src/kafka-producer.ts:70-86 | every partition receives its messages of the batch in order, all of them or, after an error, the first so many |
| Outbox.DeliveredLog | libs/shared/messaging/src/kafka-producer.ts:80-85 | what a publish adds to one partition's log |
| Relay.OutboxRelay.RunOnce | libs/shared/messaging/src/outbox-relay.ts:64-106 | logs, marks, attempt counts and result of a drain in every weather; after an error nothing is marked |
| Relay.OutboxRelay.Tick | libs/shared/messaging/src/outbox-relay.ts:115-129 | the delay scheduled and the next back-off |
| Relay.DrainIsARun | libs/shared/messaging/src/outbox-relay.ts:72-91 | a drain is a stretch of the step system |
| Relay.OutboxRelay.Ticks | libs/shared/messaging/src/outbox-relay.ts:115-129 | over any sequence of ticks each delay is the interval after a success and otherwise the back-off for the failures in a row |
| Relay.BackoffIsExponential | libs/shared/messaging/src/outbox-relay.ts:126-127 | that back-off after n failures is the interval times 2^n, capped |
| ExactlyOnce.ExactlyOnceInOrder | libs/shared/messaging/src/idempotent-consumer.ts:15-30 | whatever is drained, lost, repeated or rewound, the state of every topic and key is the handler folded once, in order, over a prefix of its rows, and exactly those are processed |
| ExactlyOnce.NothingIsLost | libs/shared/messaging/src/outbox-relay.ts:72-91 | when all rows are marked and the consumer has caught up, that prefix is everything |
| ExactlyOnce.RelayIsInOrder | libs/shared/messaging/src/outbox-relay.ts:72-91 | per topic and key, however rows of different keys are appended, the distinct logged rows are a prefix, the marked rows are a prefix, and every marked row is logged |
| ExactlyOnce.AttemptsCountFailures | libs/shared/messaging/src/outbox-relay.ts:82-106 | in every run a row's attempts are the failed publishes of batches it was in |
| ExactlyOnce.RewindsToLastCommit | libs/shared/messaging/src/kafka-consumer.ts:145-148 | in every run a consumer that goes back goes to where it last committed |
| RelayPrefix.PublishedRowsArePrefix | apps/order/src/infrastructure/outbox/typeorm-order-outbox.adapter.ts:84-86 | if every appended row lands behind the published rows and the open batch, the published rows are a prefix of the whole table and the open batch is what comes next |
| RelayPrefix.TablePrefixExactlyWhen | apps/order/src/infrastructure/outbox/typeorm-order-outbox.adapter.ts:84-86 | all through a run that holds if and only if every appended row lands there |
| RelayPrefix.EarlyRowIsOvertaken | libs/shared/messaging/src/outbox-relay.ts:72-91 | any row that lands earlier stands, once the drainer has finished its batch, unpublished before a published one |
| RelayPrefix.LoggedRowsArePrefix | libs/shared/messaging/src/outbox-relay.ts:72-91 | if a partition's rows land behind what is logged there or in the open batch, wherever other rows land, the distinct rows in its log are a prefix of its rows, at least as long as the marked ones, through failures and repeats |
| RelayPrefix.LanePrefixExactlyWhen | libs/shared/messaging/src/outbox-relay.ts:72-91 | all through a run a partition is relayed in order if and only if its rows land there |
| RelayPrefix.EarlyRowIsSkipped | libs/shared/messaging/src/outbox-relay.ts:72-91 | any row of the partition that lands earlier is skipped by its log, at once or with the next publish |
| RelayPrefix.TopicLogIsPrefix | libs/shared/messaging/src/outbox-relay.ts:72-91 | with one partition this holds of whole topics |
| RelayPrefix.LateCommitBreaksPrefix | apps/order/src/infrastructure/outbox/typeorm-order-outbox.adapter.ts:84-86 | the guard does fail: a row created early and committed late, after a run of four steps |
| MessageProcessing.PartitionConsumer.RunHandlerWithRetry | libs/shared/messaging/src/message-processing.ts:26-55 | succeeds exactly if one of the first attempts does, and stops there |
| MessageProcessing.PartitionConsumer.PublishDeadLetter | libs/shared/messaging/src/kafka-consumer.ts:81-109 | published exactly if one of the attempts succeeds |
| MessageProcessing.PartitionConsumer.ConsumeOneMessage | libs/shared/messaging/src/message-processing.ts:82-127 | what is handled, dead-lettered, counted and committed for one message |
| MessageProcessing.MessageDropCounter.Total | libs/shared/messaging/src/message-drop-counter.ts:22-28 | the loop returns the sum over all counters |
| MessageProcessing.CountKeyIsInjective | libs/shared/messaging/src/message-drop-counter.ts:9-11 | different topics or reasons never share a counter |
| MessageProcessing.CommitDiscipline | libs/shared/messaging/src/message-processing.ts:101-127 | over any deliveries and restarts, with a counter shared with other consumers: every committed offset was handled or dead-lettered, no commit passes the cursor, and the counter's total grows by the dead letters |
| MessageProcessing.MessageIsSettled | libs/shared/messaging/src/message-processing.ts:82-127 | at any point of a run, what one message does to the handled, dead-lettered, counted and committed offsets; a dead letter is committed as a success is |
| MessageProcessing.AccountedExactlyWhen | libs/shared/messaging/src/message-processing.ts:82-127 | an offset was handled or dead-lettered if and only if one of its deliveries was not abandoned |
| MessageProcessing.CommittedMeansAccounted | libs/shared/messaging/src/kafka-consumer.ts:145-148 | everything below the committed offset was delivered, and all of it was handled or dead-lettered if and only if each had a delivery that was not abandoned |
| MessageProcessing.AbandonedMessageIsPassed | libs/shared/messaging/src/message-processing.ts:118-123 | an abandoned message lies below the committed offset after the next success, and a restart does not bring it back |
| MessageProcessing.RestartRedelivers | libs/shared/messaging/src/kafka-consumer.ts:145-148 | after a restart everything from the committed offset on is delivered again, one after the other |
| LockFencing.LeasedLockStands | libs/shared/locking/src/redis-distributed-lock.ts:34-45 | in every run, from the SET that was answered with OK for the ttl asked for, the lock is that call's under its token, unless it gives it back or another call's release deletes it; and no lock lives without such a call |
| LockFencing.MutualExclusion | libs/shared/locking/src/redis-distributed-lock.ts:38-39 | no two calls have the lock at the same time |
| LockFencing.NobodyElseSets | libs/shared/locking/src/redis-distributed-lock.ts:38-39 | while one call has it no other call's SET is answered with OK |
| LockFencing.SetsExactlyWhenNobodyLeases | libs/shared/locking/src/redis-distributed-lock.ts:38-39 | a SET is answered with OK if and only if nobody has the lock, and otherwise changes nothing |
| LockFencing.TimelyIsUndisturbed | libs/shared/locking/src/redis-distributed-lock.ts:17-19 | in timely runs with prompt releases no release deletes another call's lock |
| LockFencing.RunIsFenced | libs/shared/locking/src/redis-distributed-lock.ts:34-40 | in every timely run tokens of one counter generation differ, and while a lock lives no call holds a token of a later generation than the lock's |
| LockFencing.StaleReleaseIsHarmless | libs/shared/locking/src/redis-distributed-lock.ts:42-45 | a release within the counter's lifetime frees the lock if and only if its own call set it |
| LockFencing.LateReleaseFreesAnothersLock | libs/shared/locking/src/redis-distributed-lock.ts:17-19 | a token kept for the counter's whole lifetime can free another call's lock |
| LockFencing.LateSetLosesItsLock | libs/shared/locking/src/redis-distributed-lock.ts:34-40 | a lock set with a token older than the counter's lifetime can be freed by another call in time |
| LockFencing.LateExpiryFreesAnothersLock | libs/shared/locking/src/redis-distributed-lock.ts:34-37 | so can one whose counter ran out between INCR and PEXPIRE |
| WithLocks.DistinctSortedKeys | libs/shared/locking/src/redis-distributed-lock.ts:48 | the keys locked are the distinct keys, strictly increasing |
| WithLocks.RedisServer.SetNx | libs/shared/locking/src/redis-distributed-lock.ts:38 | the key is set if and only if it was not there, and otherwise all keys stay as they are |
| WithLocks.DistributedLock.Acquire | libs/shared/locking/src/redis-distributed-lock.ts:34-40 | three commands with anything in between, each of which may fail before or after it took effect: the key is the caller's, under the counter's next value, if and only if the SET found it free; after an error at most that key was added |
| WithLocks.DistributedLock.Release | libs/shared/locking/src/redis-distributed-lock.ts:42-45 | the key goes if and only if it still has the caller's token; a failing command may have taken effect |
| WithLocks.DistributedLock.TryAcquireAll | libs/shared/locking/src/redis-distributed-lock.ts:68-81 | keys are set in order up to the first taken one, and every key of this call is known with its token |
| WithLocks.DistributedLock.ReleaseAll | libs/shared/locking/src/redis-distributed-lock.ts:83-98 | in reverse order; absent Redis errors no key of this call is left |
| WithLocks.DistributedLock.WithLocks | libs/shared/locking/src/redis-distributed-lock.ts:47-66 | the whole call, terminating, with its log; contention only after the deadline; absent Redis errors it ends, in whatever way, with no key left |
| WithLocks.NoHoldAndWait | libs/shared/locking/src/redis-distributed-lock.ts:51-65 | the log of every call: keys in increasing order, the callback only with all of them, sleep only with none |
| WithLocks.NotesInOrder | libs/shared/locking/src/redis-distributed-lock.ts:83-84 | keys are taken in the order of the list and given back in reverse |
| LockRounds.CallbacksNeverOverlap | libs/shared/locking/src/redis-distributed-lock.ts:47-66 | any number of calls over any keys, command by command: two calls that share a key run their callbacks at the same time only when the ttl of one of them on that key is over |
| LockRounds.TimelyCallbacksNeverOverlap | libs/shared/locking/src/redis-distributed-lock.ts:47-66 | for which timely commands and prompt releases on that key are enough |
| LockRounds.FinishedRoundHasNoKey | libs/shared/locking/src/redis-distributed-lock.ts:51-61 | a call that comes to its end, with its callback or without, has given back every key |
| LockRounds.ThreeCommandsDecide | libs/shared/locking/src/redis-distributed-lock.ts:34-40 | three commands take a free key and go on to the next, or end the round at a taken one |
| LockRounds.RoundsUseTheirTtl | libs/shared/locking/src/redis-distributed-lock.ts:68-75 | every key is taken for the ttl of the call |
| Assignment.KeysNeverCollide | apps/delivery/src/infrastructure/redis/redis-assignment.store.ts:7-15 | for colon-free tenants no two keys of any tenants coincide unless they are the same key |
| Assignment.TenantsCollideExactlyWhen | apps/delivery/src/infrastructure/redis/redis-assignment.store.ts:7-15 | two different tenants share a key if and only if one id is the other followed by ":busy" or ":driver", or begins with the other followed by ":driver:" |
| Assignment.FirstFreeIsFirst | apps/delivery/src/infrastructure/redis/redis-assignment.store.ts:20-28 | the driver chosen is the first free candidate in list order |
| Assignment.RedisAssignmentStore.Assign | apps/delivery/src/infrastructure/redis/redis-assignment.store.ts:45-63 | the claim script, key by key |
| Assignment.RedisAssignmentStore.Unassign | apps/delivery/src/infrastructure/redis/redis-assignment.store.ts:65-74 | the release script, key by key |
| Assignment.FakeAssignmentStore.Assign | apps/delivery/src/testing/delivery-test-doubles.ts:52-71 | the in-memory claim |
| Assignment.FakeAssignmentStore.Unassign | apps/delivery/src/testing/delivery-test-doubles.ts:73-85 | the in-memory release |
| Assignment.RedisStepFollowsBook | apps/delivery/src/infrastructure/redis/redis-assignment.store.ts:17-39 | every operation keeps the hash, the busy set and the drivers' sets the book's, for this tenant and all others |
| Assignment.FakeStepFollowsBook | apps/delivery/src/testing/delivery-test-doubles.ts:52-94 | so does the in-memory store |
| Assignment.StoresFollowTheBooks | apps/delivery/src/testing/delivery-test-doubles.ts:43-101 | after any operations of any colon-free tenants without such a claim both stores have given the same answers, and hold what the books hold |
| Assignment.ReadsFollowWrites | apps/delivery/src/infrastructure/redis/redis-assignment.store.ts:76-83 | a claimed order is found with its driver and among that driver's orders until it is released, and no other order is affected |
| Assignment.StoresAgreeExactlyWhen | apps/delivery/src/testing/delivery-test-doubles.ts:63-66 | for colon-free tenants the answers of the two stores are the same if and only if no claim in the run reaches a driver without a name |
| Assignment.ReleaseUndoesClaim | apps/delivery/src/infrastructure/redis/redis-assignment.store.ts:31-39 | releasing a created claim restores the keyspace |
| Assignment.ReleaseAlwaysFreesDriver | apps/delivery/src/infrastructure/redis/redis-assignment.store.ts:36-38 | the emptiness test of the release script always passes |
| Assignment.NobodyTellsThemApart | apps/delivery/src/testing/delivery-test-doubles.ts:63-66 | such a claim succeeds in the script and finds nobody in memory |
| Pricing.LineTotalIsExact | apps/order/src/domain/order/order-item.ts:33-43 | an accepted line total is the integer product, whatever the rounding |
| Pricing.PricingIsExact | apps/order/src/domain/order/order.ts:63-103 | pricing with doubles accepts, rejects and computes exactly as integer arithmetic does |
| Pricing.OrderCosts | apps/order/src/domain/order/order.ts:63-84 | from integer fee, rate and discount: accepted if and only if there is an item and a restaurant and every input and amount is in the money range; then subtotal, VAT rounded down and total clamped at zero; otherwise the first thing wrong |
| Pricing.CentsAddUp | apps/order/src/domain/order/order.ts:72 | the subtotal of two lists is the sum of theirs, of one item quantity times price |
| Pricing.FractionsAreRefused | apps/order/src/domain/order/order.ts:45-58 | a fee, rate or discount that is not whole is refused |
| Pricing.SubtotalIsExact | apps/order/src/domain/order/order.ts:72 | the sum is exact at every accepted size |
| Pricing.VatIsExact | apps/order/src/domain/order/order.ts:74 | the floored VAT of an accepted order is the integer quotient |
| Pricing.AcceptedAmounts | apps/order/src/domain/order/order.ts:75-84 | accepted amounts lie between zero and the maximum |
| PriceSolver.SolutionIsUnique | tools/seed/seed-scenario-fixtures.ts:33-35 | at most one subtotal gives a total |
| PriceSolver.SolutionIsNearEstimate | tools/seed/seed-scenario-fixtures.ts:23-31 | and it lies inside the search window |
| PriceSolver.ComputedEstimateIsNear | tools/seed/seed-scenario-fixtures.ts:23-25 | the estimate computed in doubles lies between the floor of the true quotient and two above it |
| PriceSolver.SolveSubtotalForExactTotal | tools/seed/seed-scenario-fixtures.ts:17-41 | the search, in doubles, returns the subtotal that truly gives the target, and fails exactly when there is none |
| PriceSolver.SolveExactly | tools/seed/seed-scenario-fixtures.ts:17-41 | the same in exact arithmetic, for amounts of any size |
| PriceSolver.SolvedOrderCostsTarget | apps/order/src/domain/order/order.ts:72-75 | pricing the solved subtotal gives the target back |
| RateLimiter.LocationRateLimiter.Allow | apps/delivery/src/interface/ws/location-rate-limiter.ts:7-17 | the answer and the new window |
| RateLimiter.SlidingBound | apps/delivery/src/interface/ws/location-rate-limiter.ts:7-17 | with a clock that goes back by at most `drift`, k seconds see at most (k+1)·max allowed calls and max−1 more per late window |
| RateLimiter.SlidingBoundIsReached | apps/delivery/src/interface/ws/location-rate-limiter.ts:7-17 | that bound is attained for every number of seconds, every rate and every drift |
| RateLimiter.ClockMayGoBackExactlyWhen | apps/delivery/src/interface/ws/location-rate-limiter.ts:8-11 | (k+1)·max bounds every run if and only if the clock goes back by less than two milliseconds or the rate is at most one |
| RateLimiter.RefusedOnlyWhenFull | apps/delivery/src/interface/ws/location-rate-limiter.ts:7-17 | a call is refused only if the second before it had all its calls |

## Left out

- Assumption: within one topic and key, outbox rows are created in the order they commit; a failed batch reaches each partition as a prefix.
- Assumption: one reconciler and one relay at a time. A process whose database session dies keeps neither advisory lock but may still be working; that overlap is not modelled.
- Assumption: each handler's transaction is atomic. Database isolation below that, deadlocks and serialization failures are not modelled.
- SagaOutcomes.PaymentAndOutcomeAgree: requires that no charge command starts a second workflow for an order already answered, because the claim is false otherwise (`SagaOutcomes.RestartBreaksAgreement`).
- SagaOutcomes.CompletedOrdersHoldTheirItems: says nothing of stock after compensation or a user's cancel; what such an order holds is `SagaOutcomes.CancelledOrderHoldsNothingExactlyWhen`.
- SagaProgress.AnswersAreExact: speaks of the services by themselves; what a saga can still be told in its own world is `SagaEnding.SagaCanEndExactlyWhen`.
- OrderService.OrderService.Place: one transaction with the order already built; the idempotency key is in `Placement.PlaceOrderHandler.Execute`, the amounts are in Pricing, catalogue validation and configuration lookup are not modelled.
- ExactlyOnce.ExactlyOnceInOrder: the handler is total; a handler that throws is in MessageProcessing.
- ExactlyOnce.RelayIsInOrder: per topic and key, wherever rows of other keys land; per partition and per topic it has the exact condition of `RelayPrefix.LanePrefixExactlyWhen`.
- MessageProcessing.CommitDiscipline: a restart re-reads from the committed offset and keeps the drop counter, as a rebalance does; that a new process counts from zero is not modelled.
- MessageProcessing.PartitionConsumer.PublishDeadLetter: an attempt either reaches the dead-letter topic or fails; one that reaches it while its acknowledgement is lost is not modelled.
- WithLocks.DistributedLock.Acquire: the counter may expire at any time; what its lifetime guarantees is in LockFencing.
- LockFencing.StaleReleaseIsHarmless: one lock key and its counter; the keys in use do not end in the counter's suffix. Several keys at once are in LockRounds.
- LockRounds.CallbacksNeverOverlap: a round is one attempt of a call; the retry loop around the rounds is in WithLocks.DistributedLock.WithLocks.
- PriceSolver.SolveSubtotalForExactTotal: fee, rate, discount and target lie in the money range; beyond it the doubles are not exact.
- Payment.StepsReachOutcome: activity retries, workflow replay and signal ordering inside Temporal are not modelled beyond their results.
- Redis type errors (a key holding the wrong kind of value), number arguments that are NaN or infinite, trace headers, log text and metrics.
- Identifiers that are UUIDs in the source are natural numbers where only equality and order matter; clocks, jitter and random ids are arbitrary inputs.
- The CDC search pipeline, catalogue, media, notification, review, configuration and analytics services, HTTP and gRPC controllers, authentication and the circuit breaker.
