# RouteFast dispatch: a verified model

RouteFast assigns drivers to delivery orders across an order, a dispatch and a driver service that exchange
messages with at-least-once delivery, and it plans pickup-and-delivery routes. This project models its core and
proves what it keeps.

- **Dispatch saga.** `Dispatch.dfy`, `Order.dfy` and `Driver.dfy` are the aggregates; `Reservations.dfy` is the
  driver service's reserve and release transactions. The classes there update their fields as the services do, and
  their methods are proved against functions on rows and tables. `SagaTables.dfy` puts the handlers of the three
  services together over those functions, `Saga.dfy` makes a state machine of them with a pool of message copies in
  no order, inboxes, dead letters, crashes and redelivery, `SagaDelivery.dfy` shows that every message takes effect
  or still waits, `SagaLeaks.dfy` says exactly when capacity leaks (`SagaLeakExample.dfy` is a run that does),
  `SagaOrders.dfy` says exactly when a failed dispatch leaves its order pending and when a cancelled order keeps a
  dispatch that goes on (`SagaCancelExample.dfy` has two runs in which it does), `SagaRecords.dfy` follows rankings
  and reasons through runs, and `SagaDrain.dfy` bounds the length of runs.
- **Locks.** `ReservationLocks.dfy` interleaves reserve and release as multi-step transactions under per-order
  advisory locks (with a hash that may collide) and driver row locks, waiting or skipping locked rows.
- **Reliable messaging.** `Reliability.dfy` interleaves outbox workers and consumers, which may crash between any two
  steps; `Deliveries.dfy` describes uninterrupted deliveries as its runs, `Consumer.dfy` and `Outbox.dfy` are the code
  of one delivery and of one flush, and `ConsumerSteps.dfy` shows that code and steps of a delivery agree.
- **Route planner.** `RoutePlan.dfy` defines routes and greedy insertion over an arbitrary distance,
  `RoutePlanner.dfy` is the planner with its loops, `PlanReports.dfy` says what a plan reports in terms of its input
  and reported stops, and `Decimals.dfy` is the rounding of section 21.1.3.3 of ECMA-262 over reals.
- **Circuit breaker.** `CircuitBreaker.dfy`, with overlapping calls split into a start and a completion.
- **Tracking stores and scoring.** `LocationStores.dfy` and `DriverScoring.dfy`, with `ScoreMeaning.dfy` on what scores and
  rankings mean.

`dafny verify dfyconfig.toml` verifies the whole project.

What the proofs rest on: the database commits or rolls back a transaction as a whole, the broker keeps what it has
accepted, and new ids are new. In the saga a handler run is one atomic step: for reserve and release this is what
`ReservationLocks.EveryRunRefines` shows, for the dispatch service it rests on the row lock its transactions take and,
for `start`, which takes none, on the unique `order_id` of its table, by which the later of two starts is rolled back;
for the order service's handlers and for `SetDriverAvailabilityUseCase`
(apps/driver-service/src/application/use-cases/set-driver-availability.use-case.ts:8-14), which read and save without
a lock, it is an assumption. No order of messages is assumed. Replies of the driver service carry the event id of the
request they answer (the request is spread over the fresh id,
apps/driver-service/src/infrastructure/persistence/typeorm/typeorm-driver-reservation.transaction.ts:174), so a
success and a failure answering the same request share one inbox key. A consumer's run in the saga may happen although
its key is already marked, since it may have looked before; a run that has committed may mark its key and acknowledge
its copy at once, at any later time or never; and runs that throw may happen at any time.

What turned out not to hold without a condition:

- Capacity can leak. A reservation request that first fails, is redelivered after a crash and then succeeds has two
  answers under one key; if the failure is handled first, the success is dropped as a duplicate and the reservation
  stays ACTIVE for a FAILED dispatch (`SagaLeakExample.CapacityCanLeak`). `SagaLeaks.StepLeaksExactly` gives the
  exact steps.
- A FAILED dispatch does not always leave its order PENDING_DISPATCH: a late `dispatch.started` leaves it DISPATCHING
  (the same run). `SagaOrders.FailedOrderStatus` gives the exact condition.
- Cancelling an order by hand does not stop its dispatch: the dispatch may go on to be ASSIGNED, with the driver
  reserved, while the order refuses the assignment (`SagaCancelExample.CancelCanBeIgnored`), or be started only
  afterwards (`SagaCancelExample.StartCanComeTooLate`). `SagaOrders.CancellationsHonoured` says exactly when.
- The tables of the tracking service converge exactly when samples with equal times carry equal data.
- An OPEN circuit breaker can close before its reset time, when a call admitted earlier succeeds late
  (`CircuitBreaking.LateSuccessHappens`; `CircuitBreaking.OpenWindow` is the exact condition); and with
  `halfOpenMaxCalls` below one it never recovers.
- The filter loop of `findNearby` keeps one entry for a limit of zero, because it looks at the limit after adding (the
  search before it would ask Redis for a count of zero).

## Model

| member | source | states |
|---|---|---|
| `Sagas.AssignedIsHeld` | apps/dispatch-service/src/infrastructure/persistence/typeorm/typeorm-dispatch-workflow.transaction.ts:82-91 | in every run, with messages duplicated, reordered, delayed, dead-lettered and handlers crashing anywhere, a dispatch ASSIGNED to a driver has an ACTIVE reservation on that driver, and the driver row holds the order |
| `Sagas.CancelledIsReleased` | apps/dispatch-service/src/infrastructure/persistence/typeorm/typeorm-dispatch-workflow.transaction.ts:123-137 | once a dispatch is CANCELLED its reservation is RELEASED and in every later state neither active nor held by any driver |
| `Sagas.OneDispatchPerOrder` | apps/dispatch-service/src/infrastructure/persistence/typeorm/dispatch.orm-entity.ts:6 | an order never has two dispatches; over any run a dispatch keeps its order and its driver and its status only moves on |
| `Sagas.ReleaseFindsReservation` | apps/driver-service/src/infrastructure/persistence/typeorm/typeorm-driver-reservation.transaction.ts:124-132 | a release request always finds the reservation it names, so the branch for a missing reservation is never taken |
| `Sagas.OrderAgrees` | apps/order-service/src/domain/entities/order.aggregate.ts:48-89 | an order with a driver is ASSIGNED or CANCELLED and has the driver of its dispatch and reservation; if CANCELLED, its dispatch is CANCELLED and its reservation RELEASED |
| `Sagas.CancelledOrderIsFinal` | apps/order-service/src/domain/entities/order.aggregate.ts:73-89 | a CANCELLED order keeps its whole row in every later state |
| `Sagas.RunKeepsInv` | apps/dispatch-service/src/infrastructure/persistence/typeorm/typeorm-dispatch-workflow.transaction.ts:27-156 | the invariant tying orders, dispatches, reservations, driver rows and every message ever sent holds over all runs, and no step undoes what it should not (reservation driver, dispatch status order, order finality) |
| `SagaTables.HandledKeeps` | apps/dispatch-service/src/infrastructure/persistence/typeorm/typeorm-dispatch-workflow.transaction.ts:27-137 | each handler of the three services keeps that invariant and sends only messages that are true and stay true |
| `SagaTables.CommandedKeeps` | apps/dispatch-service/src/infrastructure/persistence/typeorm/typeorm-dispatch-workflow.transaction.ts:105-156 | so do order creation and cancellation, driver registration and availability, dispatch cancellation and the timeout |
| `SagaTables.MessageStable` | apps/driver-service/src/interfaces/events/driver-events.controller.ts:29-37 | what a message says remains true however late it is delivered |
| `SagaDelivery.EveryMessageTakesEffect` | apps/dispatch-service/src/infrastructure/reliability/inbox.service.ts:15-46 | every message ever sent is still waiting under an unmarked key or has had its effect, although replies share inbox keys with each other; for a failure report, which leaves nothing that later events may not undo, the effect is that its handler has run |
| `SagaDelivery.SameKeySameEffect` | apps/dispatch-service/src/infrastructure/reliability/inbox.service.ts:16-17 | messages that share an inbox key at a consumer share their effect, so dropping one as a duplicate loses nothing |
| `SagaDelivery.QuietAgreement` | apps/dispatch-service/src/infrastructure/persistence/typeorm/typeorm-dispatch-workflow.transaction.ts:61-137 | with nothing left to deliver or dead-lettered, every dispatch is ASSIGNED with its order ASSIGNED to the same driver, CANCELLED with its order CANCELLED, or FAILED with no driver, an order without one, and the report of its failure and reason handled; none is still searching or compensating |
| `SagaDelivery.HandledAnnounced` | apps/dispatch-service/src/infrastructure/persistence/typeorm/typeorm-dispatch-workflow.transaction.ts:46-51 | every handler run keeps each dispatch announced: its start, its request while searching, its driver, its failure with the reason, its release request while compensating and its cancellation |
| `SagaLeaks.StepLeaksExactly` | apps/dispatch-service/src/infrastructure/persistence/typeorm/typeorm-dispatch-workflow.transaction.ts:67-79 | a step keeps all active reservations accounted for if and only if it is neither a reservation made after its answer key was marked, nor a failure answer marked, at once or later, while the reservation is active, the dispatch searching or failed and no release on its way |
| `SagaLeaks.RunLeaksExactly` | apps/dispatch-service/src/infrastructure/persistence/typeorm/typeorm-dispatch-workflow.transaction.ts:67-79 | a run accounts for all capacity in each of its states if and only if it contains no such step |
| `SagaLeaks.NoLeakedCapacity` | apps/dispatch-service/src/infrastructure/persistence/typeorm/typeorm-dispatch-workflow.transaction.ts:67-79 | if no reservation request succeeds after it has been answered with a failure, every ACTIVE reservation belongs to an ASSIGNED dispatch or has an unhandled driver answer or release request |
| `SagaLeaks.QuietCapacity` | apps/dispatch-service/src/infrastructure/persistence/typeorm/typeorm-dispatch-workflow.transaction.ts:67-79 | in such runs, with nothing left to deliver, the orders in a driver row are exactly those of the dispatches ASSIGNED to that driver |
| `SagaLeakExample.CapacityCanLeak` | apps/driver-service/src/infrastructure/persistence/typeorm/typeorm-driver-reservation.transaction.ts:169-174 | without that guard there is a run that ends with nothing to deliver, a FAILED dispatch whose reservation is still ACTIVE, and its order DISPATCHING |
| `SagaDrain.HandledPays` | apps/dispatch-service/src/infrastructure/persistence/typeorm/typeorm-dispatch-workflow.transaction.ts:27-137 | every handler run sends less than the weight of its message, counting what a timeout or cancellation of the dispatch could still send |
| `SagaDrain.CommandedPays` | apps/dispatch-service/src/infrastructure/persistence/typeorm/typeorm-dispatch-workflow.transaction.ts:105-156 | a timeout or cancellation sends less than what the dispatch it closes stood for |
| `SagaDrain.RunsEnd` | apps/dispatch-service/src/infrastructure/persistence/typeorm/typeorm-dispatch-workflow.transaction.ts:27-156 | a run has at most as many steps as its pending weight plus twelve for each new order, redelivery, unacknowledged run or administrative step |
| `SagaRecords.RequestCarriesRanking` | apps/dispatch-service/src/infrastructure/persistence/typeorm/typeorm-dispatch-workflow.transaction.ts:51-57 | in every run, a reservation request carries the candidates ranked by the handler run that started its dispatch, in their order |
| `SagaRecords.DriverWasRanked` | apps/driver-service/src/infrastructure/persistence/typeorm/typeorm-driver-reservation.transaction.ts:49-69 | whenever a ranking was drawn, the driver reserved for and assigned to the dispatch is in it |
| `SagaRecords.RefusalReason` | apps/driver-service/src/infrastructure/persistence/typeorm/typeorm-driver-reservation.transaction.ts:50-90 | a refusal gives NO_GEO_ELIGIBLE_DRIVER exactly when the ranking was empty, and NO_AVAILABLE_DRIVER otherwise |
| `SagaRecords.DispatchReason` | apps/dispatch-service/src/infrastructure/persistence/typeorm/typeorm-dispatch-workflow.transaction.ts:94-96 | in every run a dispatch carries the reason of the timeout, refusal or cancellation that last changed it, and none before |
| `SagaRecords.OrderReason` | apps/order-service/src/domain/entities/order.aggregate.ts:48-70 | an order carries the reason of the last failure handled while it was dispatching, until it is dispatched again |
| `SagaRecords.AssignedAfterStart` | apps/order-service/src/domain/entities/order.aggregate.ts:55-63 | an order has a driver only if it has handled the start of its dispatch |
| `SagaRecords.EveryOrderIsDispatched` | apps/order-service/src/infrastructure/persistence/typeorm/typeorm-order-creation.transaction.ts:28-57 | with nothing left to deliver, every order ever created has its dispatch |
| `SagaOrders.FailedOrderStatus` | apps/order-service/src/domain/entities/order.aggregate.ts:48-70 | in every run, a FAILED dispatch leaves its order PENDING_DISPATCH if and only if the order has not been cancelled by hand and the last report of the dispatch handled is not the one of its start; DISPATCHING if and only if it is and the order has not |
| `SagaOrders.StepHonoursExactly` | apps/order-service/src/domain/entities/order.aggregate.ts:82-89 | a step keeps the dispatch of every CANCELLED order CANCELLED (or CANCELLED or FAILED) if and only if it neither cancels an order by hand whose dispatch goes on nor starts a dispatch for an order cancelled before |
| `SagaOrders.CancellationsHonoured` | apps/order-service/src/application/use-cases/cancel-order.use-case.ts:8-15 | a run keeps that in each of its states if and only if it contains no such step |
| `SagaCancelExample.CancelCanBeIgnored` | apps/order-service/src/domain/entities/order.aggregate.ts:55-59 | a legal run reaches a state in which cancelling the order by hand is accepted although its dispatch goes on, and legal steps after it end with the dispatch ASSIGNED, the driver holding the order and the cancelled order refusing the assignment |
| `SagaCancelExample.StartCanComeTooLate` | apps/dispatch-service/src/application/commands/handlers/start-dispatch.handler.ts:26-29 | a legal run reaches a state in which the next handler starts a dispatch for an order that has been cancelled already |
| `Dispatches.WorkflowKeeps` | apps/dispatch-service/src/infrastructure/persistence/typeorm/typeorm-dispatch-workflow.transaction.ts:61-156 | every transaction keeps one dispatch per order and a driver exactly from ASSIGNED on, and only moves statuses on |
| `Dispatches.StartKeeps` | apps/dispatch-service/src/infrastructure/persistence/typeorm/typeorm-dispatch-workflow.transaction.ts:27-32 | starting leaves exactly one dispatch for the order, whether or not there was one |
| `Dispatches.CompleteReservationTwice` | apps/dispatch-service/src/infrastructure/persistence/typeorm/typeorm-dispatch-workflow.transaction.ts:61-103 | a repeated answer changes nothing more, and sends a driver back again exactly when the dispatch is FAILED or CANCELLED |
| `Dispatches.CompensationExactly` | apps/dispatch-service/src/domain/entities/dispatch.aggregate.ts:41-49 | which statuses can be cancelled, with which result and which error, the reason noted, and the one release asked for |
| `Dispatches.AnswerWithoutDriver` | apps/dispatch-service/src/infrastructure/persistence/typeorm/typeorm-dispatch-workflow.transaction.ts:94-96 | an answer without a driver fails a searching dispatch for the reason given, or as DRIVER_RESERVATION_FAILED |
| `Dispatches.Dispatch.StartCompensation` | apps/dispatch-service/src/domain/entities/dispatch.aggregate.ts:41-49 | only an ASSIGNED dispatch begins to compensate; COMPENSATING and CANCELLED are left alone, anything else is an error without effect |
| `Dispatches.DispatchWorkflow.Start` | apps/dispatch-service/src/infrastructure/persistence/typeorm/typeorm-dispatch-workflow.transaction.ts:27-59 | nothing for an order that has a dispatch; else a searching row, the announcement and a reservation request with the ranked candidates, which SagaRecords.RequestCarriesRanking follows through every run |
| `Dispatches.DispatchWorkflow.CompleteReservation` | apps/dispatch-service/src/infrastructure/persistence/typeorm/typeorm-dispatch-workflow.transaction.ts:61-103 | a searching dispatch is ASSIGNED or FAILED and announced; for one already FAILED or CANCELLED an offered driver is sent back; otherwise, and for an unknown dispatch, nothing happens |
| `Dispatches.DispatchWorkflow.StartCompensation` | apps/dispatch-service/src/infrastructure/persistence/typeorm/typeorm-dispatch-workflow.transaction.ts:105-121 | an ASSIGNED dispatch is COMPENSATING and its driver asked back; one compensating or cancelled is left alone; anything else is an error with table and outbox unchanged |
| `Dispatches.DispatchWorkflow.CompleteCompensation` | apps/dispatch-service/src/infrastructure/persistence/typeorm/typeorm-dispatch-workflow.transaction.ts:123-138 | exactly a COMPENSATING dispatch becomes CANCELLED and is announced, keeping its driver |
| `Dispatches.DispatchWorkflow.Timeout` | apps/dispatch-service/src/infrastructure/persistence/typeorm/typeorm-dispatch-workflow.transaction.ts:140-156 | exactly a searching dispatch becomes FAILED for its timeout and is announced |
| `Orders.OrderRepository.On` | apps/order-service/src/interfaces/events/order-events.controller.ts:25-43 | the stored orders after a dispatch event: an unknown order is ignored, a refusing order is left as it was |
| `Orders.RowAfterKeeps` | apps/order-service/src/domain/entities/order.aggregate.ts:48-80 | no dispatch event takes an order out of CANCELLED, changes a driver once set, or takes it out of ASSIGNED except to CANCELLED |
| `Orders.RowAfterExactly` | apps/order-service/src/domain/entities/order.aggregate.ts:48-80 | which statuses accept each dispatch event, what status, driver and reason the order then has, and which error names which status otherwise |
| `Orders.CancelExactly` | apps/order-service/src/domain/entities/order.aggregate.ts:82-86 | an order can be cancelled by hand exactly while pending, and a refusal names its status |
| `Orders.RowAfterTwice` | apps/order-service/src/domain/entities/order.aggregate.ts:48-80 | an accepted event is accepted again and changes nothing the second time |
| `Orders.Order.Cancel` | apps/order-service/src/domain/entities/order.aggregate.ts:82-89 | only a pending order can be cancelled by hand, and it records one domain event |
| `Drivers.Driver.Reserve` | apps/driver-service/src/domain/entities/driver.aggregate.ts:27-34 | the order is added, with RESERVED for a full driver; an order already held changes nothing; an offline or full driver is an error with the row unchanged |
| `Drivers.Driver.Release` | apps/driver-service/src/domain/entities/driver.aggregate.ts:36-42 | the first occurrence of the order is removed and the driver AVAILABLE; an order not held changes nothing |
| `Drivers.Driver.Create` | apps/driver-service/src/domain/entities/driver.aggregate.ts:17-23 | a driver is created exactly for a non-blank display name and an integer capacity of at least one, empty, available and valid; otherwise the error says which is missing, the name first |
| `Drivers.ReservedRowValid` | apps/driver-service/src/domain/entities/driver.aggregate.ts:27-34 | reserving keeps orders distinct and within capacity and RESERVED meaning full, adds a new order last and changes nothing else, and refuses exactly an offline driver and a full one that does not hold the order, each with its own error |
| `Drivers.ReleasedRowValid` | apps/driver-service/src/domain/entities/driver.aggregate.ts:36-42 | releasing keeps the row valid, removes exactly the order with the others keeping their places, and makes the driver AVAILABLE |
| `Drivers.ReleaseUndoesReserve` | apps/driver-service/src/domain/entities/driver.aggregate.ts:27-42 | reserve followed by release gives back the same row |
| `Drivers.SwitchedRowValid` | apps/driver-service/src/domain/entities/driver.aggregate.ts:44-54 | a manual availability change is refused exactly while orders are held, and else sets the status asked for and nothing more |
| `Reservations.ReservationStore.Reserve` | apps/driver-service/src/infrastructure/persistence/typeorm/typeorm-driver-reservation.transaction.ts:27-115 | the tables and outbox after reserve against the rows others have locked: which driver is taken, what is answered, and no effect at all when the insert violates the unique order |
| `Reservations.ReservationStore.Release` | apps/driver-service/src/infrastructure/persistence/typeorm/typeorm-driver-reservation.transaction.ts:117-161 | an active reservation is released together with its driver row; otherwise the tables stay; either way the release is reported with the reserved driver |
| `Reservations.ReservationStore.QueryLeastBusy` | apps/driver-service/src/infrastructure/persistence/typeorm/typeorm-driver-reservation.transaction.ts:70-80 | the query without candidates returns an unlocked eligible driver with fewest orders, oldest first, and nothing only when every eligible one is locked |
| `Reservations.FirstEligibleIsFirst` | apps/driver-service/src/infrastructure/persistence/typeorm/typeorm-driver-reservation.transaction.ts:59-69 | the candidate loop takes the first eligible candidate whose row is not locked |
| `Reservations.ReserveKeepsConsistent` | apps/driver-service/src/infrastructure/persistence/typeorm/typeorm-driver-reservation.transaction.ts:27-115 | after reserve each driver still holds exactly the orders with an active reservation on it, and reservations keep driver, dispatch and release |
| `Reservations.ReleaseKeepsConsistent` | apps/driver-service/src/infrastructure/persistence/typeorm/typeorm-driver-reservation.transaction.ts:117-161 | the same after release, and the order is no longer active |
| `Reservations.ReserveSucceeds` | apps/driver-service/src/infrastructure/persistence/typeorm/typeorm-driver-reservation.transaction.ts:92-113 | with an eligible driver locked and no reservation row, reserve commits and the order is active on that driver |
| `Reservations.ReserveExactly` | apps/driver-service/src/infrastructure/persistence/typeorm/typeorm-driver-reservation.transaction.ts:32-113 | in which cases a reserve repeats, refuses, is rolled back or reserves, and what the row and the reply then say |
| `Reservations.EligibleExactly` | apps/driver-service/src/infrastructure/persistence/typeorm/typeorm-driver-reservation.transaction.ts:65-66 | a driver is eligible exactly when it can take an order it does not hold |
| `SagaTables.DriverCommanded` | apps/driver-service/src/application/use-cases/set-driver-availability.use-case.ts:8-14 | registration and availability changes do to the one driver what was asked, and nothing else |
| `Reservations.ReserveIdempotent` | apps/driver-service/src/infrastructure/persistence/typeorm/typeorm-driver-reservation.transaction.ts:34-42 | a request served again changes nothing and is answered the same, whichever driver would be picked |
| `ReservationLocks.EveryRunRefines` | apps/driver-service/src/infrastructure/persistence/typeorm/typeorm-driver-reservation.transaction.ts:27-161 | every interleaving of transactions under advisory and row locks refines atomic steps; a transaction's commit is the atomic reserve or release of its own message, and every committed state is consistent |
| `ReservationLocks.HeldOnce` | apps/driver-service/src/infrastructure/persistence/typeorm/typeorm-driver-reservation.transaction.ts:27-161 | in every committed state no order is held by two drivers, and held orders are distinct and within capacity |
| `ReservationLocks.ReservationsEvolve` | apps/driver-service/src/infrastructure/persistence/typeorm/driver-reservation.orm-entity.ts:11 | over a run a reservation never changes its driver and a released one never becomes active again |
| `ReservationLocks.CandidatesTriedInOrder` | apps/driver-service/src/infrastructure/persistence/typeorm/typeorm-driver-reservation.transaction.ts:59-69 | in every interleaving a reservation holds a named candidate only after each one before it was found ineligible or locked, and gives up only after all were |
| `ReservationLocks.NoDeadlock` | apps/driver-service/src/infrastructure/persistence/typeorm/typeorm-driver-reservation.transaction.ts:30-80 | while a transaction is unfinished some transaction can take a step |
| `ReservationLocks.TransactionsFinish` | apps/driver-service/src/infrastructure/persistence/typeorm/typeorm-driver-reservation.transaction.ts:27-161 | transactions left to themselves take boundedly many steps, and when none can step all have ended |
| `Reliability.NothingLost` | apps/dispatch-service/src/infrastructure/reliability/rmq-reliability.service.ts:27-69 | with crashes between any two steps, a committed event is pending in the outbox, in the main, retry or dead-letter queue, in a consumer's hands, or has had a successful handler run |
| `Reliability.ProcessedMeansDone` | apps/dispatch-service/src/infrastructure/reliability/inbox.service.ts:34-40 | an inbox row is marked processed only after a successful handler run for its event |
| `Reliability.RetriesBounded` | apps/dispatch-service/src/infrastructure/reliability/rmq-reliability.service.ts:46-62 | no retry count exceeds the limit, only copies at the limit are dead-lettered, and without crashes and failing inbox queries each of them had exactly maxRetries + 1 runs |
| `Reliability.AlwaysFailing` | apps/dispatch-service/src/infrastructure/reliability/rmq-reliability.service.ts:31-62 | in every run, a published event that no handler run has succeeded for and of which no copy is queued for delivery or in a consumer's hands has a dead-lettered copy with its retries used up, and without crashes and failing inbox queries exactly maxRetries + 1 handler runs |
| `Deliveries.FailingRun` | apps/dispatch-service/src/infrastructure/reliability/rmq-reliability.service.ts:27-69 | and such runs exist for any limit: delivered again after every retry, a copy whose handler keeps failing is dead-lettered after one run for each retry left and one more, with nothing else changed |
| `Deliveries.UninterruptedDuplicate` | apps/dispatch-service/src/infrastructure/reliability/inbox.service.ts:16-17 | the consumer's steps for a processed event, taken as a run, acknowledge the copy and change nothing else |
| `Deliveries.UninterruptedSuccess` | apps/dispatch-service/src/infrastructure/reliability/inbox.service.ts:34-40 | as a run, a successful delivery leaves the event processed, nothing queued and the rest of the state as it was |
| `Deliveries.UninterruptedFailure` | apps/dispatch-service/src/infrastructure/reliability/rmq-reliability.service.ts:30-68 | as a run, a failed delivery leaves no inbox row and one more copy, queued for retry or dead-lettered, and the rest of the state as it was |
| `Deliveries.AfterDeliveryEffect` | apps/dispatch-service/src/infrastructure/reliability/rmq-reliability.service.ts:27-69 | the state those runs leave differs in inbox, retry queue and dead-letter queue exactly by the effect of one delivery, which is the one Consumer.Handle has when undisturbed |
| `Consumers.Consumer.Handle` | apps/dispatch-service/src/infrastructure/reliability/rmq-reliability.service.ts:27-69 | whenever processing throws, exactly one copy is queued again, with its retry count raised or in the dead-letter queue, and otherwise none; undisturbed, the inbox and both queues change as in those runs |
| `Consumers.Consumer.Process` | apps/dispatch-service/src/infrastructure/reliability/inbox.service.ts:15-46 | with failing queries and an insert another consumer may win: duplicate exactly when a look-up finds the event processed, the operation run exactly when no look-up throws and it is no duplicate; a success marks the row, a failure removes it |
| `ConsumerSteps.StepsAgree` | apps/dispatch-service/src/infrastructure/reliability/inbox.service.ts:15-46 | for every combination of failing queries, and whether or not another consumer wins the insert, the steps of the crash model end with the inbox, the queues and the handler runs that the contracts of Process and Handle give |
| `Deliveries.PublishingRun` | apps/dispatch-service/src/infrastructure/reliability/outbox.worker.ts:44-50 | the steps of a worker that fetches, sends and marks a row leave it published with one fresh copy in the main queue |
| `Deliveries.RefusedRun` | apps/dispatch-service/src/infrastructure/reliability/outbox.worker.ts:51-57 | and those of one whose row the broker refuses leave everything as it was |
| `Outbox.OutboxWorker.Flush` | apps/dispatch-service/src/infrastructure/reliability/outbox.worker.ts:34-62 | every event of the oldest due batch is attempted once, as Outbox.FlushedEvent tells field by field, and the accepted ids are sent as Outbox.SentInOrder tells; a flush already running makes it do nothing |
| `Outbox.BatchIsOldest` | apps/dispatch-service/src/infrastructure/reliability/outbox.worker.ts:38-42 | a batch holds due events, oldest first, and leaves out a due event only when full of older ones |
| `Outbox.FlushedEvent` | apps/dispatch-service/src/infrastructure/reliability/outbox.worker.ts:44-58 | each event of the batch has one more attempt; accepted it is published, not accepted it stays pending and is due again after the delay for its attempts, between one and thirty seconds; all other events and fields are kept |
| `Outbox.AcceptedIsDone` | apps/dispatch-service/src/infrastructure/reliability/outbox.worker.ts:46-50 | an accepted event of the batch is in no later batch, whatever the time |
| `Outbox.SentInOrder` | apps/dispatch-service/src/infrastructure/reliability/outbox.worker.ts:44-46 | the ids sent are those of the accepted events, each once and in the order of the batch |
| `Outbox.BackoffDoubles` | apps/dispatch-service/src/infrastructure/reliability/outbox.worker.ts:52-54 | the delay is one second after the first attempt and doubles up to thirty seconds |
| `Outbox.PublishedWasSent` | apps/dispatch-service/src/infrastructure/reliability/outbox.worker.ts:45-50 | an event that was pending and is published after the flush is among the sent ids |
| `Outbox.BackoffBounds` | apps/dispatch-service/src/infrastructure/reliability/outbox.worker.ts:52-54 | the delay before another attempt grows from one second to at most thirty |
| `RoutePlanner.BestInsertion` | apps/dispatch-service/src/application/optimization/route-planner.service.ts:105-129 | the first in index order of the shortest feasible insertions of pickup before dropoff, after examining exactly (n+1)(n+2)/2 candidates; nothing only when none is feasible |
| `RoutePlan.FirstShortestUnique` | apps/dispatch-service/src/application/optimization/route-planner.service.ts:114-126 | that insertion is unique |
| `RoutePlan.CandidateKeepsRoute` | apps/dispatch-service/src/application/optimization/route-planner.service.ts:116-119 | removing the pair from a candidate gives back the old route |
| `RoutePlanner.IsCapacityFeasible` | apps/dispatch-service/src/application/optimization/route-planner.service.ts:131-146 | true exactly when no order is picked up twice or dropped off before its pickup, every load lies between zero and the capacity, and the route ends empty |
| `RoutePlanner.AlwaysInsertable` | apps/dispatch-service/src/application/optimization/route-planner.service.ts:78-82 | an order whose demand fits always has a feasible insertion, so the branch without one is unreachable |
| `RoutePlanner.Plan` | apps/dispatch-service/src/application/optimization/route-planner.service.ts:50-103 | fails exactly on invalid input, with the first error, and otherwise reports a greedy run over the orders whose demand fits |
| `RoutePlanner.PlanServes` | apps/dispatch-service/src/application/optimization/route-planner.service.ts:68-85 | each accepted order has one pickup and one later dropoff, and an order is rejected exactly when its demand is not an integer from 1 to the capacity |
| `RoutePlanner.PlanLoads` | apps/dispatch-service/src/application/optimization/route-planner.service.ts:148-162 | each reported load is the demand on board, lies between zero and the capacity, and is zero at the end |
| `RoutePlanner.PlanBounds` | apps/dispatch-service/src/application/optimization/route-planner.service.ts:72-87 | for a metric the route is at least as long as every trip from the origin over an accepted order and at most twice the sum of these trips |
| `RoutePlanner.RouteNeverShrinks` | apps/dispatch-service/src/application/optimization/route-planner.service.ts:72-87 | the route never gets shorter as orders are inserted |
| `RoutePlanner.RoundingDrift` | apps/dispatch-service/src/application/optimization/route-planner.service.ts:87-172 | the rounded legs add up to the rounded total within (n+1) half metres |
| `RoutePlanner.SavingsPercentage` | apps/dispatch-service/src/application/optimization/route-planner.service.ts:92-99 | the reported savings lie between 0 and 100 |
| `RoutePlanner.Materialize` | apps/dispatch-service/src/application/optimization/route-planner.service.ts:148-162 | each planned stop is the stop of the route with its sequence number, load and rounded leg; PlanReports says what that means |
| `PlanReports.AcceptedInput` | apps/dispatch-service/src/application/optimization/route-planner.service.ts:51-66 | a plan is refused exactly for an origin or point off the map, a capacity that is not a positive integer, fewer than one or more than 25 orders, or a blank or repeated order id |
| `PlanReports.RefusalTrue` | apps/dispatch-service/src/application/optimization/route-planner.service.ts:51-66 | every refusal is right about what it says is wrong |
| `PlanReports.FirstBadOrder` | apps/dispatch-service/src/application/optimization/route-planner.service.ts:60-66 | the orders before the one reported are in order |
| `PlanReports.StopsReported` | apps/dispatch-service/src/application/optimization/route-planner.service.ts:148-162 | in the reported stops each order that fits has one pickup at its pickup point and one later dropoff at its dropoff point, with its demand; the others are rejected, and the stops are numbered from one |
| `PlanReports.LoadsReported` | apps/dispatch-service/src/application/optimization/route-planner.service.ts:150-158 | each reported load is the one before it, raised at a pickup and lowered at a dropoff by the reported demand, within the capacity and zero at the end |
| `PlanReports.LegsReported` | apps/dispatch-service/src/application/optimization/route-planner.service.ts:153-159 | each leg is the distance from the reported stop before it, to the nearest metre |
| `PlanReports.DistancesReported` | apps/dispatch-service/src/application/optimization/route-planner.service.ts:87-98 | the total is the length along the reported stops and the sequential distance that of the accepted orders in turn, each to the nearest metre |
| `PlanReports.SavingsReported` | apps/dispatch-service/src/application/optimization/route-planner.service.ts:93-99 | the savings are the percentage of the sequential distance the total does without, none if it is longer, rounded |
| `PlanReports.RejectedInOrder` | apps/dispatch-service/src/application/optimization/route-planner.service.ts:70-82 | the rejected ids are those of the orders that do not fit, in input order |
| `PlanReports.InsertedWhere` | apps/dispatch-service/src/application/optimization/route-planner.service.ts:116-126 | an order goes where the feasible route is shortest, of several such places to the one with the smallest pickup and then dropoff index |
| `PlanReports.FeasibleExactly` | apps/dispatch-service/src/application/optimization/route-planner.service.ts:131-146 | feasible means nothing picked up twice or dropped off before its pickup, every load in bounds and none left at the end |
| `Decimals.ToFixedNearest` | apps/dispatch-service/src/application/optimization/route-planner.service.ts:195 | rounding gives the nearest number with the places kept, of two equally near ones the one farther from zero |
| `CircuitBreaking.InvHolds` | apps/dispatch-service/src/infrastructure/resilience/circuit-breaker.ts:46-117 | in every interleaving of calls, HALF_OPEN counts exactly the probes admitted since it was entered, within the limit and all running, and the failure count is the streak of counted failures, below the threshold |
| `CircuitBreaking.RefusalHasLiveProbe` | apps/dispatch-service/src/infrastructure/resilience/circuit-breaker.ts:55-62 | a breaker that refuses for lack of permits has a running probe whose completion opens it again from that moment or closes it |
| `CircuitBreaking.FirstCompletionDecides` | apps/dispatch-service/src/infrastructure/resilience/circuit-breaker.ts:90-99 | in every run the first call to complete while HALF_OPEN opens the breaker again from that moment if it is a counted failure, and closes it otherwise |
| `CircuitBreaking.FailedProbeShuts` | apps/dispatch-service/src/infrastructure/resilience/circuit-breaker.ts:95-109 | when the last running call fails as a probe, nothing is admitted and nothing changes for another reset time |
| `CircuitBreaking.SuccessCloses` | apps/dispatch-service/src/infrastructure/resilience/circuit-breaker.ts:90-93 | in every state a success or ignored failure closes the breaker and forgets the failures |
| `CircuitBreaking.AdmittedExactly` | apps/dispatch-service/src/infrastructure/resilience/circuit-breaker.ts:46-62 | a closed breaker admits every call, an open one exactly after its reset time, and a half-open one exactly while fewer probes run than the limit, and what each changes |
| `CircuitBreaking.FinallyNeverFires` | apps/dispatch-service/src/infrastructure/resilience/circuit-breaker.ts:79-81 | a completion always leaves HALF_OPEN, so the decrement in the finally block never happens |
| `CircuitBreaking.TripsAtThreshold` | apps/dispatch-service/src/infrastructure/resilience/circuit-breaker.ts:95-103 | outside HALF_OPEN a counted failure opens the breaker exactly when it is the threshold-th in a row |
| `CircuitBreaking.SequentialFailures` | apps/dispatch-service/src/infrastructure/resilience/circuit-breaker.ts:95-109 | calls failing one after another open a closed breaker at exactly the threshold-th failure |
| `CircuitBreaking.OpenWindow` | apps/dispatch-service/src/infrastructure/resilience/circuit-breaker.ts:84-93 | within the reset time the breaker stays open exactly as long as no earlier call completes with a success or an ignored failure, and then starts no operation |
| `CircuitBreaking.SequentialOpening` | apps/dispatch-service/src/infrastructure/resilience/circuit-breaker.ts:84-109 | without overlapping calls, the threshold-th consecutive counted failure opens a closed breaker, and then for the reset time, whatever is called, the breaker does not change and starts no operation |
| `CircuitBreaking.IdleStaysOpen` | apps/dispatch-service/src/infrastructure/resilience/circuit-breaker.ts:46-53 | an open breaker with nothing running is left unchanged and admits nothing by any run within its reset time |
| `CircuitBreaking.LateSuccessCloses` | apps/dispatch-service/src/infrastructure/resilience/circuit-breaker.ts:90-93 | one late success closes an open breaker at once |
| `CircuitBreaking.LateSuccessHappens` | apps/dispatch-service/src/infrastructure/resilience/circuit-breaker.ts:64-67 | for every configuration a run of overlapping calls opens the breaker and then, at the very same time, closes it by such a success |
| `CircuitBreaking.NoPermitStaysShut` | apps/dispatch-service/src/infrastructure/resilience/circuit-breaker.ts:56-60 | with a limit below one an idle half-open breaker refuses every call for ever |
| `CircuitBreaking.RetryNeedsPermit` | apps/dispatch-service/src/infrastructure/resilience/circuit-breaker.ts:55-62 | the next call after the reset time is admitted exactly when the limit is at least one |
| `CircuitBreaking.CircuitBreaker.Begin` | apps/dispatch-service/src/infrastructure/resilience/circuit-breaker.ts:46-62 | a call is admitted exactly when the breaker, after its reset time if due, is closed or half-open with a permit left, which is then taken |
| `CircuitBreaking.CircuitBreaker.Complete` | apps/dispatch-service/src/infrastructure/resilience/circuit-breaker.ts:64-81 | the breaker after a completion, which FirstCompletionDecides, SuccessCloses and TripsAtThreshold determine in every state of every run |
| `LocationStores.ConvergesExactlyWhenConsistent` | apps/tracking-service/src/infrastructure/postgis/postgis-location-history.repository.ts:21-48 | any order and repetition of the samples gives the same tables if and only if samples with equal driver and time carry equal data |
| `LocationStores.LatestIsNewest` | apps/tracking-service/src/infrastructure/postgis/postgis-location-history.repository.ts:33-46 | the latest row always carries the newest time in the history of its driver |
| `LocationStores.LatestIsLast` | apps/tracking-service/src/infrastructure/postgis/postgis-location-history.repository.ts:33-46 | for any samples the latest row is the driver's newest sample, of equally new ones the last to arrive |
| `LocationStores.HistoryIsFirst` | apps/tracking-service/src/infrastructure/postgis/postgis-location-history.repository.ts:27-32 | for any samples a history row is the first sample that arrived for its driver and time |
| `LocationStores.StoresAgree` | apps/tracking-service/src/infrastructure/redis/redis-live-location.store.ts:32-49 | the live store and the tables agree on every driver when fed the same consistent samples in any orders, none expiring |
| `LocationStores.LocationHistoryRepository.Append` | apps/tracking-service/src/infrastructure/postgis/postgis-location-history.repository.ts:21-48 | one history row per driver and time, the first kept; the latest row replaced unless it is newer |
| `LocationStores.LiveLocationStore.Upsert` | apps/tracking-service/src/infrastructure/redis/redis-live-location.store.ts:27-66 | the live sample and its position are replaced together unless the stored one is newer, and the answer says whether they were |
| `LocationStores.LiveLocationStore.FindNearby` | apps/tracking-service/src/infrastructure/redis/redis-live-location.store.ts:83-104 | the filter loop keeps the longest prefix of the live, fresh and allowed drivers of the search that fits the limit, or one entry for a limit of zero |
| `LocationStores.LiveLocationStore.KeptSound` | apps/tracking-service/src/infrastructure/redis/redis-live-location.store.ts:88-100 | each entry is a live, allowed driver no older than the maximum age |
| `LocationStores.LiveLocationStore.KeptInOrder` | apps/tracking-service/src/infrastructure/redis/redis-live-location.store.ts:88-100 | every allowed, live and fresh member of the search is kept, in the order of the search, with its sample, age and distance to the metre |
| `LocationStores.AgeMeans` | apps/tracking-service/src/infrastructure/redis/redis-live-location.store.ts:94 | the age is the number of whole seconds since the sample was received, none if it is ahead |
| `LocationStores.LiveLocationStore.KeptSorted` | apps/tracking-service/src/infrastructure/redis/redis-live-location.store.ts:75-100 | a nearest-first search stays nearest first after filtering and rounding |
| `DriverScoring.RankIsSortedPermutation` | apps/dispatch-service/src/application/scoring/driver-scoring.service.ts:50-97 | the ranking is a sorted permutation of the scored candidates; ScoreMeaning says what the scores and the order mean |
| `ScoreMeaning.RankedExactly` | apps/dispatch-service/src/application/scoring/driver-scoring.service.ts:59-62 | exactly the located drivers listed with free capacity are ranked, with their own records |
| `ScoreMeaning.RankedInOrder` | apps/dispatch-service/src/application/scoring/driver-scoring.service.ts:96 | higher scores come first, of equal scores the closer driver, of equally close ones the smaller id |
| `ScoreMeaning.DistanceWorth` | apps/dispatch-service/src/application/scoring/driver-scoring.service.ts:63-72 | of two candidates alike but for the distance, the score differs by a hundred times the distance weight times the share of the radius between them |
| `ScoreMeaning.CapacityWorth` | apps/dispatch-service/src/application/scoring/driver-scoring.service.ts:64-72 | the like for free capacity |
| `ScoreMeaning.LoadWorth` | apps/dispatch-service/src/application/scoring/driver-scoring.service.ts:65-72 | the like for the load |
| `ScoreMeaning.FreshnessWorth` | apps/dispatch-service/src/application/scoring/driver-scoring.service.ts:66-72 | the like for the age of the location |
| `ScoreMeaning.NothingScoresNothing` | apps/dispatch-service/src/application/scoring/driver-scoring.service.ts:63-72 | a candidate with nothing in its favour scores zero, which with the four differences determines the score |
| `ScoreMeaning.WorthIsBounded` | apps/dispatch-service/src/application/scoring/driver-scoring.service.ts:63-66 | beyond the radius and the maximum age, and past full and empty, the score does not change any more |
| `ScoreMeaning.MinutesSuffice` | apps/dispatch-service/src/application/scoring/driver-scoring.service.ts:73-74 | the estimate is the smallest whole number of minutes, at least one, in which the way can be driven |
| `ScoreMeaning.RiskMeans` | apps/dispatch-service/src/application/scoring/driver-scoring.service.ts:75-77 | a breach is beyond the minutes promised for the priority, at risk their last fifth |
| `ScoreMeaning.RecordMeans` | apps/dispatch-service/src/application/scoring/driver-scoring.service.ts:78-93 | a record holds its own driver's data, and its score and components to the given places |
| `ScoreMeaning.ByIdIsLast` | apps/dispatch-service/src/application/scoring/driver-scoring.service.ts:56 | of several entries for a driver the last listed counts |
| `DriverScoring.RankOrderIndependent` | apps/dispatch-service/src/application/scoring/driver-scoring.service.ts:56-96 | with distinct ids the ranking does not depend on the order of its inputs |
| `DriverScoring.DominatingFirst` | apps/dispatch-service/src/application/scoring/driver-scoring.service.ts:63-96 | with non-negative weights and positive scales, a strictly closer candidate no worse in capacity, load and freshness comes before the other at every position of the ranking, rounding included, in whatever order and with whatever repetitions the inputs come |
| `DriverScoring.TakenDriverUndominated` | apps/driver-service/src/infrastructure/persistence/typeorm/typeorm-driver-reservation.transaction.ts:59-69 | whatever rows others have locked, the reservation loop takes a driver that no other eligible ranked driver with an unlocked row dominates |

## Left out

- Sagas.RunKeepsInv: handler runs of the order service and availability changes are single steps, because they take no lock; a lost update between two of them is not modelled.
- Sagas.OneDispatchPerOrder: ids and event ids are drawn unused; a collision of random ids is not modelled.
- SagaLeaks.QuietCapacity: says nothing about messages left in the dead-letter queue; their redelivery by an operator is a step like any other redelivery.
- SagaDrain.RunsEnd: does not say that the timeout job runs; a crash between the start of a dispatch and the scheduling of its job leaves no job.
- ReservationLocks.NoDeadlock: fairness of lock queues, lock timeouts and the time at which an outbox row becomes available are not modelled.
- ReservationLocks.EveryRunRefines: the driver query without candidates may lock any set of free eligible rows that contains its pick, because the query has no limit of one row; the order of that query is stated by Reservations.ReservationStore.QueryLeastBusy.
- Reliability.NothingLost: outbox rows are taken by any number of workers at any time; polling intervals, batches and back-off times are left to Outbox.dfy.
- Outbox.OutboxWorker.Flush: a save that fails after a publish is a crash of the worker in Reliability.dfy and does not occur here.
- RoutePlanner.PlanBounds: the great-circle formula and floating point; distances are exact reals of an abstract metric, and NaN does not occur.
- CircuitBreaking.InvHolds: hooks and call timings; a failure classifier that throws.
- LocationStores.StoresAgree: expiry of live samples; after an expiry an older sample can become current.
- LocationStores.LiveLocationStore.FindNearby: completeness of the search, which fetches only three times the limit before filtering, and malformed rows of the search result.
- DriverScoring.RankIsSortedPermutation: divisors that are zero, for which the source computes with infinities, and locale-aware comparison of ids, which is a total order on ids here.
- The history query of the tracking service: a sorted and limited view of the history table.
- Consumers.Consumer.Process: rows that other consumers mark or delete while the operation runs are left to Reliability.dfy.
- Drivers.Driver.Create: the display name is checked but not kept, nor is it trimmed.
- Correlation ids, priorities beyond their scoring, timestamps of rows, JSON encoding, and the stored dispatch decision: carried along without effect.
- Idempotent order creation and the look-up before a dispatch is started: repeats of the unique-key argument.
- HTTP controllers, the gateway, the console, clients, metrics, health checks and deployment files.
