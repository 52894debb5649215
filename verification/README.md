# The service-order saga, verified

A Dafny model of the OS Service of a vehicle workshop: the orchestrated saga of a service order with its stock
reservations, its transactional outbox and its idempotent consumer; the protocols that carry the messages; and the check
digits of Brazilian tax ids.

`dafny verify dfyconfig.toml` checks the whole project.

## How it is built

- **The machine** (`Entities`, `StateMachine`, `Machine`). The database is a value: orders with lines, version, timestamps
  and status history; items with stock and reserved quantities; the outbox; the processed message ids. Each use case is one
  step that commits a database satisfying every constraint of the schema (CHECK, UNIQUE and FOREIGN KEY) or changes nothing.
  The saga's steps are written as tables (expected status, stock movement, written fields, commands sent), independently of
  the code's statements. Billing, Execution and Payment are an arbitrary environment: any reply or dead command, for any order,
  at any time, with any id, and with any result of the reads of customers and services.
- **What every run keeps** (`Stock`, `History`, `Commands`, `Reachable`, `Progress`, `ExactlyOnce`, `Ties`). One inductive
  invariant over all steps, and the theorems it gives on every run from an empty database.
- **What each step means** (`Effects`, `Edits`, `Stories`). For every message and every operation, said of the database before
  and after and without the machine's tables: when it is applied, ignored or refused, and which fields, rows and units it
  changes; and over whole runs, that an order is what its events tell.
- **Concurrency** (`SplitPhase`, `Relay`, `Consumer`). Saga handlers and the delivery split into begin, read and commit with
  anything in between, refining the atomic machine; any number of relays and of pollers, each able to die between any two
  of their steps.
- **The code's own form** (`Database`, `Orchestrator`, `UseCases`, `Measured`, `OutboxRelay`, `QueuePoller`). Classes and
  methods that follow the source statement by statement, loops and early exits included, each proved to do what the machine
  or the protocol says. What is proved of every run therefore holds of these methods.
- **Pure parts** (`Budget`, `TaxId`).

Assumptions, stated once:

- The four use cases that edit lines pass no expected version, so each is one atomic step here; nothing is claimed of
  interleavings inside them.
- The outbox is a sequence in commit order, and every row names its transaction. When each transaction began is an arbitrary
  function of it: transactions may share a time (the column keeps milliseconds) or commit in another order than they began.
  What depends on these times says so.
- Row locks make the guard of a conditional UPDATE see the row as it is at commit, which is where the split commits
  evaluate it.

Where documentation and code disagree, the model follows the code:

- The table in docs/architecture/adr/ADR-014-saga-orquestrada.md:90 accepts `BudgetCancelled` in REJECTED or CANCELLED; the code
  accepts it in CANCELLED only (src/use-cases/saga/ServiceOrderSaga.ts:42).
- src/use-cases/saga/messages.ts:31 says an applied reply moved the order forward; a stored budget total, a confirmed
  compensation and a reported dead command are applied without moving it.
- src/use-cases/messaging/PublishPendingMessagesUseCase.ts:12 says a later message never overtakes an earlier one, and
  src/adapters/gateways/PrismaOutboxStore.ts:9-11 that the order per destination and order is preserved. The first holds exactly
  when transactions began at different times, in the order in which they committed, and no order was cancelled after its approval
  (`Relay.PrefixExactly`); whatever the times, a failed payment breaks it (`Relay.PrefixFails`). The second holds for two messages
  exactly when the transaction that stored the first began before the other's (`Relay.AnySortKeepsOrder`).
- One wrong digit of a tax id can go unnoticed; `TaxId.CpfCatchesOneDigit` and `TaxId.CnpjCatchesOneDigit` say exactly when, and
  `TaxId.CpfDigitOneBlind`, `TaxId.CpfDigitSixBlind` and `TaxId.CnpjDigitsBlind` give accepted numbers for every such digit.

## Model

| member | source | states |
|---|---|---|
| Reachable.ReservationsConserved | src/use-cases/saga/ServiceOrderSaga.ts:229-276 | in every reachable state an item's reserved quantity is the sum of its line quantities over the orders in RECEIVED, DIAGNOSIS, WAITING_APPROVAL or APPROVED, and lies between 0 and its stock |
| Reachable.StockLedger | src/use-cases/saga/ServiceOrderSaga.ts:247-276 | on every run an item's stock is what was supplied minus the line quantities of the orders that were paid, so a reservation ends once, by release or by consumption |
| Reachable.HistoriesArePaths | src/adapters/gateways/PostgresServiceOrderRepository.ts:179-183 | every order's history opens in RECEIVED, chains legal transitions to the current status, has at most 8 entries less what its status can still make, and matches which of the three timestamps are set |
| Reachable.SentIsListed | src/use-cases/saga/ServiceOrderSaga.ts:217-276 | the commands of an order in the outbox, their destinations and the lines or tasks they carry are those its history asks for, in order |
| Reachable.CommandsFollowHistory | src/use-cases/saga/ServiceOrderSaga.ts:217-276 | each command at most once per order whatever arrives; CancelExecution exactly when rejected or cancelled after the diagnosis began, CancelBudget exactly when cancelled after approval, EnqueueRepair exactly when paid |
| Reachable.ListedByHistory | src/use-cases/saga/ServiceOrderSaga.ts:307-322 | which commands a history asks for, read off the statuses it passed |
| Reachable.LinesFrozen | src/use-cases/saga/ServiceOrderSaga.ts:174-178 | once an order left the diagnosis its item and service lines never change again |
| Reachable.BilledIsConsumed | src/use-cases/saga/ServiceOrderSaga.ts:247-262 | a confirmed payment takes from every item exactly the quantity billed by the order's GenerateBudget command, which is in the outbox, and enqueues one task per service it billed |
| Reachable.PaidIsFinal | src/use-cases/saga/ServiceOrderSaga.ts:241-246 | once a history contains PAID the order is never rejected or cancelled, its lines stay, and no cancel command is ever written for it |
| Reachable.PaidOrderKeepsStock | src/use-cases/saga/ServiceOrderSaga.ts:329-337 | a message about a paid order moves no stock and compensates nothing; a dead command then only reports |
| Relay.AnySortKeepsOrder | src/adapters/gateways/PrismaOutboxStore.ts:9-16 | two messages about one order to one destination come from different transactions, and every sort of the pending rows by creation time, however ties are broken, keeps their order if and only if the first transaction began before the other |
| Reachable.RunKeepsInv | src/use-cases/ports/IUnitOfWork.ts:14-20 | the invariant holds after every run; orders and outbox rows are never lost, histories only grow |
| Reachable.StepKeepsInv | src/use-cases/ports/IUnitOfWork.ts:14-20 | every use case, committed or aborted, keeps the invariant |
| Reachable.StepKeepsReservations | src/adapters/gateways/PostgresItemRepository.ts:58-93 | every use case keeps reserved quantities equal to what live orders hold, items that come and go included |
| Progress.NeverStuck | src/use-cases/saga/ServiceOrderSaga.ts:349-366 | in every reachable state a new message for an order in its expected status is applied if and only if it does not complete the diagnosis for a deactivated customer or bring a total that is no amount; compensation and consumption always go through |
| Effects.Verdicts | src/use-cases/saga/ServiceOrderSaga.ts:29-65 | for every kind of message, by the status of the order and what was read: a new one is applied, ignored with only its id recorded, or fails; a dead CancelExecution or CancelBudget fits every status |
| Effects.VerdictsOnRuns | src/use-cases/saga/ServiceOrderSaga.ts:111-142 | the same in every reachable state when the reads see the database: only a deactivated customer and a total that is no amount stop a message that fits |
| Effects.RepeatChangesNothing | src/use-cases/saga/ServiceOrderSaga.ts:118-120 | a repeated id is reported as a duplicate and changes nothing |
| Effects.UnknownOrderIsIgnored | src/use-cases/saga/ServiceOrderSaga.ts:122-130 | a message for no order is ignored, its id recorded |
| Effects.DeadCancellationIsReported | src/use-cases/saga/ServiceOrderSaga.ts:62-64 | a new dead CancelExecution or CancelBudget, whatever became of the order, is applied and reported to a person, and changes only the recorded ids |
| Effects.ConfirmationIsApplied | src/use-cases/saga/ServiceOrderSaga.ts:39-42 | on every run, if a cancel command was sent for an order, its new confirmation is applied and changes only the recorded ids |
| Effects.AppliedToTheOrder | src/use-cases/saga/ServiceOrderSaga.ts:170-322 | what each applied message makes of its order, field by field: status, dates, total, version and history; every other order, service and customer as before |
| Effects.AppliedReport | src/use-cases/saga/ServiceOrderSaga.ts:92-105 | the report of an applied message: its compensation, whether a person has to look, whether the status is new |
| Effects.AppliedToTheStock | src/use-cases/saga/ServiceOrderSaga.ts:247-276 | what each applied message does to each item: a compensation frees the order's units, a payment takes them out, names and prices stay |
| Effects.AppliedToTheOutbox | src/use-cases/saga/ServiceOrderSaga.ts:182-187 | the rows each applied message appends, in order, with destination, reason and payload: the customer's name and email, each service and item named and priced as it was read, each task named |
| Effects.EveryMoveIsMade | src/entities/serviceOrderStateMachine.ts:4-15 | the state machine allows exactly the moves that some message or the delivery makes |
| Edits.OpeningExactly | src/use-cases/service-orders/CreateServiceOrderUseCase.ts:13-42 | an opening goes through if and only if its customer, services and items are there, each once, with the units of every line free; then the order starts with exactly what was asked, the units are reserved and the diagnosis requested |
| Edits.AddServiceExactly | src/use-cases/service-orders/AddServiceToOSUseCase.ts:13-26 | goes through if and only if the order is in diagnosis, the service exists and is not in it; it then comes last and nothing else changes |
| Edits.RemoveServiceExactly | src/use-cases/service-orders/RemoveServiceFromOSUseCase.ts:9-19 | goes through if and only if the order is in diagnosis and has the service; the other services stay in order and nothing else changes |
| Edits.DroppedMembers | src/use-cases/service-orders/RemoveServiceFromOSUseCase.ts:16 | exactly the services other than the dropped one are left |
| Edits.DroppedAt | src/use-cases/service-orders/RemoveServiceFromOSUseCase.ts:16 | what is before and after the dropped service, in order |
| Edits.AddItemExactly | src/use-cases/service-orders/AddItemToOSUseCase.ts:11-29 | goes through if and only if the order is in diagnosis, the item exists, so many units are free and the line ends up positive |
| Edits.AddItemByFields | src/use-cases/service-orders/AddItemToOSUseCase.ts:22-27 | the item's line has so many more units, or a new last line has them, as many more are reserved, and nothing else changes |
| Edits.RemoveItemExactly | src/use-cases/service-orders/RemoveItemFromOSUseCase.ts:11-25 | goes through if and only if the order is in diagnosis and has a line of the item |
| Edits.RemovedItem | src/use-cases/service-orders/RemoveItemFromOSUseCase.ts:19-24 | the line is gone, the others stay in order, its units are free again, and nothing else changes |
| Edits.DeliveryExactly | src/use-cases/service-orders/DeliverOSUseCase.ts:14-24 | goes through if and only if the order is finished; it is dated and recorded, and nothing else changes |
| Edits.CreateItemExactly | src/use-cases/items/CreateItemUseCase.ts:14-18 | goes through if and only if the numbers are not negative and the id is new; the item is as given, with nothing reserved |
| Edits.UpdateItemExactly | src/use-cases/items/UpdateItemUseCase.ts:9-15 | goes through if and only if the item exists, the price is not negative and the stock covers what is reserved; given fields are written and the rest kept |
| Edits.DeleteItemExactly | src/use-cases/items/DeleteItemUseCase.ts:7-14 | goes through if and only if the item exists and no order, finished or not, has a line of it |
| Edits.EditCatalogueExactly | prisma/schema.prisma:134 | services and customers may change in any way that keeps what orders refer to and no negative price |
| Stories.OrdersTellTheirStory | src/adapters/gateways/PostgresServiceOrderRepository.ts:102-187 | on every run an order's services and units are the opened ones with the edits that went through, its total that of the last applied BudgetGenerated or none, its dates those of the events they name |
| Stories.StepHeard | src/adapters/gateways/PostgresServiceOrderRepository.ts:124-187 | every step, committed or aborted, keeps that true of every order and item |
| Progress.EffectApplies | src/use-cases/saga/ServiceOrderSaga.ts:111-142 | the same for whatever the reads returned: applied if and only if what the message needs could be read and its total is allowed |
| Progress.StockAlwaysSuffices | src/use-cases/saga/ServiceOrderSaga.ts:349-355 | every release or consumption of the loop finds its guard true |
| Progress.LineWithinReservation | src/adapters/gateways/PostgresItemRepository.ts:69-93 | the line of a live order never exceeds what is reserved of its item, which never exceeds the stock |
| Progress.StockStaysConsistent | docs/architecture/data-model.md:88-89 | moving the stock of an expected message keeps the CHECK constraints of every item |
| Progress.EffectKeepsConstraints | prisma/schema.prisma:128-151 | of all the schema's constraints an answerable message can only break the sign of the budget total |
| Progress.DeliveryApplies | src/use-cases/service-orders/DeliverOSUseCase.ts:14-25 | the manual delivery goes through if and only if the order is finished |
| ExactlyOnce.EffectExactlyOnce | src/use-cases/saga/ServiceOrderSaga.ts:111-142 | any sequence of attempts with repeats, aborts and crashes ends in the database of the first committed delivery of each message id alone |
| ExactlyOnce.FirstDeliveriesDistinct | src/adapters/gateways/PrismaProcessedMessages.ts:7-16 | what is kept delivers no message twice |
| ExactlyOnce.CountersAgree | src/adapters/decorators/MeasuredServiceOrderSaga.ts:18-37 | without crashes before the count, BUDGET_REJECTED counts the rejected orders, PAYMENT_FAILED plus STEP_FAILED the cancelled ones, and notifications the non-opening history entries |
| ExactlyOnce.StepAgrees | src/use-cases/saga/ServiceOrderSaga.ts:92-105 | each step's report changes the counters by what it changes in the order table |
| Stock.StepBalanced | src/use-cases/saga/ServiceOrderSaga.ts:229-276 | every committed step moves the reserved quantity with what live orders hold, and stock plus what was used only with the supply |
| Stock.MessageBalanced | src/use-cases/saga/ServiceOrderSaga.ts:247-276 | both balances of every item for every message of the saga |
| Stock.OpeningBalanced | src/use-cases/service-orders/CreateServiceOrderUseCase.ts:19-41 | both balances for an opening |
| Stock.LineEditBalanced | src/use-cases/service-orders/RemoveItemFromOSUseCase.ts:11-26 | both balances for adding and removing items and services, absolute reserved quantity included |
| Stock.DeliveryBalanced | src/use-cases/service-orders/DeliverOSUseCase.ts:14-25 | both balances for the delivery |
| Stock.UnknownItemUnheld | prisma/schema.prisma:147 | nothing holds or used an item that is not in the catalogue, so a deleted item leaves no debt |
| StateMachine.TransitionsLowerTheRank | src/entities/serviceOrderStateMachine.ts:4-15 | every legal transition lowers a rank, never leaves the paid statuses, and undoes only what still holds its reservation |
| History.ChainBound | src/entities/serviceOrderStateMachine.ts:4-15 | a history has at most 8 entries less the rank of its last status |
| History.PathDetermined | src/entities/serviceOrderStateMachine.ts:4-15 | the statuses of a history are determined by its last one, and by where it was cancelled from |
| History.PaidOnPath | src/entities/serviceOrderStateMachine.ts:4-15 | having passed PAID and being in a paid status are the same |
| History.WriteRecorded | src/adapters/gateways/PostgresServiceOrderRepository.ts:166-183 | a legal write that dates the status it enters keeps history and timestamps in agreement |
| History.StepRecorded | src/adapters/gateways/PostgresServiceOrderRepository.ts:117-119 | every step keeps every order's history a path in agreement with its status and timestamps |
| Commands.MessageSendsWhatIsDue | src/use-cases/saga/ServiceOrderSaga.ts:229-239 | a message writes to the outbox exactly what the history entry it causes asks for |
| Commands.LinesNotYetSent | src/use-cases/saga/ServiceOrderSaga.ts:174-178 | during the diagnosis nothing that carries lines has been sent, whatever the lines become |
| Commands.StepAnnounced | src/use-cases/saga/ServiceOrderSaga.ts:217-276 | every step keeps each order's outbox commands equal to those its history asks for |
| Commands.StepStamped | src/adapters/gateways/PrismaOutboxStore.ts:9-11 | transactions follow the outbox, and none writes two messages about an order to one destination |
| SplitPhase.SplitRefinesAtomic | src/use-cases/saga/ServiceOrderSaga.ts:369-377 | every run in which versioned writers begin, read and commit separately, with anything in between and any result of each read, ends in a database the atomic machine reaches |
| SplitPhase.SplitRefinesWith | src/use-cases/saga/ServiceOrderSaga.ts:111-142 | the same with any set of effectless messages still to commit already recorded |
| SplitPhase.CommitIsAtomic | src/adapters/gateways/PostgresServiceOrderRepository.ts:131-144 | a commit finds another version and changes nothing, or its snapshot is the current order and it is exactly the atomic step |
| SplitPhase.StaleHandleOnDb | src/adapters/gateways/PostgresServiceOrderRepository.ts:135-144 | on the database a versioned commit is the atomic step if and only if the version is still the one read, and nothing otherwise |
| SplitPhase.StaleDeliveryOnDb | src/use-cases/service-orders/DeliverOSUseCase.ts:15-21 | the same for the delivery |
| SplitPhase.RunKeepsSplitInv | src/adapters/gateways/PostgresServiceOrderRepository.ts:131-144 | on every run a version determines one snapshot of an order, and no two transactions in progress hold one message id |
| SplitPhase.MoveOnDb | src/use-cases/saga/ServiceOrderSaga.ts:111-142 | each split move is an atomic step, the record of one quiet message, or nothing to the database |
| SplitPhase.SplitRunsConserveStock | src/adapters/gateways/PostgresItemRepository.ts:53-93 | reservations and the stock ledger survive every interleaving of versioned writers |
| SplitPhase.AloneIsAtomic | src/use-cases/saga/ServiceOrderSaga.ts:111-142 | begin, read and commit in a row are the atomic step, whatever other transactions are open |
| SplitPhase.DeliveryAlone | src/use-cases/service-orders/DeliverOSUseCase.ts:14-21 | begin and commit in a row are the atomic delivery |
| SplitPhase.AtomicIsSplit | src/use-cases/ports/IUnitOfWork.ts:14-20 | every run of the atomic machine is a split run |
| Relay.NothingLost | src/use-cases/messaging/PublishPendingMessagesUseCase.ts:15-17 | with any number of relays dying anywhere, a published row was sent, and from every state of every run some further moves of a relay send any given row |
| Relay.RowsStay | src/use-cases/messaging/PublishPendingMessagesUseCase.ts:15-17 | whatever relays and writers do, rows stay where they are in the outbox and what was sent stays sent |
| Relay.RelaysDisturbNothing | src/use-cases/messaging/PublishPendingMessagesUseCase.ts:19-28 | whatever relays do, the database is what the use cases among their moves make of it |
| Relay.NeverOvertakes | src/adapters/gateways/PrismaOutboxStore.ts:8-16 | for any begin times, no row is sent before one stored earlier by a transaction that began earlier; when begin times rise with commits, none before an earlier one of its order to the same destination |
| Relay.SentIsPrefix | src/use-cases/messaging/PublishPendingMessagesUseCase.ts:10-13 | on every run, service writing included, the first occurrences of the sent rows are a prefix of the outbox as long as its creation times rise |
| Relay.PrefixExactly | src/use-cases/messaging/PublishPendingMessagesUseCase.ts:10-13 | for every reachable outbox and any begin times, everything relays may send is such a prefix if and only if transactions began at different times in commit order and no order was cancelled after its approval |
| Relay.RisingExactly | src/adapters/gateways/PrismaOutboxStore.ts:9-16 | creation times rise along a reachable outbox under exactly that condition |
| Relay.PrefixFails | src/use-cases/messaging/PublishPendingMessagesUseCase.ts:10-13 | whatever the begin times, a run of use cases and then of one relay that sends a row before an earlier one |
| Relay.InversionBreaksPrefix | src/adapters/gateways/PrismaOutboxStore.ts:9-16 | wherever creation times do not rise, the moves of a relay that sends a row and dies before an earlier one |
| Relay.RunKeepsInv | src/use-cases/messaging/PublishPendingMessagesUseCase.ts:19-28 | the invariant of concurrent relays: what is older than a pending row was sent or comes before it in the batch |
| Relay.RoundsSendAndMark | src/use-cases/messaging/PublishPendingMessagesUseCase.ts:22-25 | n rounds of a relay send and mark the first n rows of its batch, in order |
| Relay.CycleAmongOthers | src/use-cases/messaging/PublishPendingMessagesUseCase.ts:22-25 | a relay sends and marks the rows of its batch in turn whatever other relays and the service do between any two of its steps |
| Ties.TieFreeExactly | src/use-cases/saga/ServiceOrderSaga.ts:269-276 | in every reachable state no two outbox rows come from one transaction if and only if no order was cancelled after its approval |
| Ties.RunPaired | src/use-cases/saga/ServiceOrderSaga.ts:307-322 | two rows of one transaction are always the CancelExecution and the CancelBudget of one order, next to each other, and every CancelBudget has its pair |
| Ties.PaymentFailureTies | src/use-cases/saga/ServiceOrderSaga.ts:269-276 | from every reachable state, the payment failure of an approved order leaves two rows of one transaction |
| Ties.ReachableTie | src/use-cases/saga/ServiceOrderSaga.ts:269-276 | a run from an empty database that leaves two rows of one transaction |
| Consumer.DeletedWasHandled | src/frameworks/messaging/SqsQueuePoller.ts:96-120 | with several pollers, redelivery and crashes, a deleted message was handled and its id recorded |
| Consumer.OrderHandledInSequence | src/frameworks/messaging/SqsQueuePoller.ts:64-82 | the first committed handlings of one order's messages follow queue order, skipping only messages already dead-lettered |
| Consumer.RedeliveryIsHarmless | src/use-cases/saga/ServiceOrderSaga.ts:111-142 | however often messages come back, the database is the one of the first committed handling of each, and those deliver no id twice |
| Consumer.CanBeHandled | src/frameworks/messaging/SqsQueuePoller.ts:96-120 | from every state of every run, a message queued now can be received, handled and deleted by further moves, if its handling commits, and its effect is the only one |
| Consumer.TraceReaches | src/frameworks/messaging/SqsQueuePoller.ts:96-120 | the committed operations of a run of the queues, in order, produce its database |
| Consumer.RunKeepsInv | src/frameworks/messaging/SqsQueuePoller.ts:64-82 | the invariant of concurrent pollers: everything ahead of a received message was handled, dead-lettered or comes before it in the batch |
| Budget.SnapshotKeepsShape | src/use-cases/saga/buildBudgetLines.ts:13-27 | fails if and only if an entry is missing; otherwise one line per service, then one per item, in order, each at the first catalogue entry with its id |
| Budget.SnapshotKeepsValue | src/use-cases/saga/buildBudgetLines.ts:13-27 | the sum of unit price times quantity is the order priced directly |
| Budget.SnapshotOfCatalogue | src/use-cases/saga/ServiceOrderSaga.ts:195-205 | reading the entries one by one and pricing what was found gives the catalogue's own lines, or fails |
| Budget.FindIsFirst | src/use-cases/saga/buildBudgetLines.ts:15-16 | the search returns the first entry with the id, and none if and only if there is none |
| TaxId.ValidateCpf | src/entities/validators.ts:1-19 | accepts exactly eleven digits, not all equal, with both check digits |
| TaxId.ValidateCnpj | src/entities/validators.ts:21-42 | accepts exactly fourteen digits, not all equal, with both check digits |
| TaxId.ValidateTaxId | src/entities/validators.ts:62-66 | chooses the validator by the type |
| TaxId.CalcCpfDigit | src/entities/validators.ts:6-13 | the loop computes the check digit of the weighted sum, and the CPF formula gives what the CNPJ formula gives |
| TaxId.CalcCnpjDigit | src/entities/validators.ts:26-33 | the loop computes the check digit of the weighted sum |
| TaxId.SameFormula | src/entities/validators.ts:11-12 | the two remainder formulas agree on every sum |
| TaxId.PunctuationIsIgnored | src/entities/validators.ts:2 | inserting characters that are not digits anywhere never changes the answer |
| TaxId.WrittenDigits | src/entities/validators.ts:2 | reading back written digits gives them again |
| TaxId.CpfCatchesOneDigit | src/entities/validators.ts:1-19 | one wrong digit of an accepted CPF is accepted if and only if it is digit 1 and the first remainder flips between 0 and 1, or digit 6 and both do |
| TaxId.CnpjCatchesOneDigit | src/entities/validators.ts:21-42 | one wrong digit of an accepted CNPJ is accepted if and only if it is digit 1, 5 or 9 and both remainders flip |
| TaxId.CpfDigitOneBlind | src/entities/validators.ts:11-12 | two accepted CPFs that differ only in digit 1 |
| TaxId.CpfDigitSixBlind | src/entities/validators.ts:11-12 | two accepted CPFs that differ only in digit 6 |
| TaxId.CnpjDigitsBlind | src/entities/validators.ts:31-32 | one accepted CNPJ and, for each of digits 1, 5 and 9, another that differs only there |
| TaxId.CpfCompletions | src/entities/validators.ts:15-18 | a 9-digit prefix has exactly one accepted completion, its check digits, unless its digits are all equal, when it has none |
| TaxId.CnpjCompletions | src/entities/validators.ts:38-41 | a 12-digit prefix has exactly one accepted completion unless it is all zeros, when it has none |
| Orchestrator.ServiceOrderSaga.Handle | src/use-cases/saga/ServiceOrderSaga.ts:92-97 | leaves the database where the machine's step leaves it, returns its report or fails with nothing changed, and notifies exactly after a committed new status |
| Orchestrator.ServiceOrderSaga.HandleFailedCommand | src/use-cases/saga/ServiceOrderSaga.ts:99-105 | the same for a dead command |
| Orchestrator.ServiceOrderSaga.Process | src/use-cases/saga/ServiceOrderSaga.ts:111-142 | record, read, check, apply, then notify is the machine's step, with the rollback of a failure |
| Orchestrator.ServiceOrderSaga.Apply | src/use-cases/saga/ServiceOrderSaga.ts:144-168 | the effect and the report the tables give for the message |
| Orchestrator.TablesAgree | src/use-cases/saga/ServiceOrderSaga.ts:29-65 | the expected-status tables of the code accept what the machine's table accepts |
| Orchestrator.ServiceOrderSaga.DiagnosisCompleted | src/use-cases/saga/ServiceOrderSaga.ts:179-189 | moves to WAITING_APPROVAL and sends the priced snapshot, or fails when it cannot be priced |
| Orchestrator.ServiceOrderSaga.BudgetCommandFor | src/use-cases/saga/ServiceOrderSaga.ts:191-206 | the payload of the machine when the order can be priced, NotFound otherwise |
| Orchestrator.ServiceOrderSaga.BudgetGenerated | src/use-cases/saga/ServiceOrderSaga.ts:209-215 | stores an acceptable total and changes no status |
| Orchestrator.ServiceOrderSaga.BudgetApproved | src/use-cases/saga/ServiceOrderSaga.ts:217-221 | moves to APPROVED and requests the payment |
| Orchestrator.ServiceOrderSaga.BudgetRejected | src/use-cases/saga/ServiceOrderSaga.ts:229-239 | releases every line, rejects, and asks Execution to cancel |
| Orchestrator.ServiceOrderSaga.PaymentConfirmed | src/use-cases/saga/ServiceOrderSaga.ts:247-262 | consumes every line, moves to PAID and enqueues the repair, or fails |
| Orchestrator.ServiceOrderSaga.PaymentFailed | src/use-cases/saga/ServiceOrderSaga.ts:269-276 | releases every line, cancels, and asks both participants to cancel |
| Orchestrator.ServiceOrderSaga.StepFailed | src/use-cases/saga/ServiceOrderSaga.ts:307-322 | releases every line, cancels, and asks the listed participants |
| Orchestrator.ServiceOrderSaga.RepairStarted | src/use-cases/saga/ServiceOrderSaga.ts:278-280 | moves to EXECUTION and dates it |
| Orchestrator.ServiceOrderSaga.RepairCompleted | src/use-cases/saga/ServiceOrderSaga.ts:283-285 | moves to FINISHED and dates it |
| Orchestrator.ServiceOrderSaga.DiagnosisStarted | src/use-cases/saga/ServiceOrderSaga.ts:170-172 | moves to DIAGNOSIS |
| Orchestrator.ServiceOrderSaga.Unchanged | src/use-cases/saga/ServiceOrderSaga.ts:293-300 | confirmations and reports are applied without a write |
| Orchestrator.ServiceOrderSaga.ReleaseReservations | src/use-cases/saga/ServiceOrderSaga.ts:349-355 | the loop succeeds if and only if every line fits its reservation, and then every item moved by its line |
| Orchestrator.ServiceOrderSaga.ConsumeReservations | src/use-cases/saga/ServiceOrderSaga.ts:248-252 | the same for the consumption |
| Orchestrator.ServiceOrderSaga.RepairCommandFor | src/use-cases/saga/ServiceOrderSaga.ts:339-346 | one task per service, in order, or NotFound if and only if one is missing |
| Orchestrator.ServiceOrderSaga.MoveTo | src/use-cases/saga/ServiceOrderSaga.ts:358-366 | succeeds if and only if the state machine allows the move, and then writes exactly it |
| Orchestrator.ServiceOrderSaga.Save | src/use-cases/saga/ServiceOrderSaga.ts:369-377 | the versioned write of the order that was read |
| Orchestrator.MoveStockNext | src/use-cases/saga/ServiceOrderSaga.ts:350-354 | moving one more line in turn is moving all items at once by one more line |
| Orchestrator.NotMovedYet | src/use-cases/saga/ServiceOrderSaga.ts:350-354 | with one line per item, a line's item has not moved before its turn |
| Database.Database.Rollback | src/adapters/gateways/PrismaUnitOfWork.ts:15-24 | all tables as they were when the unit of work began |
| Database.Database.MarkProcessed | src/adapters/gateways/PrismaProcessedMessages.ts:7-16 | records the id, and reports first if and only if it was not recorded |
| Database.Database.AddMessage | src/adapters/gateways/PrismaOutbox.ts:14-27 | appends one row stamped with the beginning of its transaction |
| Database.Database.Reserve | src/adapters/gateways/PostgresItemRepository.ts:58-67 | reserves under its guard, reports no row otherwise, fails on a CHECK violation |
| Database.Database.Release | src/adapters/gateways/PostgresItemRepository.ts:69-80 | gives back under its guard |
| Database.Database.Consume | src/adapters/gateways/PostgresItemRepository.ts:82-93 | takes out of stock and reservation under its guard |
| Database.Database.StoreItem | src/adapters/gateways/PostgresItemRepository.ts:44-51 | writes one row if and only if the CHECK constraints hold |
| Database.Database.RemoveItemRow | src/adapters/gateways/PostgresItemRepository.ts:95-102 | deletes the row if and only if no line of any order references it |
| Database.Database.CreateOrder | src/adapters/gateways/PostgresServiceOrderRepository.ts:102-122 | inserts the order with its opening entry if and only if its rows satisfy the constraints |
| Database.Database.UpdateOrder | src/adapters/gateways/PostgresServiceOrderRepository.ts:124-187 | missing, conflict, refused or written: claim, lines, fields and history amount to one versioned write |
| Database.Database.ReplaceLines | src/adapters/gateways/PostgresServiceOrderRepository.ts:148-164 | only the given kinds of lines are replaced, if their constraints hold |
| Database.Database.WriteScalars | src/adapters/gateways/PostgresServiceOrderRepository.ts:166-177 | only the given fields are written |
| UseCases.CreateServiceOrder | src/use-cases/service-orders/CreateServiceOrderUseCase.ts:13-42 | order, reservations and EnqueueDiagnosis commit together, or nothing does; succeeds if and only if the opening can, and the new row has the given customer, services and lines |
| UseCases.ReserveLines | src/use-cases/service-orders/CreateServiceOrderUseCase.ts:20-29 | the loop reserves every line, or stops where the whole opening must abort |
| UseCases.ReservationFits | src/use-cases/service-orders/CreateServiceOrderUseCase.ts:22-29 | if the whole opening keeps the constraints, each reservation of the loop fits in its turn |
| UseCases.RefusedReservation | src/use-cases/service-orders/CreateServiceOrderUseCase.ts:25-27 | a reservation refused in its turn means the opening as a whole is impossible |
| UseCases.ResolveServices | src/use-cases/service-orders/CreateServiceOrderUseCase.ts:44-52 | every service, in order, or NotFound if and only if one is missing |
| UseCases.AddItemToOrder | src/use-cases/service-orders/AddItemToOSUseCase.ts:9-30 | reservation and line commit together: the item's line with so many more units, or a new last one; which error each refusal gives |
| UseCases.MergedIsMap | src/use-cases/service-orders/AddItemToOSUseCase.ts:22-25 | with one line per item, mapping or appending is one merge |
| UseCases.RemoveItemFromOrder | src/use-cases/service-orders/RemoveItemFromOSUseCase.ts:9-26 | the line goes, the others stay in order, its units are free again, all together; which error each refusal gives |
| UseCases.FindLine | src/use-cases/service-orders/RemoveItemFromOSUseCase.ts:16-17 | the line found holds all of the order's units of the item |
| UseCases.GiveBack | src/use-cases/service-orders/RemoveItemFromOSUseCase.ts:19-25 | the absolute write of the reserved quantity and the write of the lines are the machine's removal, or nothing |
| UseCases.AddServiceToOrder | src/use-cases/service-orders/AddServiceToOSUseCase.ts:13-26 | appends a service during the diagnosis, never a repeat, and changes nothing else; which error each refusal gives |
| UseCases.RemoveServiceFromOrder | src/use-cases/service-orders/RemoveServiceFromOSUseCase.ts:9-19 | removes that service during the diagnosis, keeps the others in order and changes nothing else; which error each refusal gives |
| UseCases.DeliverOrder | src/use-cases/service-orders/DeliverOSUseCase.ts:14-24 | the versioned delivery, notified exactly when it was written |
| UseCases.CreateItem | src/use-cases/items/CreateItemUseCase.ts:14-18 | an item with nothing reserved, refused for negative numbers |
| UseCases.UpdateItem | src/use-cases/items/UpdateItemUseCase.ts:9-15 | the given fields, refused when negative or below what is reserved |
| UseCases.ItemRefused | docs/architecture/data-model.md:58-59 | a restock that breaks a CHECK constraint aborts |
| UseCases.DeleteItem | src/use-cases/items/DeleteItemUseCase.ts:7-14 | refused while units are reserved or a line references the item |
| Measured.MeasuredServiceOrderSaga.Handle | src/adapters/decorators/MeasuredServiceOrderSaga.ts:18-23 | the counters move as the committed step's report says, and the outcome of each reply is recorded |
| Measured.MeasuredServiceOrderSaga.HandleFailedCommand | src/adapters/decorators/MeasuredServiceOrderSaga.ts:25-30 | the same for dead commands, the stuck counter included |
| Measured.MeasuredServiceOrderSaga.Record | src/adapters/decorators/MeasuredServiceOrderSaga.ts:32-37 | counts one compensation by its reason |
| OutboxRelay.OutboxStore.FindPending | src/adapters/gateways/PrismaOutboxStore.ts:8-27 | the oldest unpublished rows, at most the limit, and all of them when fewer |
| OutboxRelay.OutboxStore.CountPending | src/adapters/gateways/PrismaOutboxStore.ts:29-31 | how many rows are unpublished |
| OutboxRelay.PublishPendingMessages.Execute | src/use-cases/messaging/PublishPendingMessagesUseCase.ts:19-28 | the loop is a run of the relay protocol over the oldest pending rows, stopping at the first failed send |
| OutboxRelay.CycleIsRun | src/use-cases/messaging/PublishPendingMessagesUseCase.ts:20-25 | fetch, n rounds and stop publish exactly the first n rows |
| QueuePoller.SqsQueuePoller.Handle | src/frameworks/messaging/SqsQueuePoller.ts:96-120 | true if and only if the message parsed, its handling committed and its deletion went through; deleted only then |
| QueuePoller.SqsQueuePoller.HandleBatch | src/frameworks/messaging/SqsQueuePoller.ts:75-81 | handles and deletes a prefix of the batch, stops at the first failure, and is a run of the queue protocol |
| QueuePoller.SqsQueuePoller.PollOnce | src/frameworks/messaging/SqsQueuePoller.ts:64-82 | one poll is a run of the queue protocol; it deletes what it counts, and handles at most one message more |
| Consumer.RunContinues | src/frameworks/messaging/SqsQueuePoller.ts:84-94 | a poll continues whatever all pollers did before, so every guarantee of the protocol holds of it |

## Left out

- HTTP routes, controllers, presenters, middlewares, JWT, roles, rate limits, logging, tracing and the histogram of time to status: plumbing with no state of the saga.
- Users, vehicles, plates and phones: no effect on the saga; an order's vehicle, its creation date and the estimated minutes of a service are not modelled.
- Customer and service management: one step, `OpEditCatalogue`, makes any change of the two tables that the foreign keys allow.
- Notification of customers: recorded as a list of order ids; how the mail is sent, and its failure, are not modelled.
- Ids: numbers instead of UUIDs; an order's id is its position because orders are never deleted, and a malformed UUID in a reference is an id no row has.
- Malformed message ids: `processed_messages.message_id` is a UUID column, so recording such an id fails and the message is never applied; every id of the model can be recorded, and `NeverStuck` is about those.
- Money: whole cents as unbounded integers; the conversion of decimals and the 32-bit range of quantities are not modelled.
- Error kinds: use cases say which error the common refusals give; the saga's methods only say that they fail, except where the model row names the error.
- parseEnvelope: a message that does not parse is one of the fates of a received message.
- Visibility timeouts, the deduplication window and the number of attempts: over-approximated, since any undeleted head of a group may be received again and any message may be dead-lettered at any time.
- Line-editing use cases in split phases: they write without a version, so only their atomic form is modelled.
- findStatusHistory: the history is kept in the order in which it was appended, not sorted again by time.
- Scheduling of relays and pollers (`start`, `stop`, pauses after an error): only their cycles are modelled.
- OutboxRelay.PublishPendingMessages.Execute: states a cycle that runs alone; what other relays and writers may do between its statements is proved of the protocol, in `Relay.CycleAmongOthers` and `Relay.NeverOvertakes`.
