/** What every message of the saga does, said of the database before and after it: which messages are applied, which are
    ignored, and what an applied one does to its order, to the stock, to the outbox and to the report. */
module Effects {
  import opened Entities
  import opened StateMachine
  import opened Machine
  import opened Stock
  import opened Reachable
  import opened Progress
  import opened Ties

  // ----- duplicate, ignored or applied

  ghost predicate IsIgnored(db: Db, d: Delivery, out: Outcome) {
    out == Committed(db.(processed := db.processed + {d.id}), Report(Ignored, false, None, false))
  }

  ghost predicate IsApplied(out: Outcome) {
    out.Committed? && out.report.verdict.Applied?
  }

  /** A message in a status it does not fit is ignored; one that fits is applied if what it needs can be read. */
  ghost predicate Answered(db: Db, d: Delivery, out: Outcome, fits: bool, readable: bool) {
    if !fits then IsIgnored(db, d, out) else if readable then IsApplied(out) else out.Aborted?
  }

  lemma RepeatChangesNothing(db: Db, d: Delivery, now: Time, cat: Catalogue)
    requires d.id in db.processed
    ensures Handle(db, d, now, cat) == Committed(db, Report(Duplicate, false, None, false))
  {
  }

  lemma UnknownOrderIsIgnored(db: Db, d: Delivery, now: Time, cat: Catalogue)
    requires d.id !in db.processed && d.order >= |db.orders|
    ensures IsIgnored(db, d, Handle(db, d, now, cat))
  {
  }

  /** Which new messages are applied, which are ignored and which fail: by the status of the order, by whether its
      services can be read, and by whether everything to price can. */
  ghost predicate AnsweredByStatus(db: Db, d: Delivery, out: Outcome, named: bool, priced: bool)
    requires d.order < |db.orders|
  {
    var s := db.orders[d.order].status;
    match d.body
    case ReplyOf(DiagnosisStarted) => Answered(db, d, out, s == Received, true)
    case ReplyOf(DiagnosisCompleted) => Answered(db, d, out, s == Diagnosis, priced)
    case ReplyOf(BudgetGenerated(total)) => Answered(db, d, out, s == WaitingApproval, total.Some? && total.value >= 0)
    case ReplyOf(BudgetApproved) => Answered(db, d, out, s == WaitingApproval, true)
    case ReplyOf(BudgetRejected) => Answered(db, d, out, s == WaitingApproval, true)
    case ReplyOf(PaymentConfirmed) => Answered(db, d, out, s == Approved, named)
    case ReplyOf(PaymentFailed) => Answered(db, d, out, s == Approved, true)
    case ReplyOf(RepairStarted) => Answered(db, d, out, s == Paid, true)
    case ReplyOf(RepairCompleted) => Answered(db, d, out, s == Execution, true)
    case ReplyOf(ExecutionCancelled) => Answered(db, d, out, s == Rejected || s == Cancelled, true)
    case ReplyOf(BudgetCancelled) => Answered(db, d, out, s == Cancelled, true)
    case DeadCommand(EnqueueDiagnosis) => Answered(db, d, out, s == Received, true)
    case DeadCommand(GenerateBudget) => Answered(db, d, out, s == WaitingApproval, true)
    case DeadCommand(RequestPayment) => Answered(db, d, out, s == Approved, true)
    case DeadCommand(EnqueueRepair) => Answered(db, d, out, s == Paid, true)
    case DeadCommand(CancelExecution) => Answered(db, d, out, true, true)
    case DeadCommand(CancelBudget) => Answered(db, d, out, true, true)
  }

  lemma AnsweredWhenExpected(db: Db, d: Delivery, now: Time, cat: Catalogue)
    requires Constraints(db) && Reservations(db) && d.id !in db.processed && d.order < |db.orders|
    ensures Answered(db, d, Handle(db, d, now, cat), Expects(d.body, db.orders[d.order].status),
                     Answerable(db.orders[d.order], d.body, cat) && AcceptableTotal(d.body))
  {
    UnexpectedIsIgnored(db, d, now, cat);
    if Expected(db, d) {
      EffectApplies(db, d, now, cat);
    }
  }

  ghost predicate Named(o: Order, cat: Catalogue) {
    forall s :: s in o.services ==> s in cat.services
  }

  ghost predicate Priced(o: Order, cat: Catalogue) {
    && o.customerId in cat.customers && cat.customers[o.customerId].active
    && Named(o, cat) && (forall l :: l in o.items ==> l.itemId in cat.items)
  }

  lemma Verdicts(db: Db, d: Delivery, now: Time, cat: Catalogue)
    requires Constraints(db) && Reservations(db) && d.id !in db.processed && d.order < |db.orders|
    ensures var o := db.orders[d.order];
      AnsweredByStatus(db, d, Handle(db, d, now, cat), Named(o, cat), Priced(o, cat))
  {
    AnsweredWhenExpected(db, d, now, cat);
    AnyOutcome(db, d, Handle(db, d, now, cat), cat);
  }

  lemma AnyOutcome(db: Db, d: Delivery, out: Outcome, cat: Catalogue)
    requires d.order < |db.orders|
    requires Answered(db, d, out, Expects(d.body, db.orders[d.order].status),
                      Answerable(db.orders[d.order], d.body, cat) && AcceptableTotal(d.body))
    ensures var o := db.orders[d.order]; AnsweredByStatus(db, d, out, Named(o, cat), Priced(o, cat))
  {
  }

  lemma UnexpectedIsIgnored(db: Db, d: Delivery, now: Time, cat: Catalogue)
    ensures d.id !in db.processed && !Expected(db, d) ==> IsIgnored(db, d, Handle(db, d, now, cat))
  {
  }

  /** In every reachable state, when the reads see the database as it is, only a deactivated customer and a total that
      is no amount keep a message that fits from being applied. */
  lemma VerdictsOnRuns(ops: seq<Op>, d: Delivery, now: Time)
    requires var db := Run(EMPTY, ops); d.id !in db.processed && d.order < |db.orders|
    ensures var db := Run(EMPTY, ops);
      var o := db.orders[d.order];
      && o.customerId in db.customers
      && AnsweredByStatus(db, d, Handle(db, d, now, CatalogueOf(db)), true, db.customers[o.customerId].active)
  {
    var db := Run(EMPTY, ops);
    RunKeepsInvFromEmpty(ops);
    assert OrderConstraints(db.orders[d.order], db);
    Verdicts(db, d, now, CatalogueOf(db));
  }

  /** A compensation command that died is always reported to a person, whatever became of the order, and changes
      nothing. */
  lemma DeadCancellationIsReported(db: Db, d: Delivery, now: Time, cat: Catalogue)
    requires Constraints(db) && d.id !in db.processed && d.order < |db.orders|
    requires d.body == DeadCommand(CancelExecution) || d.body == DeadCommand(CancelBudget)
    ensures Handle(db, d, now, cat) ==
      Committed(db.(processed := db.processed + {d.id}), Report(Applied, false, None, true))
  {
    RecordingKeepsConstraints(db, d.id);
    NothingChanges(db.(processed := db.processed + {d.id}), d.order, d.body, now, cat);
  }

  lemma RecordingKeepsConstraints(db: Db, id: MessageId)
    requires Constraints(db)
    ensures Constraints(db.(processed := db.processed + {id}))
  {
    var seen := db.(processed := db.processed + {id});
    forall i | 0 <= i < |seen.orders| ensures OrderConstraints(seen.orders[i], seen) {
      assert OrderConstraints(db.orders[i], db);
    }
  }

  /** A message without stock movement, write or command leaves the database as it is. */
  lemma NothingChanges(db: Db, i: OrderId, b: Body, now: Time, cat: Catalogue)
    requires Constraints(db) && i < |db.orders|
    requires StockEffect(b).Keep? && ChangesOf(b, now).None? && Sends(b) == [] && Answerable(db.orders[i], b, cat)
    ensures Effect(db, i, b, now, cat) == Committed(db, Report(Applied, false, ReasonOf(b), Reported(b)))
  {
    assert MoveStock(db.items, db.orders[i].items, Keep) == db.items;
    assert db.orders[i := db.orders[i]] == db.orders;
    assert db.outbox + MessagesOf(i, db.orders[i], b, cat, |db.outbox|) == db.outbox;
  }

  /** Whatever compensation was asked for, its confirmation is applied when it is new, and changes nothing else. */
  lemma ConfirmationIsApplied(ops: seq<Op>, d: Delivery, now: Time)
    requires var db := Run(EMPTY, ops);
      && d.id !in db.processed && d.order < |db.orders|
      && ((d.body == ReplyOf(ExecutionCancelled) && CancelExecution in SentCommands(db.outbox, d.order))
          || (d.body == ReplyOf(BudgetCancelled) && CancelBudget in SentCommands(db.outbox, d.order)))
    ensures var db := Run(EMPTY, ops);
      Handle(db, d, now, CatalogueOf(db)) ==
        Committed(db.(processed := db.processed + {d.id}), Report(Applied, false, None, false))
  {
    var db := Run(EMPTY, ops);
    RunKeepsInvFromEmpty(ops);
    CommandsFollowHistory(ops, d.order);
    ConfirmationChangesNothing(db, d, now, CatalogueOf(db));
  }

  lemma ConfirmationChangesNothing(db: Db, d: Delivery, now: Time, cat: Catalogue)
    requires Constraints(db) && d.id !in db.processed && d.order < |db.orders|
    requires d.body == ReplyOf(ExecutionCancelled) || d.body == ReplyOf(BudgetCancelled)
    requires Undone(db.orders[d.order].status)
      && (d.body == ReplyOf(BudgetCancelled) ==> db.orders[d.order].status == Cancelled)
    ensures Handle(db, d, now, cat) ==
      Committed(db.(processed := db.processed + {d.id}), Report(Applied, false, None, false))
  {
    RecordingKeepsConstraints(db, d.id);
    NothingChanges(db.(processed := db.processed + {d.id}), d.order, d.body, now, cat);
  }

  // ----- the order

  /** The order in its new status, the move recorded, the version raised and the two dates as given; all else as it
      was. */
  ghost predicate MovedTo(o: Order, after: Order, s: Status, started: Option<Time>, finished: Option<Time>) {
    after == o.(status := s, startedAt := started, finishedAt := finished, version := o.version + 1,
                history := o.history + [Change(Some(o.status), s)])
  }

  /** What each message makes of its order. */
  ghost predicate OrderAfter(b: Body, now: Time, o: Order, after: Order) {
    match b
    case ReplyOf(DiagnosisStarted) => MovedTo(o, after, Diagnosis, o.startedAt, o.finishedAt)
    case ReplyOf(DiagnosisCompleted) => MovedTo(o, after, WaitingApproval, o.startedAt, o.finishedAt)
    case ReplyOf(BudgetGenerated(total)) => after == o.(budgetTotal := total, version := o.version + 1)
    case ReplyOf(BudgetApproved) => MovedTo(o, after, Approved, o.startedAt, o.finishedAt)
    case ReplyOf(BudgetRejected) => MovedTo(o, after, Rejected, o.startedAt, o.finishedAt)
    case ReplyOf(PaymentConfirmed) => MovedTo(o, after, Paid, o.startedAt, o.finishedAt)
    case ReplyOf(PaymentFailed) => MovedTo(o, after, Cancelled, o.startedAt, o.finishedAt)
    case ReplyOf(RepairStarted) => MovedTo(o, after, Execution, Some(now), o.finishedAt)
    case ReplyOf(RepairCompleted) => MovedTo(o, after, Finished, o.startedAt, Some(now))
    case ReplyOf(ExecutionCancelled) => after == o
    case ReplyOf(BudgetCancelled) => after == o
    case DeadCommand(EnqueueDiagnosis) => MovedTo(o, after, Cancelled, o.startedAt, o.finishedAt)
    case DeadCommand(GenerateBudget) => MovedTo(o, after, Cancelled, o.startedAt, o.finishedAt)
    case DeadCommand(RequestPayment) => MovedTo(o, after, Cancelled, o.startedAt, o.finishedAt)
    case DeadCommand(_) => after == o
  }

  lemma AfterByFields(o: Order, b: Body, now: Time, cat: Catalogue)
    requires Expects(b, o.status) && Answerable(o, b, cat)
    ensures OrderAfter(b, now, o, After(o, b, now))
  {
  }

  ghost predicate IsNew(db: Db, d: Delivery, now: Time, cat: Catalogue) {
    d.id !in db.processed && d.order < |db.orders| && IsApplied(Handle(db, d, now, cat))
  }

  lemma AppliedIsEffect(db: Db, d: Delivery, now: Time, cat: Catalogue)
    requires IsNew(db, d, now, cat)
    ensures Expected(db, d) && Answerable(db.orders[d.order], d.body, cat)
    ensures Handle(db, d, now, cat).db == db.(
      processed := db.processed + {d.id},
      items := MoveStock(db.items, db.orders[d.order].items, StockEffect(d.body)),
      orders := db.orders[d.order := After(db.orders[d.order], d.body, now)],
      outbox := db.outbox + MessagesOf(d.order, db.orders[d.order], d.body, cat, |db.outbox|))
    ensures Handle(db, d, now, cat).report ==
      Report(Applied, After(db.orders[d.order], d.body, now).status != db.orders[d.order].status, ReasonOf(d.body),
        Reported(d.body))
  {
  }

  /** An applied message does that to its order and leaves every other order alone. */
  lemma AppliedToTheOrder(db: Db, d: Delivery, now: Time, cat: Catalogue)
    requires IsNew(db, d, now, cat)
    ensures var after := Handle(db, d, now, cat).db;
      && |after.orders| == |db.orders|
      && (forall i :: 0 <= i < |db.orders| && i != d.order ==> after.orders[i] == db.orders[i])
      && OrderAfter(d.body, now, db.orders[d.order], after.orders[d.order])
      && after.services == db.services && after.customers == db.customers && after.processed == db.processed + {d.id}
  {
    AppliedIsEffect(db, d, now, cat);
    AfterByFields(db.orders[d.order], d.body, now, cat);
  }

  /** The report names the compensation, says whether a person has to look, and whether the status is new. */
  lemma AppliedReport(db: Db, d: Delivery, now: Time, cat: Catalogue)
    requires IsNew(db, d, now, cat)
    ensures var out := Handle(db, d, now, cat);
      && (out.report.statusChanged <==> out.db.orders[d.order].status != db.orders[d.order].status)
      && (out.report.stuck <==> d.body in {DeadCommand(EnqueueRepair), DeadCommand(CancelExecution),
           DeadCommand(CancelBudget)})
      && out.report.compensation ==
         match d.body
         case ReplyOf(BudgetRejected) => Some(BudgetWasRejected)
         case ReplyOf(PaymentFailed) => Some(PaymentHasFailed)
         case DeadCommand(EnqueueDiagnosis) => Some(StepFailed)
         case DeadCommand(GenerateBudget) => Some(StepFailed)
         case DeadCommand(RequestPayment) => Some(StepFailed)
         case _ => None
  {
    AppliedIsEffect(db, d, now, cat);
  }

  // ----- the stock

  /** What an applied message does to each item: a compensation gives the order's units back, a payment takes them
      out. */
  lemma AppliedToTheStock(db: Db, d: Delivery, now: Time, cat: Catalogue, id: ItemId)
    requires IsNew(db, d, now, cat)
    ensures var after := Handle(db, d, now, cat).db;
      && (id in after.items <==> id in db.items)
      && (id in db.items ==>
            var i, units := db.items[id], Quantity(db.orders[d.order].items, id);
            match d.body
            case ReplyOf(PaymentConfirmed) =>
              after.items[id] == i.(stock := i.stock - units, reserved := i.reserved - units)
            case ReplyOf(BudgetRejected) => after.items[id] == i.(reserved := i.reserved - units)
            case ReplyOf(PaymentFailed) => after.items[id] == i.(reserved := i.reserved - units)
            case DeadCommand(EnqueueDiagnosis) => after.items[id] == i.(reserved := i.reserved - units)
            case DeadCommand(GenerateBudget) => after.items[id] == i.(reserved := i.reserved - units)
            case DeadCommand(RequestPayment) => after.items[id] == i.(reserved := i.reserved - units)
            case _ => after.items[id] == i)
  {
    AppliedIsEffect(db, d, now, cat);
  }

  // ----- the outbox

  /** The customer as it was read, then one line per service and one per item, in the order's order, each named and
      priced as the catalogue had it. */
  ghost predicate IsBudget(p: Payload, o: Order, cat: Catalogue) {
    && p.BudgetPayload? && o.customerId in cat.customers
    && p.customerId == o.customerId
    && p.name == cat.customers[o.customerId].name
    && p.email == cat.customers[o.customerId].email
    && |p.lines| == |o.services| + |o.items|
    && (forall k :: 0 <= k < |o.services| ==>
          var id := o.services[k];
          && id in cat.services
          && p.lines[k] == BudgetLine(ServiceLine, id, cat.services[id].name, cat.services[id].price, 1))
    && (forall k :: 0 <= k < |o.items| ==>
          var l := o.items[k];
          && l.itemId in cat.items
          && p.lines[|o.services| + k] ==
             BudgetLine(ItemLine, l.itemId, cat.items[l.itemId].name, cat.items[l.itemId].price, l.quantity))
  }

  /** One task per service, in the order's order, named as the catalogue had it. */
  ghost predicate IsRepair(p: Payload, o: Order, cat: Catalogue) {
    && p.RepairPayload? && |p.tasks| == |o.services|
    && (forall k :: 0 <= k < |o.services| ==>
          o.services[k] in cat.services && p.tasks[k] == Task(o.services[k], cat.services[o.services[k]].name))
  }

  function CancelExecutionRow(i: OrderId, reason: Reason, tx: nat): Message {
    Message(ExecutionCommands, CancelExecution, i, ReasonPayload(reason), tx)
  }

  function CancelBudgetRow(i: OrderId, reason: Reason, tx: nat): Message {
    Message(BillingCommands, CancelBudget, i, ReasonPayload(reason), tx)
  }

  /** The rows each message writes, in order. */
  ghost predicate RowsOf(b: Body, i: OrderId, o: Order, cat: Catalogue, tx: nat, ms: seq<Message>) {
    match b
    case ReplyOf(DiagnosisCompleted) =>
      |ms| == 1 && IsBudget(ms[0].payload, o, cat)
        && ms[0] == Message(BillingCommands, GenerateBudget, i, ms[0].payload, tx)
    case ReplyOf(BudgetApproved) => ms == [Message(BillingCommands, RequestPayment, i, NoPayload, tx)]
    case ReplyOf(BudgetRejected) => ms == [CancelExecutionRow(i, BudgetWasRejected, tx)]
    case ReplyOf(PaymentConfirmed) =>
      |ms| == 1 && IsRepair(ms[0].payload, o, cat)
        && ms[0] == Message(ExecutionCommands, EnqueueRepair, i, ms[0].payload, tx)
    case ReplyOf(PaymentFailed) => ms ==
      [CancelExecutionRow(i, PaymentHasFailed, tx), CancelBudgetRow(i, PaymentHasFailed, tx)]
    case DeadCommand(GenerateBudget) => ms == [CancelExecutionRow(i, StepFailed, tx)]
    case DeadCommand(RequestPayment) => ms ==
      [CancelExecutionRow(i, StepFailed, tx), CancelBudgetRow(i, StepFailed, tx)]
    case _ => ms == []
  }

  lemma SentByFields(i: OrderId, o: Order, b: Body, cat: Catalogue, tx: nat)
    requires Answerable(o, b, cat)
    ensures RowsOf(b, i, o, cat, tx, MessagesOf(i, o, b, cat, tx))
  {
  }

  /** An applied message appends those rows to the outbox, all of the transaction that found |db.outbox| rows. */
  lemma AppliedToTheOutbox(db: Db, d: Delivery, now: Time, cat: Catalogue)
    requires IsNew(db, d, now, cat)
    ensures var after := Handle(db, d, now, cat).db;
      && db.outbox <= after.outbox
      && RowsOf(d.body, d.order, db.orders[d.order], cat, |db.outbox|, after.outbox[|db.outbox|..])
  {
    AppliedIsEffect(db, d, now, cat);
    var ms := MessagesOf(d.order, db.orders[d.order], d.body, cat, |db.outbox|);
    assert (db.outbox + ms)[|db.outbox|..] == ms;
    SentByFields(d.order, db.orders[d.order], d.body, cat, |db.outbox|);
  }

  // ----- the state machine

  /** The message moves an order from one status to another. */
  ghost predicate Moves(b: Body, from: Status, to: Status) {
    Expects(b, from) && ChangesOf(b, 0).Some? && ChangesOf(b, 0).value.status == Some(to)
  }

  function Mover(from: Status, to: Status): Body {
    match from
    case Received => if to == Diagnosis then ReplyOf(DiagnosisStarted) else DeadCommand(EnqueueDiagnosis)
    case Diagnosis => ReplyOf(DiagnosisCompleted)
    case WaitingApproval =>
      if to == Approved then ReplyOf(BudgetApproved)
      else if to == Rejected then ReplyOf(BudgetRejected)
      else DeadCommand(GenerateBudget)
    case Approved => if to == Paid then ReplyOf(PaymentConfirmed) else ReplyOf(PaymentFailed)
    case Paid => ReplyOf(RepairStarted)
    case _ => ReplyOf(RepairCompleted)
  }

  lemma MoverMoves(from: Status, to: Status)
    requires CanTransition(from, to) && from != Finished
    ensures Moves(Mover(from, to), from, to)
  {
  }

  lemma MovesAreLegal(b: Body, from: Status, to: Status)
    requires Moves(b, from, to) && from != to
    ensures CanTransition(from, to)
  {
    TablesAreLegal(Order(0, from, [], [], None, None, None, None, 0, []), b, 0);
  }

  /** The state machine allows exactly the moves that some message or the delivery makes. */
  lemma EveryMoveIsMade(from: Status, to: Status)
    ensures CanTransition(from, to) <==>
      (from == Finished && to == Delivered) || (from != to && exists b :: Moves(b, from, to))
  {
    if CanTransition(from, to) {
      TransitionsLowerTheRank(from, to);
      if from != Finished {
        MoverMoves(from, to);
      }
    }
    if b :| from != to && Moves(b, from, to) {
      MovesAreLegal(b, from, to);
    }
  }
}
