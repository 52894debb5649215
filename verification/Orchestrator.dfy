/** The orchestrator of the saga, statement by statement, proved to do what the tables of the machine say. */
module Orchestrator {
  import opened Entities
  import opened StateMachine
  import opened Machine
  import opened Stock
  import opened Budget
  import opened Database

  datatype Participant = TheExecution | TheBudget

  /** What a dead command means: the statuses it expects (None for any) and what to cancel (None to only report). */
  datatype FailedStep = FailedStep(expected: Option<set<Status>>, cancel: Option<seq<Participant>>)

  function ExpectedStatus(reply: Reply): set<Status> {
    match reply
    case DiagnosisStarted => {Received}
    case DiagnosisCompleted => {Diagnosis}
    case BudgetGenerated(_) => {WaitingApproval}
    case BudgetApproved => {WaitingApproval}
    case BudgetRejected => {WaitingApproval}
    case PaymentConfirmed => {Approved}
    case PaymentFailed => {Approved}
    case RepairStarted => {Paid}
    case RepairCompleted => {Execution}
    case ExecutionCancelled => {Rejected, Cancelled}
    case BudgetCancelled => {Cancelled}
  }

  function Compensation(reply: Reply): Option<Reason> {
    match reply
    case BudgetRejected => Some(BudgetWasRejected)
    case PaymentFailed => Some(PaymentHasFailed)
    case _ => None
  }

  function FailedCommand(command: Command): FailedStep {
    match command
    case EnqueueDiagnosis => FailedStep(Some({Received}), Some([]))
    case GenerateBudget => FailedStep(Some({WaitingApproval}), Some([TheExecution]))
    case RequestPayment => FailedStep(Some({Approved}), Some([TheExecution, TheBudget]))
    case EnqueueRepair => FailedStep(Some({Paid}), None)
    case CancelExecution => FailedStep(None, None)
    case CancelBudget => FailedStep(None, None)
  }

  function ExpectedBy(b: Body): Option<set<Status>> {
    match b
    case ReplyOf(reply) => Some(ExpectedStatus(reply))
    case DeadCommand(command) => FailedCommand(command).expected
  }

  lemma TablesAgree(b: Body, s: Status)
    ensures Expects(b, s) <==> (ExpectedBy(b).Some? ==> s in ExpectedBy(b).value)
  {
  }

  // ----- outcomes

  /** The database is where the specified outcome leaves it; what a failure leaves is for the rollback. */
  ghost predicate Did(out: Outcome, after: Db, ok: bool) {
    match out
    case Committed(db, _) => ok && after == db
    case Aborted => !ok
  }

  /** A whole unit of work: the specified outcome, or a failure that changed nothing. */
  ghost predicate Settled(out: Outcome, before: Db, after: Db, ok: bool) {
    Did(out, after, ok) && (out.Aborted? ==> after == before)
  }

  /** The same, with the report of the outcome. */
  ghost predicate Realized(out: Outcome, before: Db, after: Db, r: Result<Report>) {
    Settled(out, before, after, r.Success?) && (r.Success? ==> r.value == out.report)
  }

  /** What every effect promises: the outcome the tables give for its message, and the order as it was left. */
  ghost predicate Effected(before: Db, i: OrderId, b: Body, now: Time, cat: Catalogue, after: Db, r: Result<Order>)
    requires i < |before.orders|
  {
    && Did(Effect(before, i, b, now, cat), after, r.Success?)
    && (r.Success? ==> Constraints(after) && r.value == After(before.orders[i], b, now))
  }

  lemma OneMessage(i: OrderId, o: Order, b: Body, cat: Catalogue, tx: nat)
    requires Answerable(o, b, cat) && |Sends(b)| == 1
    ensures MessagesOf(i, o, b, cat, tx) ==
      [Message(DestinationOf(Sends(b)[0]), Sends(b)[0], i, PayloadOf(Sends(b)[0], o, b, cat), tx)]
  {
  }

  lemma TwoMessages(i: OrderId, o: Order, b: Body, cat: Catalogue, tx: nat)
    requires Answerable(o, b, cat) && Sends(b) == [CancelExecution, CancelBudget]
    ensures MessagesOf(i, o, b, cat, tx) ==
      [Message(ExecutionCommands, CancelExecution, i, ReasonPayload(ReasonOf(b).value), tx)] +
      [Message(BillingCommands, CancelBudget, i, ReasonPayload(ReasonOf(b).value), tx)]
  {
  }

  lemma EffectCommits(before: Db, i: OrderId, b: Body, now: Time, cat: Catalogue, after: Db)
    requires i < |before.orders|
    requires var o := before.orders[i];
      && StockSuffices(before.items, o.items, StockEffect(b)) && Answerable(o, b, cat) && Legal(o, b, now)
      && after.items == MoveStock(before.items, o.items, StockEffect(b))
      && after.orders == before.orders[i := After(o, b, now)]
      && after.outbox == before.outbox + MessagesOf(i, o, b, cat, |before.outbox|)
      && after == before.(items := after.items, orders := after.orders, outbox := after.outbox)
    requires Constraints(after)
    ensures Did(Effect(before, i, b, now, cat), after, true)
  {
  }

  lemma {:induction false} QuantitySnoc(lines: seq<Line>, l: Line, id: ItemId)
    ensures Quantity(lines + [l], id) == Quantity(lines, id) + if l.itemId == id then l.quantity else 0
  {
    if lines == [] {
      assert lines + [l] == [l];
      assert Quantity([l][1..], id) == 0;
    } else {
      assert (lines + [l])[1..] == lines[1..] + [l];
      QuantitySnoc(lines[1..], l, id);
    }
  }

  /** Moving one more line moves its item by its quantity. */
  lemma MoveStockNext(items: map<ItemId, Item>, lines: seq<Line>, k: nat, m: Movement)
    requires k < |lines| && lines[k].itemId in items
    ensures var before := MoveStock(items, lines[..k], m);
      MoveStock(items, lines[..k + 1], m) ==
        before[lines[k].itemId := Moved(before[lines[k].itemId], lines[k].quantity, m)]
  {
    assert lines[..k + 1] == lines[..k] + [lines[k]];
    forall id | id in items
      ensures Quantity(lines[..k + 1], id) ==
        Quantity(lines[..k], id) + if lines[k].itemId == id then lines[k].quantity else 0
    {
      QuantitySnoc(lines[..k], lines[k], id);
    }
  }

  lemma MoveNothing(items: map<ItemId, Item>, m: Movement)
    ensures MoveStock(items, [], m) == items
  {
  }

  /** With one line per item, a line's item has not moved before its turn. */
  lemma NotMovedYet(items: map<ItemId, Item>, lines: seq<Line>, k: nat, m: Movement)
    requires k < |lines| && lines[k].itemId in items && DistinctItems(lines)
    ensures MoveStock(items, lines[..k], m)[lines[k].itemId] == items[lines[k].itemId]
  {
    QuantityAbsent(lines[..k], lines[k].itemId);
  }

  function StepCancels(i: OrderId, cancel: seq<Participant>, tx: nat): seq<Message> {
    var payload := ReasonPayload(Reason.StepFailed);
    (if TheExecution in cancel then [Message(ExecutionCommands, CancelExecution, i, payload, tx)] else []) +
    (if TheBudget in cancel then [Message(BillingCommands, CancelBudget, i, payload, tx)] else [])
  }

  lemma StepCancelsAreSent(i: OrderId, o: Order, command: Command, cat: Catalogue, tx: nat)
    requires FailedCommand(command).cancel.Some?
    ensures StepCancels(i, FailedCommand(command).cancel.value, tx) == MessagesOf(i, o, DeadCommand(command), cat, tx)
  {
  }

  class ServiceOrderSaga {
    const db: Database
    var notified: seq<OrderId>  // the customers told of a new status, in order

    constructor (db: Database)
      ensures this.db == db && notified == []
    {
      this.db := db;
      notified := [];
    }

    /** The state inside a unit of work that has not written to the outbox yet. */
    ghost predicate Working()
      reads this, db
    {
      db.Valid() && |db.saved.outbox| == |db.outbox|
    }

    // ----- one unit of work

    method Handle(id: MessageId, order: OrderId, reply: Reply, now: Time, services: map<ServiceId, Service>,
        customers: map<CustomerId, Customer>)
      returns (r: Result<Report>)
      requires db.Valid()
      modifies this`notified, db
      ensures db.Valid()
      ensures var cat := Catalogue(customers, services, old(db.items));
        Realized(Machine.Handle(old(db.State()), Delivery(id, order, ReplyOf(reply)), now, cat), old(db.State()),
          db.State(), r)
      ensures notified == old(notified) + if r.Success? && r.value.statusChanged then [order] else []
    {
      r := Process(Delivery(id, order, ReplyOf(reply)), Some(ExpectedStatus(reply)), now, services, customers);
    }

    method HandleFailedCommand(id: MessageId, order: OrderId, command: Command, now: Time,
        services: map<ServiceId, Service>, customers: map<CustomerId, Customer>)
      returns (r: Result<Report>)
      requires db.Valid()
      modifies this`notified, db
      ensures db.Valid()
      ensures var cat := Catalogue(customers, services, old(db.items));
        Realized(Machine.Handle(old(db.State()), Delivery(id, order, DeadCommand(command)), now, cat), old(db.State()),
          db.State(), r)
      ensures notified == old(notified) + if r.Success? && r.value.statusChanged then [order] else []
    {
      r := Process(Delivery(id, order, DeadCommand(command)), FailedCommand(command).expected, now, services,
        customers);
    }

    /** Records the message id, reads the order again, checks its status, applies the effect; the customer hears of a
        new status only after the commit. */
    method Process(d: Delivery, expected: Option<set<Status>>, now: Time, services: map<ServiceId, Service>,
        customers: map<CustomerId, Customer>)
      returns (r: Result<Report>)
      requires db.Valid() && expected == ExpectedBy(d.body)
      modifies this`notified, db
      ensures db.Valid()
      ensures var cat := Catalogue(customers, services, old(db.items));
        Realized(Machine.Handle(old(db.State()), d, now, cat), old(db.State()), db.State(), r)
      ensures notified == old(notified) + if r.Success? && r.value.statusChanged then [d.order] else []
    {
      ghost var before := db.State();
      ghost var cat := Catalogue(customers, services, db.items);
      db.Begin();
      var first := db.MarkProcessed(d.id);
      if !first {
        assert before.processed + {d.id} == before.processed;
        return Success(Report(Duplicate, false, None, false));
      }
      var found := db.FindOrder(d.order);
      if found.Some? {
        TablesAgree(d.body, found.value.status);
      }
      if found.None? || (expected.Some? && found.value.status !in expected.value) {
        return Success(Report(Ignored, false, None, false));
      }
      ghost var seen := db.State();
      var applied := Apply(d, found.value, now, services, customers);
      assert Machine.Handle(before, d, now, cat) == Effect(seen, d.order, d.body, now, cat);
      if applied.Failure? {
        db.Rollback();
        return Failure(applied.error);
      }
      r := applied;
      if r.value.statusChanged {
        notified := notified + [d.order];
      }
    }

    /** The effect of one message on the order that was read, and the result it reports. */
    method Apply(d: Delivery, order: Order, now: Time, services: map<ServiceId, Service>,
        customers: map<CustomerId, Customer>)
      returns (r: Result<Report>)
      requires Working() && d.order < |db.orders| && order == db.orders[d.order] && Expects(d.body, order.status)
      modifies db
      ensures db.saved == old(db.saved)
      ensures r.Success? ==> db.Valid()
      ensures var out := Effect(old(db.State()), d.order, d.body, now, Catalogue(customers, services, old(db.items)));
        Did(out, db.State(), r.Success?) && (r.Success? ==> r.value == out.report)
    {
      var i := d.order;
      ghost var cat := Catalogue(customers, services, db.items);
      var u: Result<Order>;
      match d.body {
        case ReplyOf(DiagnosisStarted) => u := DiagnosisStarted(i, order, now, cat);
        case ReplyOf(DiagnosisCompleted) => u := DiagnosisCompleted(i, order, now, services, customers);
        case ReplyOf(BudgetGenerated(total)) => u := BudgetGenerated(i, order, total, now, cat);
        case ReplyOf(BudgetApproved) => u := BudgetApproved(i, order, now, cat);
        case ReplyOf(BudgetRejected) => u := BudgetRejected(i, order, now, cat);
        case ReplyOf(PaymentConfirmed) => u := PaymentConfirmed(i, order, now, services, customers);
        case ReplyOf(PaymentFailed) => u := PaymentFailed(i, order, now, cat);
        case ReplyOf(RepairStarted) => u := RepairStarted(i, order, now, cat);
        case ReplyOf(RepairCompleted) => u := RepairCompleted(i, order, now, cat);
        case ReplyOf(ExecutionCancelled) => u := Unchanged(i, order, d.body, now, cat);
        case ReplyOf(BudgetCancelled) => u := Unchanged(i, order, d.body, now, cat);
        case DeadCommand(command) =>
          var cancel := FailedCommand(command).cancel;
          if cancel.None? {
            u := Unchanged(i, order, d.body, now, cat);
          } else {
            u := StepFailed(i, order, command, cancel.value, now, cat);
          }
      }
      if u.Failure? {
        return Failure(u.error);
      }
      var statusChanged := u.value.status != order.status;
      match d.body {
        case ReplyOf(reply) => r := Success(Report(Applied, statusChanged, Compensation(reply), false));
        case DeadCommand(command) =>
          if FailedCommand(command).cancel.None? {
            r := Success(Report(Applied, statusChanged, None, true));
          } else {
            r := Success(Report(Applied, statusChanged, Some(Reason.StepFailed), false));
          }
      }
    }

    // ----- effects

    method DiagnosisStarted(i: OrderId, order: Order, now: Time, ghost cat: Catalogue) returns (r: Result<Order>)
      requires Working() && i < |db.orders| && order == db.orders[i] && order.status.Received?
      modifies db
      ensures Effected(old(db.State()), i, ReplyOf(Reply.DiagnosisStarted), now, cat, db.State(), r)
      ensures db.saved == old(db.saved)
    {
      r := MoveTo(i, order, Changes(status := Some(Diagnosis)));
      NothingMoves(old(db.State()), db.State(), i, ReplyOf(Reply.DiagnosisStarted), now, cat);
    }

    /** Confirmations of a compensation and reports of a stuck step write nothing. */
    method Unchanged(i: OrderId, order: Order, b: Body, now: Time, ghost cat: Catalogue) returns (r: Result<Order>)
      requires Working() && i < |db.orders| && order == db.orders[i]
      requires ChangesOf(b, now).None? && Expects(b, order.status)
      modifies db
      ensures Effected(old(db.State()), i, b, now, cat, db.State(), r)
      ensures db.saved == old(db.saved)
    {
      r := Success(order);
      assert db.orders[i := order] == db.orders;
      NothingMoves(old(db.State()), db.State(), i, b, now, cat);
    }

    method RepairStarted(i: OrderId, order: Order, now: Time, ghost cat: Catalogue) returns (r: Result<Order>)
      requires Working() && i < |db.orders| && order == db.orders[i] && order.status.Paid?
      modifies db
      ensures Effected(old(db.State()), i, ReplyOf(Reply.RepairStarted), now, cat, db.State(), r)
      ensures db.saved == old(db.saved)
    {
      r := MoveTo(i, order, Changes(status := Some(Execution), startedAt := Some(now)));
      NothingMoves(old(db.State()), db.State(), i, ReplyOf(Reply.RepairStarted), now, cat);
    }

    method RepairCompleted(i: OrderId, order: Order, now: Time, ghost cat: Catalogue) returns (r: Result<Order>)
      requires Working() && i < |db.orders| && order == db.orders[i] && order.status.Execution?
      modifies db
      ensures Effected(old(db.State()), i, ReplyOf(Reply.RepairCompleted), now, cat, db.State(), r)
      ensures db.saved == old(db.saved)
    {
      r := MoveTo(i, order, Changes(status := Some(Finished), finishedAt := Some(now)));
      NothingMoves(old(db.State()), db.State(), i, ReplyOf(Reply.RepairCompleted), now, cat);
    }

    method BudgetGenerated(i: OrderId, order: Order, total: Option<int>, now: Time, ghost cat: Catalogue)
      returns (r: Result<Order>)
      requires Working() && i < |db.orders| && order == db.orders[i] && order.status.WaitingApproval?
      modifies db
      ensures Effected(old(db.State()), i, ReplyOf(Reply.BudgetGenerated(total)), now, cat, db.State(), r)
      ensures db.saved == old(db.saved)
    {
      ghost var b := ReplyOf(Reply.BudgetGenerated(total));
      if total.None? {
        return Failure(Validation);
      }
      r := Save(i, order, Changes(budgetTotal := total));
      if r.Success? {
        NothingMoves(old(db.State()), db.State(), i, b, now, cat);
      } else {
        TotalRefused(old(db.State()), i, total, now, cat);
      }
    }

    method BudgetApproved(i: OrderId, order: Order, now: Time, ghost cat: Catalogue) returns (r: Result<Order>)
      requires Working() && i < |db.orders| && order == db.orders[i] && order.status.WaitingApproval?
      modifies db
      ensures Effected(old(db.State()), i, ReplyOf(Reply.BudgetApproved), now, cat, db.State(), r)
      ensures db.saved == old(db.saved)
    {
      ghost var b := ReplyOf(Reply.BudgetApproved);
      r := MoveTo(i, order, Changes(status := Some(Approved)));
      db.AddMessage(BillingCommands, RequestPayment, i, NoPayload);
      OneMessage(i, order, b, cat, |old(db.outbox)|);
      KeepsStock(old(db.items), order.items);
      EffectCommits(old(db.State()), i, b, now, cat, db.State());
    }

    method DiagnosisCompleted(i: OrderId, order: Order, now: Time, services: map<ServiceId, Service>,
        customers: map<CustomerId, Customer>)
      returns (r: Result<Order>)
      requires Working() && i < |db.orders| && order == db.orders[i] && order.status.Diagnosis?
      modifies db
      ensures Effected(old(db.State()), i, ReplyOf(Reply.DiagnosisCompleted), now,
        Catalogue(customers, services, old(db.items)), db.State(), r)
      ensures db.saved == old(db.saved)
    {
      ghost var b, cat := ReplyOf(Reply.DiagnosisCompleted), Catalogue(customers, services, db.items);
      var command := BudgetCommandFor(order, services, customers);
      if command.Failure? {
        return Failure(command.error);
      }
      r := MoveTo(i, order, Changes(status := Some(WaitingApproval)));
      db.AddMessage(BillingCommands, GenerateBudget, i, command.value);
      OneMessage(i, order, b, cat, |old(db.outbox)|);
      KeepsStock(old(db.items), order.items);
      EffectCommits(old(db.State()), i, b, now, cat, db.State());
    }

    method BudgetRejected(i: OrderId, order: Order, now: Time, ghost cat: Catalogue) returns (r: Result<Order>)
      requires Working() && i < |db.orders| && order == db.orders[i] && order.status.WaitingApproval?
      modifies db
      ensures Effected(old(db.State()), i, ReplyOf(Reply.BudgetRejected), now, cat, db.State(), r)
      ensures db.saved == old(db.saved)
    {
      ghost var b := ReplyOf(Reply.BudgetRejected);
      r := Undo(i, order, Rejected);
      if r.Failure? {
        return;
      }
      db.AddMessage(ExecutionCommands, CancelExecution, i, ReasonPayload(BudgetWasRejected));
      OneMessage(i, order, b, cat, |old(db.outbox)|);
      EffectCommits(old(db.State()), i, b, now, cat, db.State());
    }

    method PaymentConfirmed(i: OrderId, order: Order, now: Time, services: map<ServiceId, Service>,
        customers: map<CustomerId, Customer>)
      returns (r: Result<Order>)
      requires Working() && i < |db.orders| && order == db.orders[i] && order.status.Approved?
      modifies db
      ensures Effected(old(db.State()), i, ReplyOf(Reply.PaymentConfirmed), now,
        Catalogue(customers, services, old(db.items)), db.State(), r)
      ensures db.saved == old(db.saved)
    {
      ghost var b, cat := ReplyOf(Reply.PaymentConfirmed), Catalogue(customers, services, db.items);
      var consumed := ConsumeReservations(i, order);
      if !consumed {
        return Failure(Validation);
      }
      var command := RepairCommandFor(order, services, cat);
      if command.Failure? {
        return Failure(command.error);
      }
      r := MoveTo(i, order, Changes(status := Some(Paid)));
      db.AddMessage(ExecutionCommands, EnqueueRepair, i, RepairPayload(command.value));
      OneMessage(i, order, b, cat, |old(db.outbox)|);
      EffectCommits(old(db.State()), i, b, now, cat, db.State());
    }

    method PaymentFailed(i: OrderId, order: Order, now: Time, ghost cat: Catalogue) returns (r: Result<Order>)
      requires Working() && i < |db.orders| && order == db.orders[i] && order.status.Approved?
      modifies db
      ensures Effected(old(db.State()), i, ReplyOf(Reply.PaymentFailed), now, cat, db.State(), r)
      ensures db.saved == old(db.saved)
    {
      ghost var b := ReplyOf(Reply.PaymentFailed);
      r := Undo(i, order, Cancelled);
      if r.Failure? {
        return;
      }
      var payload := ReasonPayload(PaymentHasFailed);
      db.AddMessage(ExecutionCommands, CancelExecution, i, payload);
      db.AddMessage(BillingCommands, CancelBudget, i, payload);
      TwoMessages(i, order, b, cat, |old(db.outbox)|);
      assert db.outbox == old(db.outbox) + MessagesOf(i, order, b, cat, |old(db.outbox)|);
      EffectCommits(old(db.State()), i, b, now, cat, db.State());
    }

    /** Undoes the steps before the one that failed. */
    method StepFailed(i: OrderId, order: Order, command: Command, cancel: seq<Participant>, now: Time,
        ghost cat: Catalogue) returns (r: Result<Order>)
      requires Working() && i < |db.orders| && order == db.orders[i] && Expects(DeadCommand(command), order.status)
      requires FailedCommand(command).cancel == Some(cancel)
      modifies db
      ensures Effected(old(db.State()), i, DeadCommand(command), now, cat, db.State(), r)
      ensures db.saved == old(db.saved)
    {
      ghost var b := DeadCommand(command);
      r := Undo(i, order, Cancelled);
      if r.Failure? {
        return;
      }
      AskToCancel(i, cancel);
      StepCancelsAreSent(i, order, command, cat, |old(db.outbox)|);
      EffectCommits(old(db.State()), i, b, now, cat, db.State());
    }

    /** The local half of every compensation: the stock is given back and the order ends. */
    method Undo(i: OrderId, order: Order, status: Status) returns (r: Result<Order>)
      requires db.Valid() && i < |db.orders| && order == db.orders[i] && CanTransition(order.status, status)
      modifies db`items, db`orders
      ensures r.Success? <==> StockSuffices(old(db.items), order.items, Release)
      ensures r.Success? ==>
        var after := Write(order, Changes(status := Some(status)));
        && db.Valid() && r.value == after
        && db.items == MoveStock(old(db.items), order.items, Release)
        && db.orders == old(db.orders)[i := after]
    {
      var released := ReleaseReservations(i, order);
      if !released {
        return Failure(Validation);
      }
      r := MoveTo(i, order, Changes(status := Some(status)));
    }

    /** Asks the participants that had started to cancel. */
    method AskToCancel(i: OrderId, cancel: seq<Participant>)
      requires db.Valid()
      modifies db`outbox
      ensures db.Valid() && db.outbox == old(db.outbox) + StepCancels(i, cancel, |db.saved.outbox|)
    {
      var payload := ReasonPayload(Reason.StepFailed);
      if TheExecution in cancel {
        db.AddMessage(ExecutionCommands, CancelExecution, i, payload);
      }
      if TheBudget in cancel {
        db.AddMessage(BillingCommands, CancelBudget, i, payload);
      }
    }

    // ----- stock

    /** Releases every line of the order, stopping at the first that does not fit its reservation. */
    method ReleaseReservations(i: OrderId, order: Order) returns (ok: bool)
      requires db.Valid() && i < |db.orders| && order == db.orders[i]
      modifies db`items
      ensures db.Valid()
      ensures ok <==> StockSuffices(old(db.items), order.items, Release)
      ensures ok ==> db.items == MoveStock(old(db.items), order.items, Release)
    {
      assert OrderConstraints(order, db.State());
      ghost var items := db.items;
      MoveNothing(items, Release);
      assert order.items[..0] == [];
      var k := 0;
      while k < |order.items|
        invariant 0 <= k <= |order.items| && db.Valid()
        invariant db.items == MoveStock(items, order.items[..k], Release)
        invariant StockSuffices(items, order.items[..k], Release)
      {
        var l := order.items[k];
        assert l in order.items;
        NotMovedYet(items, order.items, k, Release);
        var released := db.Release(l.itemId, l.quantity);
        if released != Success(true) {
          return false;
        }
        MoveStockNext(items, order.items, k, Release);
        assert order.items[..k + 1] == order.items[..k] + [l];
        k := k + 1;
      }
      assert order.items[..k] == order.items;
      ok := true;
    }

    /** Takes every line of the order out of the stock, stopping at the first that does not fit. */
    method ConsumeReservations(i: OrderId, order: Order) returns (ok: bool)
      requires db.Valid() && i < |db.orders| && order == db.orders[i]
      modifies db`items
      ensures db.Valid()
      ensures ok <==> StockSuffices(old(db.items), order.items, Consume)
      ensures ok ==> db.items == MoveStock(old(db.items), order.items, Consume)
    {
      assert OrderConstraints(order, db.State());
      ghost var items := db.items;
      MoveNothing(items, Consume);
      assert order.items[..0] == [];
      var k := 0;
      while k < |order.items|
        invariant 0 <= k <= |order.items| && db.Valid()
        invariant db.items == MoveStock(items, order.items[..k], Consume)
        invariant StockSuffices(items, order.items[..k], Consume)
      {
        var l := order.items[k];
        assert l in order.items;
        NotMovedYet(items, order.items, k, Consume);
        var consumed := db.Consume(l.itemId, l.quantity);
        if consumed != Success(true) {
          return false;
        }
        MoveStockNext(items, order.items, k, Consume);
        assert order.items[..k + 1] == order.items[..k] + [l];
        k := k + 1;
      }
      assert order.items[..k] == order.items;
      ok := true;
    }

    // ----- payloads

    /** Reads the customer and every entry of the order, then prices what was found. */
    method BudgetCommandFor(order: Order, services: map<ServiceId, Service>, customers: map<CustomerId, Customer>)
      returns (r: Result<Payload>)
      ensures var cat := Catalogue(customers, services, db.items);
        if Prices(order, cat)
        then r == Success(PayloadOf(GenerateBudget, order, ReplyOf(Reply.DiagnosisCompleted), cat))
        else r == Failure(NotFound)
    {
      ghost var cat := Catalogue(customers, services, db.items);
      if order.customerId !in customers || !customers[order.customerId].active {
        return Failure(NotFound);
      }
      var customer := customers[order.customerId];
      var catalogServices: seq<Priced> := [];
      var k := 0;
      while k < |order.services|
        invariant 0 <= k <= |order.services|
        invariant catalogServices + FoundServices(order.services[k..], cat) == FoundServices(order.services, cat)
      {
        var id := order.services[k];
        assert order.services[k..][1..] == order.services[k + 1..];
        if id in services {
          catalogServices := catalogServices + [Priced(id, services[id].name, services[id].price)];
        }
        k := k + 1;
      }
      var catalogItems: seq<Priced> := [];
      k := 0;
      while k < |order.items|
        invariant 0 <= k <= |order.items|
        invariant catalogItems + FoundItems(order.items[k..], cat) == FoundItems(order.items, cat)
      {
        var id := order.items[k].itemId;
        assert order.items[k..][1..] == order.items[k + 1..];
        if id in db.items {
          catalogItems := catalogItems + [Priced(id, db.items[id].name, db.items[id].price)];
        }
        k := k + 1;
      }
      assert catalogServices + [] == catalogServices && catalogItems + [] == catalogItems;
      SnapshotOfCatalogue(order, cat);
      match BuildBudgetLines(order, catalogServices, catalogItems) {
        case Failure(error) => r := Failure(error);
        case Success(lines) => r := Success(BudgetPayload(order.customerId, customer.name, customer.email, lines));
      }
    }

    /** One task per service, named as the catalogue has it now. */
    method RepairCommandFor(order: Order, services: map<ServiceId, Service>, ghost cat: Catalogue)
      returns (r: Result<seq<Task>>)
      requires cat.services == services
      ensures if NamesServices(order, cat) then r == Success(Tasks(order.services, cat)) else r == Failure(NotFound)
    {
      var tasks: seq<Task> := [];
      var k := 0;
      while k < |order.services|
        invariant 0 <= k <= |order.services| && |tasks| == k
        invariant forall j :: 0 <= j < k ==>
          order.services[j] in services && tasks[j] == Task(order.services[j], services[order.services[j]].name)
      {
        var id := order.services[k];
        if id !in services {
          return Failure(NotFound);
        }
        tasks := tasks + [Task(id, services[id].name)];
        k := k + 1;
      }
      assert tasks == Tasks(order.services, cat);
      r := Success(tasks);
    }

    // ----- orders

    /** Moves the order to a new status, if the state machine allows it. */
    method MoveTo(i: OrderId, order: Order, changes: Changes) returns (r: Result<Order>)
      requires db.Valid() && i < |db.orders| && order == db.orders[i]
      requires changes.status.Some? && changes.services.None? && changes.items.None? && changes.budgetTotal.None?
      modifies db`orders
      ensures r.Success? <==> CanTransition(order.status, changes.status.value)
      ensures r.Success? ==> db.Valid() && r.value == Write(order, changes)
      ensures r.Success? ==> db.orders == old(db.orders)[i := Write(order, changes)]
    {
      if !CanTransition(order.status, changes.status.value) {
        return Failure(Validation);
      }
      assert OrderConstraints(order, db.State());
      r := Save(i, order, changes);
    }

    /** Writes with the version that was read. */
    method Save(i: OrderId, order: Order, changes: Changes) returns (r: Result<Order>)
      requires db.Valid() && i < |db.orders| && order == db.orders[i]
      requires changes.services.None? && changes.items.None?
      modifies db`orders
      ensures r.Success? <==> TotalAllowed(OrElse(changes.budgetTotal, order.budgetTotal))
      ensures r.Success? ==> db.Valid() && r.value == Write(order, changes)
      ensures r.Success? ==> db.orders == old(db.orders)[i := Write(order, changes)]
    {
      assert OrderConstraints(order, db.State());
      var updated := db.UpdateOrder(i, changes, Some(order.version));
      match updated {
        case Failure(error) => r := Failure(error);
        case Success(false) => r := Failure(NotFound);
        case Success(true) => r := Success(db.orders[i]);
      }
    }
  }

  lemma KeepsStock(items: map<ItemId, Item>, lines: seq<Line>)
    ensures MoveStock(items, lines, Keep) == items
  {
  }

  /** A message that moves no stock and sends nothing commits when its write does. */
  lemma NothingMoves(before: Db, after: Db, i: OrderId, b: Body, now: Time, cat: Catalogue)
    requires i < |before.orders| && Expects(b, before.orders[i].status) && StockEffect(b).Keep? && Sends(b) == []
    requires b.ReplyOf? && b.reply.BudgetGenerated? ==> b.reply.total.Some?
    requires after == before.(orders := before.orders[i := After(before.orders[i], b, now)]) && Constraints(after)
    ensures Did(Effect(before, i, b, now, cat), after, true)
  {
    KeepsStock(before.items, before.orders[i].items);
    assert before.outbox + MessagesOf(i, before.orders[i], b, cat, |before.outbox|) == before.outbox;
    EffectCommits(before, i, b, now, cat, after);
  }

  lemma TotalRefused(before: Db, i: OrderId, total: Option<int>, now: Time, cat: Catalogue)
    requires i < |before.orders| && total.Some? && !TotalAllowed(total)
    ensures Effect(before, i, ReplyOf(Reply.BudgetGenerated(total)), now, cat).Aborted?
  {
    var b := ReplyOf(Reply.BudgetGenerated(total));
    var after := before.(items := MoveStock(before.items, before.orders[i].items, Keep),
                         orders := before.orders[i := After(before.orders[i], b, now)],
                         outbox := before.outbox + MessagesOf(i, before.orders[i], b, cat, |before.outbox|));
    assert !OrderConstraints(after.orders[i], after);
  }
}
