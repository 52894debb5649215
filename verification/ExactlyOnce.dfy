/** Redeliveries and failed attempts leave no trace: a run equals the run of the first committed delivery of each
    message, and the counters of a run agree with its orders. */
module ExactlyOnce {
  import opened Entities
  import opened StateMachine
  import opened Machine
  import opened Stock

  /** One attempt at an operation; the process may die before the commit. */
  datatype Attempt = Attempt(op: Op, crashes: bool)

  ghost predicate Commits(db: Db, a: Attempt) {
    !a.crashes && Step(db, a.op).Committed?
  }

  ghost function Tried(db: Db, a: Attempt): Db {
    if a.crashes then db else Next(db, a.op)
  }

  ghost function RunAttempts(db: Db, attempts: seq<Attempt>): Db
    decreases |attempts|
  {
    if attempts == [] then db else RunAttempts(Tried(db, attempts[0]), attempts[1..])
  }

  /** The operations whose attempt committed, in order, redeliveries included. */
  ghost function Log(db: Db, attempts: seq<Attempt>): seq<Op>
    decreases |attempts|
  {
    if attempts == [] then []
    else (if Commits(db, attempts[0]) then [attempts[0].op] else []) + Log(Tried(db, attempts[0]), attempts[1..])
  }

  /** The operations without any delivery of a message that was delivered before. */
  function FirstDeliveries(ops: seq<Op>, seen: set<MessageId>): seq<Op> {
    if ops == [] then []
    else
      match ops[0]
      case OpHandle(d, _, _) =>
        if d.id in seen then FirstDeliveries(ops[1..], seen)
        else [ops[0]] + FirstDeliveries(ops[1..], seen + {d.id})
      case _ => [ops[0]] + FirstDeliveries(ops[1..], seen)
  }

  /** A committed step records the message it delivers, and nothing else records one. */
  lemma StepRecordsMessage(db: Db, op: Op)
    requires Step(db, op).Committed?
    ensures Next(db, op).processed == if op.OpHandle? then db.processed + {op.d.id} else db.processed
    ensures op.OpHandle? && op.d.id in db.processed ==> Next(db, op) == db
  {
  }

  /** Effect exactly once: any sequence of attempts, with redeliveries, aborts and crashes, ends in the database that
      the first committed delivery of each message id produces on its own. */
  lemma {:induction false} EffectExactlyOnce(db: Db, attempts: seq<Attempt>)
    ensures RunAttempts(db, attempts) == Run(db, FirstDeliveries(Log(db, attempts), db.processed))
    decreases |attempts|
  {
    if attempts == [] {
    } else {
      var a, rest := attempts[0], attempts[1..];
      EffectExactlyOnce(Tried(db, a), rest);
      if Commits(db, a) {
        var log := Log(db, attempts);
        assert log[0] == a.op && log[1..] == Log(Tried(db, a), rest);
        StepRecordsMessage(db, a.op);
        if !(a.op.OpHandle? && a.op.d.id in db.processed) {
          assert FirstDeliveries(log, db.processed)[1..] == FirstDeliveries(log[1..], Tried(db, a).processed);
        }
      } else {
        assert Log(db, attempts) == Log(Tried(db, a), rest);
      }
    }
  }

  ghost predicate Unseen(ops: seq<Op>, seen: set<MessageId>) {
    forall k :: 0 <= k < |ops| && ops[k].OpHandle? ==> ops[k].d.id !in seen
  }

  ghost predicate NoRepeats(ops: seq<Op>) {
    forall j, k :: 0 <= j < k < |ops| && ops[j].OpHandle? && ops[k].OpHandle? ==> ops[j].d.id != ops[k].d.id
  }

  lemma Prepended(op: Op, tail: seq<Op>, seen: set<MessageId>)
    requires NoRepeats(tail)
    requires Unseen(tail, if op.OpHandle? then seen + {op.d.id} else seen)
    requires op.OpHandle? ==> op.d.id !in seen
    ensures Unseen([op] + tail, seen) && NoRepeats([op] + tail)
  {
  }

  /** What is kept delivers each message at most once. */
  lemma {:induction false} FirstDeliveriesDistinct(ops: seq<Op>, seen: set<MessageId>)
    ensures Unseen(FirstDeliveries(ops, seen), seen) && NoRepeats(FirstDeliveries(ops, seen))
  {
    if ops == [] {
    } else {
      var seen' := if ops[0].OpHandle? then seen + {ops[0].d.id} else seen;
      FirstDeliveriesDistinct(ops[1..], seen');
      if ops[0].OpHandle? && ops[0].d.id in seen {
        assert seen' == seen;
      } else {
        Prepended(ops[0], FirstDeliveries(ops[1..], seen'), seen);
      }
    }
  }

  // ----- counters

  datatype Counters = Counters(rejected: int, paymentFailed: int, stepFailed: int, stuck: int, notified: int)

  const ZERO := Counters(0, 0, 0, 0, 0)

  /** What the decorator of the saga and the notifier record of one result. */
  function Recorded(c: Counters, r: Report): Counters {
    Counters(
      c.rejected + if r.compensation == Some(BudgetWasRejected) then 1 else 0,
      c.paymentFailed + if r.compensation == Some(PaymentHasFailed) then 1 else 0,
      c.stepFailed + if r.compensation == Some(StepFailed) then 1 else 0,
      c.stuck + if r.stuck then 1 else 0,
      c.notified + if r.statusChanged then 1 else 0)
  }

  ghost function Counted(db: Db, ops: seq<Op>, c: Counters): Counters
    decreases |ops|
  {
    if ops == [] then c
    else
      match Step(db, ops[0])
      case Committed(after, report) => Counted(after, ops[1..], Recorded(c, report))
      case Aborted => Counted(db, ops[1..], c)
  }

  function InStatus(s: Status): Order -> int {
    (o: Order) => if o.status == s then 1 else 0
  }

  function MovesOf(): Order -> int {
    (o: Order) => |o.history| - 1
  }

  ghost predicate Agrees(c: Counters, db: Db) {
    && c.rejected == Total(db.orders, InStatus(Rejected))
    && c.paymentFailed + c.stepFailed == Total(db.orders, InStatus(Cancelled))
    && c.notified == Total(db.orders, MovesOf())
  }

  ghost predicate SameBut(a: seq<Order>, i: nat, b: seq<Order>) {
    i < |a| && |a| == |b| && b == a[i := b[i]]
  }

  /** Replacing one order changes each sum by that order alone. */
  lemma AgreesAfterUpdate(db: Db, after: Db, i: nat, c: Counters, report: Report)
    requires Agrees(c, db) && SameBut(db.orders, i, after.orders)
    requires var o, o' := db.orders[i], after.orders[i];
      && (o'.status.Rejected? <==> o.status.Rejected? || report.compensation == Some(BudgetWasRejected))
      && (o'.status.Cancelled? <==>
            o.status.Cancelled? || report.compensation in {Some(PaymentHasFailed), Some(StepFailed)})
      && (report.compensation.Some? ==> Live(o.status))
      && |o'.history| == |o.history| + if report.statusChanged then 1 else 0
    ensures Agrees(Recorded(c, report), after)
  {
    TotalUpdate(db.orders, i, after.orders[i], InStatus(Rejected));
    TotalUpdate(db.orders, i, after.orders[i], InStatus(Cancelled));
    TotalUpdate(db.orders, i, after.orders[i], MovesOf());
  }

  lemma MessageAgrees(db: Db, d: Delivery, now: Time, cat: Catalogue, c: Counters)
    requires Agrees(c, db) && Handle(db, d, now, cat).Committed?
    ensures Agrees(Recorded(c, Handle(db, d, now, cat).report), Handle(db, d, now, cat).db)
  {
    if d.id !in db.processed && Expected(db, d) {
      var out := Handle(db, d, now, cat);
      AgreesAfterUpdate(db, out.db, d.order, c, out.report);
    }
  }

  lemma OpeningAgrees(db: Db, customerId: CustomerId, services: seq<ServiceId>, lines: seq<Line>, c: Counters)
    requires Agrees(c, db) && Open(db, customerId, services, lines).Committed?
    ensures Agrees(Recorded(c, DONE), Open(db, customerId, services, lines).db)
  {
    var o := Opened(customerId, services, lines);
    TotalAppend(db.orders, o, InStatus(Rejected));
    TotalAppend(db.orders, o, InStatus(Cancelled));
    TotalAppend(db.orders, o, MovesOf());
  }

  lemma EditAgrees(db: Db, i: OrderId, change: Changes, items: map<ItemId, Item>, c: Counters)
    requires Agrees(c, db) && i < |db.orders| && change.status.None? && Rewrite(db, i, change, items).Committed?
    ensures Agrees(Recorded(c, DONE), Rewrite(db, i, change, items).db)
  {
    AgreesAfterUpdate(db, Rewrite(db, i, change, items).db, i, c, DONE);
  }

  lemma LineEditAgrees(db: Db, op: Op, c: Counters)
    requires Agrees(c, db) && Step(db, op).Committed?
    requires op.OpAddItem? || op.OpRemoveItem? || op.OpAddService? || op.OpRemoveService?
    ensures Agrees(Recorded(c, Step(db, op).report), Step(db, op).db)
  {
    match op
    case OpAddItem(i, id, quantity) =>
      EditAgrees(db, i, Changes(items := Some(Merged(db.orders[i].items, id, quantity))),
                 db.items[id := Moved(db.items[id], quantity, Reserve)], c);
    case OpRemoveItem(i, id) =>
      EditAgrees(db, i, Changes(items := Some(Without(db.orders[i].items, id))),
                 db.items[id := Moved(db.items[id], Quantity(db.orders[i].items, id), Release)], c);
    case OpAddService(i, id) =>
      EditAgrees(db, i, Changes(services := Some(db.orders[i].services + [id])), db.items, c);
    case OpRemoveService(i, id) =>
      EditAgrees(db, i, Changes(services := Some(Dropped(db.orders[i].services, id))), db.items, c);
  }

  lemma DeliveryAgrees(db: Db, i: OrderId, now: Time, c: Counters)
    requires Agrees(c, db) && Deliver(db, i, now).Committed?
    ensures Agrees(Recorded(c, Deliver(db, i, now).report), Deliver(db, i, now).db)
  {
    AgreesAfterUpdate(db, Deliver(db, i, now).db, i, c, Report(Applied, true, None, false));
  }

  lemma CatalogueAgrees(db: Db, op: Op, c: Counters)
    requires Agrees(c, db) && Step(db, op).Committed?
    requires op.OpCreateItem? || op.OpUpdateItem? || op.OpDeleteItem? || op.OpEditCatalogue?
    ensures Agrees(Recorded(c, Step(db, op).report), Step(db, op).db)
  {
  }

  lemma StepAgrees(db: Db, op: Op, c: Counters)
    requires Agrees(c, db) && Step(db, op).Committed?
    ensures Agrees(Recorded(c, Step(db, op).report), Step(db, op).db)
  {
    match op
    case OpHandle(d, now, cat) => MessageAgrees(db, d, now, cat, c);
    case OpOpen(customerId, services, lines) => OpeningAgrees(db, customerId, services, lines, c);
    case OpDeliver(i, now) => DeliveryAgrees(db, i, now, c);
    case OpCreateItem(_, _, _, _) => CatalogueAgrees(db, op, c);
    case OpUpdateItem(_, _, _, _) => CatalogueAgrees(db, op, c);
    case OpDeleteItem(_) => CatalogueAgrees(db, op, c);
    case OpEditCatalogue(_, _) => CatalogueAgrees(db, op, c);
    case _ => LineEditAgrees(db, op, c);
  }

  lemma {:induction false} CountersAgreeFrom(db: Db, ops: seq<Op>, c: Counters)
    requires Agrees(c, db)
    ensures Agrees(Counted(db, ops, c), Run(db, ops))
    decreases |ops|
  {
    if ops == [] {
    } else {
      match Step(db, ops[0])
      case Committed(after, report) =>
        StepAgrees(db, ops[0], c);
        CountersAgreeFrom(after, ops[1..], Recorded(c, report));
      case Aborted => CountersAgreeFrom(db, ops[1..], c);
    }
  }

  /** Without crashes between commit and count, budget rejections count the rejected orders, payment failures and failed
      steps together count the cancelled ones, and the notifications count the history entries that are not openings. */
  lemma CountersAgree(ops: seq<Op>)
    ensures var c, db := Counted(EMPTY, ops, ZERO), Run(EMPTY, ops);
      && c.rejected == Total(db.orders, InStatus(Rejected))
      && c.paymentFailed + c.stepFailed == Total(db.orders, InStatus(Cancelled))
      && c.notified == Total(db.orders, MovesOf())
  {
    CountersAgreeFrom(EMPTY, ops, ZERO);
  }
}
