/** Compensation and consumption never get stuck: in every reachable state a new message for an order in the status
    it expects is applied, unless a condition its sender or the staff can see in advance stands in the way. */
module Progress {
  import opened Entities
  import opened StateMachine
  import opened Machine
  import opened Stock
  import opened Reachable

  /** A live order's line never exceeds what is reserved of its item. */
  lemma LineWithinReservation(db: Db, i: OrderId, k: nat)
    requires Constraints(db) && Reservations(db)
    requires i < |db.orders| && Live(db.orders[i].status) && k < |db.orders[i].items|
    ensures var l := db.orders[i].items[k];
      && l.itemId in db.items
      && Quantity(db.orders[i].items, l.itemId) == l.quantity <= db.items[l.itemId].reserved <= db.items[l.itemId].stock
  {
    var o := db.orders[i];
    var id := o.items[k].itemId;
    assert OrderConstraints(o, db);
    assert o.items[k] in o.items;
    QuantityOfLine(o.items, k);
    forall j | 0 <= j < |db.orders| ensures HeldBy(id)(db.orders[j]) >= 0 {
      assert OrderConstraints(db.orders[j], db);
      QuantityNonNegative(db.orders[j].items, id);
    }
    TotalAtLeast(db.orders, i, HeldBy(id));
  }

  lemma StockAlwaysSuffices(db: Db, i: OrderId, b: Body)
    requires Constraints(db) && Reservations(db) && i < |db.orders| && Expects(b, db.orders[i].status)
    ensures StockSuffices(db.items, db.orders[i].items, StockEffect(b))
  {
    var o := db.orders[i];
    TablesMoveStockOnce(b, o, 0);
    forall l | l in o.items
      ensures StockEffect(b).Keep? || (l.itemId in db.items && CanMove(db.items[l.itemId], l.quantity, StockEffect(b)))
    {
      if !StockEffect(b).Keep? {
        var k :| 0 <= k < |o.items| && o.items[k] == l;
        LineWithinReservation(db, i, k);
      }
    }
  }

  lemma StockStaysConsistent(db: Db, i: OrderId, b: Body, id: ItemId)
    requires Constraints(db) && Reservations(db) && i < |db.orders| && Expects(b, db.orders[i].status)
    requires id in db.items
    ensures ItemConstraints(MoveStock(db.items, db.orders[i].items, StockEffect(b))[id])
  {
    var lines := db.orders[i].items;
    TablesMoveStockOnce(b, db.orders[i], 0);
    assert OrderConstraints(db.orders[i], db);
    if exists k :: 0 <= k < |lines| && lines[k].itemId == id {
      var k :| 0 <= k < |lines| && lines[k].itemId == id;
      assert lines[k] in lines;
      if !StockEffect(b).Keep? {
        LineWithinReservation(db, i, k);
      }
    } else {
      QuantityAbsent(lines, id);
    }
  }

  /** The one thing the schema can refuse in a message: a negative budget total. */
  predicate AcceptableTotal(b: Body) {
    b.ReplyOf? && b.reply.BudgetGenerated? && b.reply.total.Some? ==> b.reply.total.value >= 0
  }

  lemma EffectKeepsConstraints(db: Db, i: OrderId, b: Body, now: Time, cat: Catalogue)
    requires Constraints(db) && Reservations(db) && i < |db.orders| && Expects(b, db.orders[i].status)
    requires Answerable(db.orders[i], b, cat)
    ensures var after := db.(items := MoveStock(db.items, db.orders[i].items, StockEffect(b)),
                             orders := db.orders[i := After(db.orders[i], b, now)],
                             outbox := db.outbox + MessagesOf(i, db.orders[i], b, cat, |db.outbox|));
      Constraints(after) <==> AcceptableTotal(b)
  {
    var after := db.(items := MoveStock(db.items, db.orders[i].items, StockEffect(b)),
                     orders := db.orders[i := After(db.orders[i], b, now)],
                     outbox := db.outbox + MessagesOf(i, db.orders[i], b, cat, |db.outbox|));
    forall id | id in after.items ensures ItemConstraints(after.items[id]) {
      StockStaysConsistent(db, i, b, id);
    }
    TablesMoveStockOnce(b, db.orders[i], now);
    forall j | 0 <= j < |after.orders| && (j != i || AcceptableTotal(b))
      ensures OrderConstraints(after.orders[j], after)
    {
      assert OrderConstraints(db.orders[j], db);
    }
    if !AcceptableTotal(b) {
      assert !OrderConstraints(after.orders[i], after);
    }
  }

  lemma EffectOutcome(db: Db, i: OrderId, b: Body, now: Time, cat: Catalogue)
    requires Constraints(db) && Reservations(db) && i < |db.orders| && Expects(b, db.orders[i].status)
    ensures Effect(db, i, b, now, cat).Committed? <==> Answerable(db.orders[i], b, cat) && AcceptableTotal(b)
    ensures Effect(db, i, b, now, cat).Committed? ==> Effect(db, i, b, now, cat).report.verdict.Applied?
  {
    StockAlwaysSuffices(db, i, b);
    TablesAreLegal(db.orders[i], b, now);
    if Answerable(db.orders[i], b, cat) {
      EffectKeepsConstraints(db, i, b, now, cat);
    }
  }

  /** The expected-status table only asks for moves the state machine allows. */
  lemma TablesAreLegal(o: Order, b: Body, now: Time)
    requires Expects(b, o.status)
    ensures Legal(o, b, now)
  {
  }

  lemma RecordingKeepsInv(db: Db, id: MessageId)
    requires Constraints(db) && Reservations(db)
    ensures var seen := db.(processed := db.processed + {id}); Constraints(seen) && Reservations(seen)
  {
  }

  /** Exactly when a new, expected message is applied, for every message of the saga and whatever its reads returned. */
  lemma EffectApplies(db: Db, d: Delivery, now: Time, cat: Catalogue)
    requires Constraints(db) && Reservations(db)
    requires d.id !in db.processed && Expected(db, d)
    ensures Handle(db, d, now, cat).Committed? <==>
      Answerable(db.orders[d.order], d.body, cat) && AcceptableTotal(d.body)
    ensures Handle(db, d, now, cat).Committed? ==> Handle(db, d, now, cat).report.verdict.Applied?
  {
    RecordingKeepsInv(db, d.id);
    EffectOutcome(db.(processed := db.processed + {d.id}), d.order, d.body, now, cat);
  }

  /** What can stand in the way of a new, expected message when its reads see the database as it is. */
  ghost predicate Unobstructed(db: Db, d: Delivery)
    requires d.order < |db.orders| && db.orders[d.order].customerId in db.customers
  {
    match d.body
    case ReplyOf(DiagnosisCompleted) => db.customers[db.orders[d.order].customerId].active
    case ReplyOf(BudgetGenerated(total)) => total.Some? && total.value >= 0
    case _ => true
  }

  /** In every reachable state a new message for an order in its expected status is applied, unless it completes the
      diagnosis of an order whose customer was deactivated or brings a total that is no amount. In particular a budget
      rejection, a payment failure, a payment confirmation and a dead command before the payment always go through. */
  lemma NeverStuck(ops: seq<Op>, d: Delivery, now: Time)
    requires var db := Run(EMPTY, ops); d.id !in db.processed && Expected(db, d)
    ensures var db := Run(EMPTY, ops);
      && db.orders[d.order].customerId in db.customers
      && (Handle(db, d, now, CatalogueOf(db)).Committed? <==> Unobstructed(db, d))
      && (Unobstructed(db, d) ==> Handle(db, d, now, CatalogueOf(db)).report.verdict.Applied?)
  {
    var db := Run(EMPTY, ops);
    RunKeepsInv(EMPTY, ops);
    assert OrderConstraints(db.orders[d.order], db);
    EffectApplies(db, d, now, CatalogueOf(db));
  }

  lemma DeliveryGoesThrough(db: Db, i: OrderId, now: Time)
    requires Constraints(db)
    ensures Deliver(db, i, now).Committed? <==> i < |db.orders| && db.orders[i].status.Finished?
  {
  }

  /** The manual delivery goes through exactly for a finished order. */
  lemma DeliveryApplies(ops: seq<Op>, i: OrderId, now: Time)
    ensures var db := Run(EMPTY, ops);
      Deliver(db, i, now).Committed? <==> i < |db.orders| && db.orders[i].status.Finished?
  {
    RunKeepsInv(EMPTY, ops);
    DeliveryGoesThrough(Run(EMPTY, ops), i, now);
  }
}
