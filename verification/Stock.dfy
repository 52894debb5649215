/** Stock is conserved: every item's reserved quantity is what the live orders hold, and its stock is
    what was supplied minus what the paid orders consumed. */
module Stock {
  import opened Entities
  import opened StateMachine
  import opened Machine

  // ----- sums over the orders

  function Total(orders: seq<Order>, f: Order -> int): int {
    if orders == [] then 0 else f(orders[0]) + Total(orders[1..], f)
  }

  lemma {:induction false} TotalConcat(a: seq<Order>, b: seq<Order>, f: Order -> int)
    ensures Total(a + b, f) == Total(a, f) + Total(b, f)
  {
    if a == [] {
      assert a + b == b;
    } else {
      assert (a + b)[1..] == a[1..] + b;
      TotalConcat(a[1..], b, f);
    }
  }

  lemma TotalUpdate(orders: seq<Order>, i: nat, o: Order, f: Order -> int)
    requires i < |orders|
    ensures Total(orders[i := o], f) == Total(orders, f) - f(orders[i]) + f(o)
  {
    var before, after := orders[..i], orders[i + 1..];
    assert orders == before + ([orders[i]] + after);
    assert orders[i := o] == before + ([o] + after);
    TotalConcat(before, [orders[i]] + after, f);
    TotalConcat(before, [o] + after, f);
    TotalConcat([orders[i]], after, f);
    TotalConcat([o], after, f);
  }

  lemma TotalAppend(orders: seq<Order>, o: Order, f: Order -> int)
    ensures Total(orders + [o], f) == Total(orders, f) + f(o)
  {
    TotalConcat(orders, [o], f);
  }

  lemma {:induction false} TotalAtLeast(orders: seq<Order>, i: nat, f: Order -> int)
    requires i < |orders|
    requires forall k :: 0 <= k < |orders| ==> f(orders[k]) >= 0
    ensures f(orders[i]) <= Total(orders, f)
  {
    if i > 0 {
      TotalAtLeast(orders[1..], i - 1, f);
    } else if |orders| > 1 {
      TotalAtLeast(orders[1..], 0, f);
    }
  }

  lemma {:induction false} TotalZero(orders: seq<Order>, f: Order -> int)
    requires forall k :: 0 <= k < |orders| ==> f(orders[k]) == 0
    ensures Total(orders, f) == 0
  {
    if orders == [] {
    } else {
      TotalZero(orders[1..], f);
    }
  }

  // ----- quantities of one order

  lemma {:induction false} QuantityNonNegative(lines: seq<Line>, id: ItemId)
    requires forall l :: l in lines ==> l.quantity > 0
    ensures Quantity(lines, id) >= 0
  {
    if lines == [] {
    } else {
      QuantityNonNegative(lines[1..], id);
    }
  }

  lemma {:induction false} QuantityAbsent(lines: seq<Line>, id: ItemId)
    requires forall l :: l in lines ==> l.itemId != id
    ensures Quantity(lines, id) == 0
  {
    if lines == [] {
    } else {
      QuantityAbsent(lines[1..], id);
    }
  }

  /** With one line per item, the quantity of an item is the quantity of its line. */
  lemma {:induction false} QuantityOfLine(lines: seq<Line>, k: nat)
    requires k < |lines| && DistinctItems(lines)
    ensures Quantity(lines, lines[k].itemId) == lines[k].quantity
  {
    if k == 0 {
      QuantityAbsent(lines[1..], lines[0].itemId);
    } else {
      QuantityOfLine(lines[1..], k - 1);
    }
  }

  lemma {:induction false} QuantityMerged(lines: seq<Line>, id: ItemId, quantity: int, other: ItemId)
    ensures Quantity(Merged(lines, id, quantity), other) == Quantity(lines, other) + if other == id then quantity else 0
  {
    if lines != [] && lines[0].itemId != id {
      QuantityMerged(lines[1..], id, quantity, other);
    }
  }

  lemma {:induction false} QuantityWithout(lines: seq<Line>, id: ItemId, other: ItemId)
    ensures Quantity(Without(lines, id), other) == if other == id then 0 else Quantity(lines, other)
  {
    if lines == [] {
    } else {
      QuantityWithout(lines[1..], id, other);
    }
  }

  // ----- what orders hold and what they used

  function HeldBy(id: ItemId): Order -> int {
    (o: Order) => if Live(o.status) then Quantity(o.items, id) else 0
  }

  function UsedBy(id: ItemId): Order -> int {
    (o: Order) => if PaidFor(o.status) then Quantity(o.items, id) else 0
  }

  /** Each item's reserved quantity is the sum of its line quantities over the live orders. */
  ghost predicate Reservations(db: Db) {
    forall id :: id in db.items ==> db.items[id].reserved == Total(db.orders, HeldBy(id))
  }

  function StockOf(db: Db, id: ItemId): int {
    if id in db.items then db.items[id].stock else 0
  }

  function ReservedOf(db: Db, id: ItemId): int {
    if id in db.items then db.items[id].reserved else 0
  }

  /** No order names an item that is not in the catalogue, so nothing holds it. */
  lemma UnknownItemUnheld(db: Db, id: ItemId)
    requires Constraints(db) && id !in db.items
    ensures Total(db.orders, HeldBy(id)) == 0 && Total(db.orders, UsedBy(id)) == 0
  {
    forall k | 0 <= k < |db.orders|
      ensures HeldBy(id)(db.orders[k]) == 0 && UsedBy(id)(db.orders[k]) == 0
    {
      assert OrderConstraints(db.orders[k], db);
      QuantityAbsent(db.orders[k].items, id);
    }
    TotalZero(db.orders, HeldBy(id));
    TotalZero(db.orders, UsedBy(id));
  }

  /** What an operation of the item catalogue adds to the supply of an item. */
  ghost function Supplied(db: Db, op: Op, id: ItemId): int {
    if Step(db, op).Aborted? then 0
    else
      match op
      case OpCreateItem(item, _, _, stock) => if item == id then stock else 0
      case OpUpdateItem(item, _, _, stock) => if item == id && stock.Some? then stock.value - db.items[id].stock else 0
      case OpDeleteItem(item) => if item == id then -db.items[id].stock else 0
      case _ => 0
  }

  /** The message tables agree with the meaning of the statuses: a release ends a live order unpaid,
      a consumption ends it paid, and nothing else crosses those lines. */
  lemma TablesMoveStockOnce(b: Body, o: Order, now: Time)
    requires Expects(b, o.status)
    ensures var s := After(o, b, now).status;
      match StockEffect(b)
      case Release => Live(o.status) && !Live(s) && !PaidFor(s)
      case Consume => Live(o.status) && PaidFor(s) && !PaidFor(o.status)
      case Keep => Live(s) == Live(o.status) && PaidFor(s) == PaidFor(o.status)
      case Reserve => false
    ensures After(o, b, now).items == o.items && After(o, b, now).services == o.services
  {
  }

  /** What every committed step does to one item, said without naming the step: the reserved quantity moves with
      what the live orders hold, and stock plus what was used moves only with the supply. */
  ghost predicate Balanced(db: Db, op: Op, after: Db, id: ItemId) {
    && ReservedOf(after, id) - Total(after.orders, HeldBy(id)) == ReservedOf(db, id) - Total(db.orders, HeldBy(id))
    && StockOf(after, id) + Total(after.orders, UsedBy(id)) == StockOf(db, id) + Total(db.orders, UsedBy(id)) +
         Supplied(db, op, id)
  }

  lemma MessageBalanced(db: Db, d: Delivery, now: Time, cat: Catalogue, id: ItemId)
    requires Constraints(db) && Expected(db, d) && d.id !in db.processed
    requires Handle(db, d, now, cat).Committed?
    ensures Balanced(db, OpHandle(d, now, cat), Handle(db, d, now, cat).db, id)
  {
    var o := db.orders[d.order];
    var o' := After(o, d.body, now);
    assert OrderConstraints(o, db);
    TablesMoveStockOnce(d.body, o, now);
    TotalUpdate(db.orders, d.order, o', HeldBy(id));
    TotalUpdate(db.orders, d.order, o', UsedBy(id));
    if id !in db.items {
      QuantityAbsent(o.items, id);
    }
  }

  lemma OpeningBalanced(db: Db, customerId: CustomerId, services: seq<ServiceId>, lines: seq<Line>, id: ItemId)
    requires Constraints(db) && Open(db, customerId, services, lines).Committed?
    ensures Balanced(db, OpOpen(customerId, services, lines), Open(db, customerId, services, lines).db, id)
  {
    var o := Opened(customerId, services, lines);
    TotalAppend(db.orders, o, HeldBy(id));
    TotalAppend(db.orders, o, UsedBy(id));
    if id !in db.items {
      QuantityAbsent(lines, id);
    }
  }

  lemma EditBalanced(db: Db, i: OrderId, c: Changes, items: map<ItemId, Item>, op: Op, id: ItemId)
    requires Constraints(db) && Editable(db, i) && c.status.None?
    requires Step(db, op) == Rewrite(db, i, c, items) && Step(db, op).Committed?
    requires Supplied(db, op, id) == 0
    requires items.Keys == db.items.Keys
    requires id in items ==> items[id].stock == db.items[id].stock
    requires id in items ==>
      items[id].reserved - db.items[id].reserved ==
        Quantity(Write(db.orders[i], c).items, id) - Quantity(db.orders[i].items, id)
    requires id !in items ==> Quantity(Write(db.orders[i], c).items, id) == Quantity(db.orders[i].items, id)
    ensures Balanced(db, op, Step(db, op).db, id)
  {
    EditedSums(db.orders, i, Write(db.orders[i], c), id);
  }

  /** Rewriting the lines of an order in diagnosis changes what is held by the difference, and nothing that was used. */
  lemma EditedSums(orders: seq<Order>, i: nat, o: Order, id: ItemId)
    requires i < |orders| && orders[i].status.Diagnosis? && o.status.Diagnosis?
    ensures Total(orders[i := o], HeldBy(id)) == Total(orders, HeldBy(id)) +
      Quantity(o.items, id) - Quantity(orders[i].items, id)
    ensures Total(orders[i := o], UsedBy(id)) == Total(orders, UsedBy(id))
  {
    TotalUpdate(orders, i, o, HeldBy(id));
    TotalUpdate(orders, i, o, UsedBy(id));
  }

  lemma LineEditBalanced(db: Db, op: Op, id: ItemId)
    requires Constraints(db) && Step(db, op).Committed?
    requires op.OpAddItem? || op.OpRemoveItem? || op.OpAddService? || op.OpRemoveService?
    ensures Balanced(db, op, Step(db, op).db, id)
  {
    var o := db.orders[op.order];
    match op
    case OpAddItem(i, item, quantity) =>
      QuantityMerged(o.items, item, quantity, id);
      EditBalanced(db, i, Changes(items := Some(Merged(o.items, item, quantity))),
                   db.items[item := Moved(db.items[item], quantity, Reserve)], op, id);
    case OpRemoveItem(i, item) =>
      QuantityWithout(o.items, item, id);
      EditBalanced(db, i, Changes(items := Some(Without(o.items, item))),
                   db.items[item := Moved(db.items[item], Quantity(o.items, item), Release)], op, id);
    case OpAddService(i, service) =>
      EditBalanced(db, i, Changes(services := Some(o.services + [service])), db.items, op, id);
    case OpRemoveService(i, service) =>
      EditBalanced(db, i, Changes(services := Some(Dropped(o.services, service))), db.items, op, id);
  }

  lemma DeliveryBalanced(db: Db, i: OrderId, now: Time, id: ItemId)
    requires Constraints(db) && Deliver(db, i, now).Committed?
    ensures Balanced(db, OpDeliver(i, now), Deliver(db, i, now).db, id)
  {
    var o' := Write(db.orders[i], Changes(status := Some(Delivered), deliveredAt := Some(now)));
    TotalUpdate(db.orders, i, o', HeldBy(id));
    TotalUpdate(db.orders, i, o', UsedBy(id));
  }

  /** Every committed step of the machine keeps both balances of every item, items that come and go included. */
  lemma StepBalanced(db: Db, op: Op, id: ItemId)
    requires Constraints(db) && Reservations(db) && Step(db, op).Committed?
    ensures Balanced(db, op, Step(db, op).db, id)
  {
    match op
    case OpHandle(d, now, cat) =>
      if d.id !in db.processed && Expected(db, d) {
        MessageBalanced(db, d, now, cat, id);
      }
    case OpOpen(customerId, services, lines) => OpeningBalanced(db, customerId, services, lines, id);
    case OpDeliver(i, now) => DeliveryBalanced(db, i, now, id);
    case OpCreateItem(_, _, _, _) =>
    case OpUpdateItem(_, _, _, _) =>
    case OpDeleteItem(_) =>
    case OpEditCatalogue(_, _) =>
    case _ => LineEditBalanced(db, op, id);
  }
}
