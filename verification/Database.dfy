/** The PostgreSQL side: one database object with a unit of work, and the repositories' statements on it. */
module Database {
  import opened Entities
  import opened Machine

  /** What one conditional UPDATE of an item does: no row, or the row moved, or a CHECK violation. */
  ghost function MovedRow(items: map<ItemId, Item>, id: ItemId, quantity: int, m: Movement)
    : (Result<bool>, map<ItemId, Item>)
  {
    if id !in items || !CanMove(items[id], quantity, m) then (Success(false), items)
    else if !ItemConstraints(Moved(items[id], quantity, m)) then (Failure(Constraint), items)
    else (Success(true), items[id := Moved(items[id], quantity, m)])
  }

  class Database {
    var orders: seq<Order>
    var items: map<ItemId, Item>
    var services: map<ServiceId, Service>
    var customers: map<CustomerId, Customer>
    var outbox: seq<Message>
    var processed: set<MessageId>
    var saved: Db  // the state the unit of work began with

    ghost predicate Valid()
      reads this
    {
      Constraints(State())
    }

    function State(): Db
      reads this
    {
      Db(orders, items, services, customers, outbox, processed)
    }

    constructor ()
      ensures Valid() && State() == EMPTY
    {
      orders, items, services, customers, outbox, processed := [], map[], map[], map[], [], {};
      saved := EMPTY;
    }

    method Begin()
      modifies this`saved
      ensures saved == State()
    {
      saved := State();
    }

    method Rollback()
      modifies this
      ensures State() == old(saved) && saved == old(saved)
    {
      orders, items, services := saved.orders, saved.items, saved.services;
      customers, outbox, processed := saved.customers, saved.outbox, saved.processed;
    }

    // ----- processed messages

    /** Inserts the id, skipping duplicates; reports whether a row was inserted. */
    method MarkProcessed(id: MessageId) returns (first: bool)
      requires Valid()
      modifies this`processed
      ensures Valid() && processed == old(processed) + {id} && first == (id !in old(processed))
    {
      first := id !in processed;
      processed := processed + {id};
      ConstraintsOfTables(old(State()), State());
    }

    // ----- outbox

    method AddMessage(destination: Destination, command: Command, order: OrderId, payload: Payload)
      requires Valid()
      modifies this`outbox
      ensures Valid() && outbox == old(outbox) + [Message(destination, command, order, payload, |saved.outbox|)]
    {
      outbox := outbox + [Message(destination, command, order, payload, |saved.outbox|)];
      ConstraintsOfTables(old(State()), State());
    }

    // ----- items

    method Reserve(id: ItemId, quantity: int) returns (r: Result<bool>)
      requires Valid()
      modifies this`items
      ensures Valid() && (r, items) == MovedRow(old(items), id, quantity, Machine.Reserve)
    {
      if id !in items || !(items[id].stock - items[id].reserved >= quantity) {
        return Success(false);
      }
      r := StoreItem(id, items[id].(reserved := items[id].reserved + quantity));
    }

    method Release(id: ItemId, quantity: int) returns (r: Result<bool>)
      requires Valid()
      modifies this`items
      ensures Valid() && (r, items) == MovedRow(old(items), id, quantity, Machine.Release)
    {
      if id !in items || !(items[id].reserved >= quantity) {
        return Success(false);
      }
      r := StoreItem(id, items[id].(reserved := items[id].reserved - quantity));
    }

    method Consume(id: ItemId, quantity: int) returns (r: Result<bool>)
      requires Valid()
      modifies this`items
      ensures Valid() && (r, items) == MovedRow(old(items), id, quantity, Machine.Consume)
    {
      if id !in items || !(items[id].reserved >= quantity && items[id].stock >= quantity) {
        return Success(false);
      }
      var item := items[id];
      r := StoreItem(id, item.(stock := item.stock - quantity, reserved := item.reserved - quantity));
    }

    /** Writes one item row, if the CHECK constraints allow it. */
    method StoreItem(id: ItemId, item: Item) returns (r: Result<bool>)
      requires Valid()
      modifies this`items
      ensures Valid()
      ensures ItemConstraints(item) ==> r == Success(true) && items == old(items)[id := item]
      ensures !ItemConstraints(item) ==> r == Failure(Constraint) && items == old(items)
    {
      if !ItemConstraints(item) {
        return Failure(Constraint);
      }
      items := items[id := item];
      r := Success(true);
      ItemStored(old(State()), State(), id);
    }

    /** Deletes one item row, unless a line references it. */
    method RemoveItemRow(id: ItemId) returns (r: Result<bool>)
      requires Valid() && id in items
      modifies this`items
      ensures Valid()
      ensures r.Success? <==> (forall i :: 0 <= i < |orders| ==> forall l :: l in orders[i].items ==> l.itemId != id)
      ensures r.Success? ==> items == old(items) - {id}
      ensures r.Failure? ==> items == old(items)
    {
      var i := 0;
      while i < |orders|
        invariant 0 <= i <= |orders| && items == old(items)
        invariant forall k :: 0 <= k < i ==> forall l :: l in orders[k].items ==> l.itemId != id
      {
        if exists l :: l in orders[i].items && l.itemId == id {
          return Failure(Constraint);
        }
        i := i + 1;
      }
      items := items - {id};
      r := Success(true);
      forall k | 0 <= k < |orders| ensures OrderConstraints(orders[k], State()) {
        assert OrderConstraints(orders[k], old(State()));
      }
    }

    // ----- orders

    method FindOrder(id: OrderId) returns (o: Option<Order>)
      ensures o == if id < |orders| then Some(orders[id]) else None
    {
      o := if id < |orders| then Some(orders[id]) else None;
    }

    /** Inserts an order with its lines and the opening entry of its history. */
    method CreateOrder(customerId: CustomerId, serviceIds: seq<ServiceId>, lines: seq<Line>)
      returns (r: Result<OrderId>)
      requires Valid()
      modifies this`orders
      ensures Valid()
      ensures var o := Opened(customerId, serviceIds, lines);
        if OrderConstraints(o, old(State())) then r == Success(|old(orders)|) && orders == old(orders) + [o]
        else r == Failure(Constraint) && orders == old(orders)
    {
      if customerId !in customers || !ServiceRows(serviceIds, services) || !ItemRows(lines, items) {
        return Failure(Constraint);
      }
      var row := Order(customerId, Received, serviceIds, lines, None, None, None, None, 0, []);
      row := row.(history := row.history + [Change(None, row.status)]);
      r := Success(|orders|);
      orders := orders + [row];
      assert row == Opened(customerId, serviceIds, lines);
      forall i | 0 <= i < |orders| ensures OrderConstraints(orders[i], State()) {
        if i < |old(orders)| {
          assert OrderConstraints(old(orders)[i], old(State()));
        }
      }
    }

    /** Deletes and inserts again the lines that are given. */
    method ReplaceLines(id: OrderId, c: Changes) returns (ok: bool)
      requires id < |orders|
      modifies this`orders
      ensures ok <==>
        && (c.services.Some? ==> ServiceRows(c.services.value, services))
        && (c.items.Some? ==> ItemRows(c.items.value, items))
      ensures ok ==>
        var o := old(orders)[id];
        orders == old(orders)[id := o.(services := Or(c.services, o.services), items := Or(c.items, o.items))]
    {
      if c.services.Some? {
        orders := orders[id := orders[id].(services := c.services.value)];
        if !ServiceRows(orders[id].services, services) {
          return false;
        }
      }
      if c.items.Some? {
        orders := orders[id := orders[id].(items := c.items.value)];
        if !ItemRows(orders[id].items, items) {
          return false;
        }
      }
      ok := true;
    }

    /** Writes the scalar fields that are given. */
    method WriteScalars(id: OrderId, c: Changes) returns (ok: bool)
      requires id < |orders|
      modifies this`orders
      ensures ok <==> TotalAllowed(OrElse(c.budgetTotal, old(orders)[id].budgetTotal))
      ensures ok ==>
        var o := old(orders)[id];
        orders == old(orders)[id := o.(
          status := Or(c.status, o.status),
          budgetTotal := OrElse(c.budgetTotal, o.budgetTotal),
          startedAt := OrElse(c.startedAt, o.startedAt),
          finishedAt := OrElse(c.finishedAt, o.finishedAt),
          deliveredAt := OrElse(c.deliveredAt, o.deliveredAt))]
    {
      var row := orders[id];
      if c.status.Some? { row := row.(status := c.status.value); }
      if c.budgetTotal.Some? { row := row.(budgetTotal := c.budgetTotal); }
      if c.startedAt.Some? { row := row.(startedAt := c.startedAt); }
      if c.finishedAt.Some? { row := row.(finishedAt := c.finishedAt); }
      if c.deliveredAt.Some? { row := row.(deliveredAt := c.deliveredAt); }
      if !TotalAllowed(row.budgetTotal) {
        return false;
      }
      orders := orders[id := row];
      ok := true;
    }

    /** Claims the version, replaces the lines that are given, writes the given fields and appends to the history. A
        failure may leave the row half written, for the unit of work to roll back. */
    method UpdateOrder(id: OrderId, c: Changes, expectedVersion: Option<nat>) returns (r: Result<bool>)
      requires Valid()
      modifies this`orders
      ensures id >= |old(orders)| ==> r == Success(false) && orders == old(orders)
      ensures id < |old(orders)| && expectedVersion.Some? && expectedVersion.value != old(orders)[id].version ==>
        r == Failure(Conflict) && orders == old(orders)
      ensures id < |old(orders)| && (expectedVersion.Some? ==> expectedVersion.value == old(orders)[id].version) ==>
        if OrderConstraints(Write(old(orders)[id], c), old(State()))
        then r == Success(true) && orders == old(orders)[id := Write(old(orders)[id], c)]
        else r == Failure(Constraint)
      ensures r.Success? ==> Valid()
    {
      if id >= |orders| {
        return Success(false);
      }
      if expectedVersion.Some? && expectedVersion.value != orders[id].version {
        return Failure(Conflict);
      }
      ghost var o := orders[id];
      assert OrderConstraints(o, old(State()));
      orders := orders[id := orders[id].(version := orders[id].version + 1)];
      var previous := orders[id].status;
      var replaced := ReplaceLines(id, c);
      if !replaced {
        return Failure(Constraint);
      }
      var written := WriteScalars(id, c);
      if !written {
        return Failure(Constraint);
      }
      if c.status.Some? && c.status.value != previous {
        orders := orders[id := orders[id].(history := orders[id].history + [Change(Some(previous), c.status.value)])];
      }
      r := Success(true);
      assert orders[id] == Write(o, c);
      assert orders == old(orders)[id := Write(o, c)];
      OrderStored(old(State()), State(), id);
    }
  }

  // ----- constraints after one table changed

  lemma ConstraintsOfTables(before: Db, after: Db)
    requires Constraints(before)
    requires after == before.(outbox := after.outbox, processed := after.processed)
    ensures Constraints(after)
  {
  }

  lemma ItemStored(before: Db, after: Db, id: ItemId)
    requires Constraints(before) && id in after.items && ItemConstraints(after.items[id])
    requires after == before.(items := before.items[id := after.items[id]])
    ensures Constraints(after)
  {
  }

  lemma OrderStored(before: Db, after: Db, i: OrderId)
    requires Constraints(before) && i < |before.orders| && i < |after.orders|
    requires after == before.(orders := before.orders[i := after.orders[i]])
    requires OrderConstraints(after.orders[i], before)
    ensures Constraints(after)
  {
  }
}
