/** What the front desk's operations do, said of the database before and after them, and exactly when each goes
    through. */
module Edits {
  import opened Entities
  import opened Machine
  import opened Stock
  import opened Progress

  // ----- opening an order

  /** The opening finds its customer, its services and its items, each once, and the units of every line are free. */
  ghost predicate CanOpen(db: Db, customerId: CustomerId, services: seq<ServiceId>, lines: seq<Line>) {
    && customerId in db.customers
    && (forall j, k :: 0 <= j < k < |services| ==> services[j] != services[k])
    && (forall s :: s in services ==> s in db.services)
    && (forall j, k :: 0 <= j < k < |lines| ==> lines[j].itemId != lines[k].itemId)
    && (forall l :: l in lines ==>
          l.itemId in db.items && 0 < l.quantity <= db.items[l.itemId].stock - db.items[l.itemId].reserved)
  }

  /** The row a new order starts with. */
  ghost predicate StartsAs(o: Order, customerId: CustomerId, services: seq<ServiceId>, lines: seq<Line>) {
    && o.customerId == customerId && o.services == services && o.items == lines
    && o.status == Received && o.history == [Change(None, Received)] && o.version == 0
    && o.budgetTotal == None && o.startedAt == None && o.finishedAt == None && o.deliveredAt == None
  }

  lemma ReservedFits(db: Db, lines: seq<Line>, id: ItemId)
    requires Constraints(db) && id in db.items
    requires DistinctItems(lines)
    requires forall l :: l in lines ==>
      l.itemId in db.items && 0 < l.quantity <= db.items[l.itemId].stock - db.items[l.itemId].reserved
    ensures ItemConstraints(MoveStock(db.items, lines, Reserve)[id])
  {
    if k :| 0 <= k < |lines| && lines[k].itemId == id {
      QuantityOfLine(lines, k);
      assert lines[k] in lines;
    } else {
      QuantityAbsent(lines, id);
    }
  }

  lemma OpeningSucceeds(db: Db, customerId: CustomerId, services: seq<ServiceId>, lines: seq<Line>)
    requires Constraints(db) && CanOpen(db, customerId, services, lines)
    ensures Open(db, customerId, services, lines).Committed?
  {
    var o := Opened(customerId, services, lines);
    var after := db.(items := MoveStock(db.items, lines, Reserve), orders := db.orders + [o],
                     outbox := db.outbox + [Message(ExecutionCommands, EnqueueDiagnosis, |db.orders|, NoPayload,
                       |db.outbox|)]);
    forall id | id in after.items ensures ItemConstraints(after.items[id]) {
      ReservedFits(db, lines, id);
    }
    forall i | 0 <= i < |after.orders| ensures OrderConstraints(after.orders[i], after) {
      assert i < |db.orders| ==> OrderConstraints(db.orders[i], db);
    }
    assert Open(db, customerId, services, lines) == Guarded(after, DONE);
  }

  lemma OpeningNeeds(db: Db, customerId: CustomerId, services: seq<ServiceId>, lines: seq<Line>)
    requires Constraints(db) && Open(db, customerId, services, lines).Committed?
    ensures CanOpen(db, customerId, services, lines)
  {
    var after := Open(db, customerId, services, lines).db;
    assert OrderConstraints(after.orders[|db.orders|], after);
    forall l | l in lines ensures l.quantity <= db.items[l.itemId].stock - db.items[l.itemId].reserved {
      var k :| 0 <= k < |lines| && lines[k] == l;
      QuantityOfLine(lines, k);
      assert ItemConstraints(after.items[l.itemId]);
    }
  }

  /** An opening goes through exactly when it can, and then the order starts with what was asked for, its units are
      reserved, and its diagnosis is requested; nothing else changes. */
  lemma OpeningExactly(db: Db, customerId: CustomerId, services: seq<ServiceId>, lines: seq<Line>)
    requires Constraints(db)
    ensures var out := Step(db, OpOpen(customerId, services, lines));
      && (out.Committed? <==> CanOpen(db, customerId, services, lines))
      && (out.Committed? ==>
            && |out.db.orders| == |db.orders| + 1 && out.db.orders[..|db.orders|] == db.orders
            && StartsAs(out.db.orders[|db.orders|], customerId, services, lines)
            && out.db.items.Keys == db.items.Keys
            && (forall id :: id in db.items ==>
                  out.db.items[id] == db.items[id].(reserved := db.items[id].reserved + Quantity(lines, id)))
            && out.db.outbox == db.outbox +
                 [Message(ExecutionCommands, EnqueueDiagnosis, |db.orders|, NoPayload, |db.outbox|)]
            && out.db.services == db.services && out.db.customers == db.customers && out.db.processed == db.processed)
  {
    if CanOpen(db, customerId, services, lines) {
      OpeningSucceeds(db, customerId, services, lines);
    }
    if Open(db, customerId, services, lines).Committed? {
      OpeningNeeds(db, customerId, services, lines);
    }
  }

  // ----- editing an order during the diagnosis

  ghost predicate InDiagnosis(db: Db, i: OrderId) {
    i < |db.orders| && db.orders[i].status == Diagnosis
  }

  /** The database with other lines in one order, its version raised, and other item rows; all else as it was. */
  ghost function Edited(db: Db, i: OrderId, services: seq<ServiceId>, lines: seq<Line>, items: map<ItemId, Item>): Db
    requires i < |db.orders|
  {
    var o := db.orders[i];
    db.(orders := db.orders[i := o.(services := services, items := lines, version := o.version + 1)], items := items)
  }

  lemma EditedConstraints(db: Db, i: OrderId, services: seq<ServiceId>, lines: seq<Line>, items: map<ItemId, Item>)
    requires Constraints(db) && i < |db.orders| && items.Keys == db.items.Keys
    ensures Constraints(Edited(db, i, services, lines, items)) <==>
      && ServiceRows(services, db.services) && ItemRows(lines, db.items)
      && (forall id :: id in items ==> ItemConstraints(items[id]))
  {
    var after := Edited(db, i, services, lines, items);
    assert OrderConstraints(db.orders[i], db);
    if ServiceRows(services, db.services) && ItemRows(lines, db.items) && forall id :: id in items ==>
      ItemConstraints(items[id]) {
      forall k | 0 <= k < |after.orders| ensures OrderConstraints(after.orders[k], after) {
        assert OrderConstraints(db.orders[k], db);
      }
    }
    if Constraints(after) {
      assert OrderConstraints(after.orders[i], after);
    }
  }

  /** Adding a service goes through exactly during the diagnosis, for a service there is that the order does not have;
      the service comes last. */
  lemma AddServiceExactly(db: Db, i: OrderId, id: ServiceId)
    requires Constraints(db)
    ensures var out := Step(db, OpAddService(i, id));
      && (out.Committed? <==> InDiagnosis(db, i) && id in db.services && id !in db.orders[i].services)
      && (out.Committed? ==> out.db == Edited(db, i, db.orders[i].services + [id], db.orders[i].items, db.items))
  {
    if InDiagnosis(db, i) && id in db.services && id !in db.orders[i].services {
      assert OrderConstraints(db.orders[i], db);
      EditedConstraints(db, i, db.orders[i].services + [id], db.orders[i].items, db.items);
    }
  }

  /** Dropping a service drops it and nothing else. */
  lemma {:induction false} DroppedMembers(services: seq<ServiceId>, id: ServiceId)
    ensures forall s :: s in Dropped(services, id) <==> s in services && s != id
  {
    if services == [] {
    } else {
      DroppedMembers(services[1..], id);
      assert services == [services[0]] + services[1..];
    }
  }

  lemma {:induction false} DroppedAbsent(services: seq<ServiceId>, id: ServiceId)
    requires id !in services
    ensures Dropped(services, id) == services
  {
    if services == [] {
    } else {
      DroppedAbsent(services[1..], id);
    }
  }

  lemma WithoutOne<T>(s: seq<T>, k: nat)
    requires 0 < k < |s|
    ensures [s[0]] + (s[1..][..k - 1] + s[1..][k..]) == s[..k] + s[k + 1..]
  {
  }

  /** What is left keeps its order. */
  lemma {:induction false} DroppedAt(services: seq<ServiceId>, k: nat)
    requires Distinct(services) && k < |services|
    ensures Dropped(services, services[k]) == services[..k] + services[k + 1..]
  {
    if k == 0 {
      DroppedAbsent(services[1..], services[0]);
    } else {
      DroppedAt(services[1..], k - 1);
      assert services[1..][k - 1] == services[k] && services[0] != services[k];
      WithoutOne(services, k);
    }
  }

  /** Removing a service goes through exactly during the diagnosis, for a service the order has; the others keep their
      order. */
  lemma RemoveServiceExactly(db: Db, i: OrderId, id: ServiceId)
    requires Constraints(db)
    ensures var out := Step(db, OpRemoveService(i, id));
      && (out.Committed? <==> InDiagnosis(db, i) && id in db.orders[i].services)
      && (out.Committed? ==> forall k :: 0 <= k < |db.orders[i].services| && db.orders[i].services[k] == id ==>
            var services := db.orders[i].services;
            out.db == Edited(db, i, services[..k] + services[k + 1..], db.orders[i].items, db.items))
  {
    if InDiagnosis(db, i) && id in db.orders[i].services {
      var o := db.orders[i];
      RowsOfOrder(db, i);
      DroppedRows(o.services, id, db.services);
      EditedConstraints(db, i, Dropped(o.services, id), o.items, db.items);
    }
  }

  lemma DroppedRows(services: seq<ServiceId>, id: ServiceId, known: map<ServiceId, Service>)
    requires ServiceRows(services, known) && id in services
    ensures ServiceRows(Dropped(services, id), known)
    ensures forall k :: 0 <= k < |services| && services[k] == id ==>
      Dropped(services, id) == services[..k] + services[k + 1..]
  {
    forall k | 0 <= k < |services| && services[k] == id
      ensures Dropped(services, id) == services[..k] + services[k + 1..]
    {
      DroppedAt(services, k);
    }
    var k :| 0 <= k < |services| && services[k] == id;
  }

  lemma {:induction false} WithoutAbsent(lines: seq<Line>, id: ItemId)
    requires forall k :: 0 <= k < |lines| ==> lines[k].itemId != id
    ensures Without(lines, id) == lines
  {
    if lines == [] {
    } else {
      WithoutAbsent(lines[1..], id);
    }
  }

  lemma {:induction false} WithoutAt(lines: seq<Line>, k: nat)
    requires DistinctItems(lines) && k < |lines|
    ensures Without(lines, lines[k].itemId) == lines[..k] + lines[k + 1..]
  {
    if k == 0 {
      WithoutAbsent(lines[1..], lines[0].itemId);
    } else {
      WithoutAt(lines[1..], k - 1);
      assert lines[1..][k - 1] == lines[k] && lines[0].itemId != lines[k].itemId;
      WithoutOne(lines, k);
    }
  }

  lemma {:induction false} MergedAppends(lines: seq<Line>, id: ItemId, quantity: int)
    requires forall k :: 0 <= k < |lines| ==> lines[k].itemId != id
    ensures Merged(lines, id, quantity) == lines + [Line(id, quantity)]
  {
    if lines == [] {
    } else {
      MergedAppends(lines[1..], id, quantity);
      assert lines + [Line(id, quantity)] == [lines[0]] + (lines[1..] + [Line(id, quantity)]);
    }
  }

  lemma {:induction false} MergedAt(lines: seq<Line>, k: nat, quantity: int)
    requires DistinctItems(lines) && k < |lines|
    ensures Merged(lines, lines[k].itemId, quantity) ==
      lines[k := Line(lines[k].itemId, lines[k].quantity + quantity)]
  {
    if k == 0 {
    } else {
      MergedAt(lines[1..], k - 1, quantity);
    }
  }

  /** The order has a line of the item. */
  ghost predicate HasLine(lines: seq<Line>, id: ItemId) {
    exists k :: 0 <= k < |lines| && lines[k].itemId == id
  }

  /** The lines with so many more units of an item: on its line, or on a new last one. */
  ghost predicate WithMore(lines: seq<Line>, id: ItemId, quantity: int, after: seq<Line>) {
    && (!HasLine(lines, id) ==> after == lines + [Line(id, quantity)])
    && (forall k :: 0 <= k < |lines| && lines[k].itemId == id ==>
          after == lines[k := Line(id, lines[k].quantity + quantity)])
  }

  lemma MergedIsMore(lines: seq<Line>, id: ItemId, quantity: int)
    requires DistinctItems(lines)
    ensures WithMore(lines, id, quantity, Merged(lines, id, quantity))
  {
    if HasLine(lines, id) {
      forall k | 0 <= k < |lines| && lines[k].itemId == id
        ensures Merged(lines, id, quantity) == lines[k := Line(id, lines[k].quantity + quantity)]
      {
        MergedAt(lines, k, quantity);
      }
    } else {
      MergedAppends(lines, id, quantity);
    }
  }

  lemma MoreRows(lines: seq<Line>, id: ItemId, quantity: int, known: map<ItemId, Item>)
    requires ItemRows(lines, known) && id in known
    ensures ItemRows(Merged(lines, id, quantity), known) <==> 0 < Quantity(lines, id) + quantity
  {
    MergedIsMore(lines, id, quantity);
    var after := Merged(lines, id, quantity);
    if k :| 0 <= k < |lines| && lines[k].itemId == id {
      QuantityOfLine(lines, k);
      assert after[k] in after;
      forall l | l in after ensures l == after[k] || l in lines {
      }
    } else {
      QuantityAbsent(lines, id);
      assert after[|lines|] in after;
    }
  }

  /** Adding units goes through exactly during the diagnosis, for an item there is, when so many units are free and
      the line stays positive. */
  lemma AddItemExactly(db: Db, i: OrderId, id: ItemId, quantity: int)
    requires Constraints(db) && Reservations(db)
    ensures Step(db, OpAddItem(i, id, quantity)).Committed? <==>
      && InDiagnosis(db, i) && id in db.items && quantity <= db.items[id].stock - db.items[id].reserved
      && 0 < Quantity(db.orders[i].items, id) + quantity
  {
    if InDiagnosis(db, i) && id in db.items && quantity <= db.items[id].stock - db.items[id].reserved {
      var o, item := db.orders[i], db.items[id].(reserved := db.items[id].reserved + quantity);
      AddItemIsEdit(db, i, id, quantity);
      RowsOfOrder(db, i);
      MoreRows(o.items, id, quantity, db.items);
      HeldIsReserved(db, i, id);
      assert ItemConstraints(db.items[id]);
      EditedOneItem(db, i, o.services, Merged(o.items, id, quantity), id, item);
    }
  }

  lemma RowsOfOrder(db: Db, i: OrderId)
    requires Constraints(db) && i < |db.orders|
    ensures ServiceRows(db.orders[i].services, db.services) && ItemRows(db.orders[i].items, db.items)
  {
    assert OrderConstraints(db.orders[i], db);
  }

  lemma AddItemIsEdit(db: Db, i: OrderId, id: ItemId, quantity: int)
    requires InDiagnosis(db, i) && id in db.items && quantity <= db.items[id].stock - db.items[id].reserved
    ensures AddItem(db, i, id, quantity) ==
      Guarded(Edited(db, i, db.orders[i].services, Merged(db.orders[i].items, id, quantity),
                     db.items[id := db.items[id].(reserved := db.items[id].reserved + quantity)]), DONE)
  {
  }

  lemma RemoveItemIsEdit(db: Db, i: OrderId, id: ItemId)
    requires InDiagnosis(db, i) && id in db.items && HasLine(db.orders[i].items, id)
    ensures var o := db.orders[i];
      RemoveItem(db, i, id) ==
        Guarded(Edited(db, i, o.services, Without(o.items, id),
                       db.items[id := db.items[id].(reserved := db.items[id].reserved - Quantity(o.items, id))]), DONE)
  {
    var k :| 0 <= k < |db.orders[i].items| && db.orders[i].items[k].itemId == id;
    assert db.orders[i].items[k] in db.orders[i].items;
  }

  lemma EditedOneItem(db: Db, i: OrderId, services: seq<ServiceId>, lines: seq<Line>, id: ItemId, item: Item)
    requires Constraints(db) && i < |db.orders| && id in db.items
    ensures Constraints(Edited(db, i, services, lines, db.items[id := item])) <==>
      ServiceRows(services, db.services) && ItemRows(lines, db.items) && ItemConstraints(item)
  {
    var items := db.items[id := item];
    EditedConstraints(db, i, services, lines, items);
    assert items[id] == item;
  }

  lemma HeldIsReserved(db: Db, i: OrderId, id: ItemId)
    requires Constraints(db) && Reservations(db) && InDiagnosis(db, i) && id in db.items
    ensures 0 <= Quantity(db.orders[i].items, id) <= db.items[id].reserved
  {
    var lines := db.orders[i].items;
    assert OrderConstraints(db.orders[i], db);
    QuantityNonNegative(lines, id);
    if k :| 0 <= k < |lines| && lines[k].itemId == id {
      LineWithinReservation(db, i, k);
    } else {
      QuantityAbsent(lines, id);
    }
  }

  /** What adding units changes: the line, and as many reserved units. */
  lemma AddItemByFields(db: Db, i: OrderId, id: ItemId, quantity: int) returns (lines: seq<Line>)
    requires Constraints(db) && AddItem(db, i, id, quantity).Committed?
    ensures i < |db.orders| && id in db.items
    ensures WithMore(db.orders[i].items, id, quantity, lines)
    ensures AddItem(db, i, id, quantity).db ==
      Edited(db, i, db.orders[i].services, lines,
        db.items[id := db.items[id].(reserved := db.items[id].reserved + quantity)])
  {
    assert OrderConstraints(db.orders[i], db);
    lines := Merged(db.orders[i].items, id, quantity);
    MergedIsMore(db.orders[i].items, id, quantity);
  }

  lemma RemoveItemSucceeds(db: Db, i: OrderId, id: ItemId)
    requires Constraints(db) && Reservations(db) && InDiagnosis(db, i) && HasLine(db.orders[i].items, id)
    ensures RemoveItem(db, i, id).Committed?
  {
    var o := db.orders[i];
    RowsOfOrder(db, i);
    LineIsKnown(o.items, id, db.items);
    RemoveItemIsEdit(db, i, id);
    HeldIsReserved(db, i, id);
    assert ItemConstraints(db.items[id]);
    EditedOneItem(db, i, o.services, Without(o.items, id), id,
                  db.items[id].(reserved := db.items[id].reserved - Quantity(o.items, id)));
  }

  /** Removing an item goes through exactly during the diagnosis, for an item the order has a line of. */
  lemma RemoveItemExactly(db: Db, i: OrderId, id: ItemId)
    requires Constraints(db) && Reservations(db)
    ensures Step(db, OpRemoveItem(i, id)).Committed? <==> InDiagnosis(db, i) && HasLine(db.orders[i].items, id)
  {
    if RemoveItem(db, i, id).Committed? {
      RemovedItem(db, i, id);
    }
    if InDiagnosis(db, i) && HasLine(db.orders[i].items, id) {
      RemoveItemSucceeds(db, i, id);
    }
  }

  lemma LineIsKnown(lines: seq<Line>, id: ItemId, known: map<ItemId, Item>)
    requires ItemRows(lines, known) && HasLine(lines, id)
    ensures id in known && ItemRows(Without(lines, id), known)
  {
    var k :| 0 <= k < |lines| && lines[k].itemId == id;
    assert lines[k] in lines;
    WithoutAt(lines, k);
  }

  /** The k-th line is gone, and its units are free again; nothing else changed but the version. */
  ghost predicate LineRemoved(db: Db, i: OrderId, k: nat, after: Db)
    requires i < |db.orders| && k < |db.orders[i].items|
  {
    var o, l := db.orders[i], db.orders[i].items[k];
    && l.itemId in db.items
    && var item := db.items[l.itemId];
       after == Edited(db, i, o.services, o.items[..k] + o.items[k + 1..],
                       db.items[l.itemId := item.(reserved := item.reserved - l.quantity)])
  }

  lemma RemoveItemByFields(db: Db, i: OrderId, k: nat)
    requires Constraints(db) && i < |db.orders| && k < |db.orders[i].items|
    requires RemoveItem(db, i, db.orders[i].items[k].itemId).Committed?
    ensures LineRemoved(db, i, k, RemoveItem(db, i, db.orders[i].items[k].itemId).db)
  {
    assert OrderConstraints(db.orders[i], db);
    WithoutAt(db.orders[i].items, k);
    QuantityOfLine(db.orders[i].items, k);
  }

  /** What removing an item changes: its line goes, and its units are free again. */
  lemma RemovedItem(db: Db, i: OrderId, id: ItemId)
    requires Constraints(db) && RemoveItem(db, i, id).Committed?
    ensures i < |db.orders| && HasLine(db.orders[i].items, id)
    ensures forall k :: 0 <= k < |db.orders[i].items| && db.orders[i].items[k].itemId == id ==>
      LineRemoved(db, i, k, RemoveItem(db, i, id).db)
  {
    var lines := db.orders[i].items;
    var l :| l in lines && l.itemId == id;
    var j :| 0 <= j < |lines| && lines[j] == l;
    forall k | 0 <= k < |lines| && lines[k].itemId == id ensures LineRemoved(db, i, k, RemoveItem(db, i, id).db) {
      RemoveItemByFields(db, i, k);
    }
  }

  // ----- delivery

  /** The delivery goes through exactly for a finished order, and dates and records the move; nothing else changes. */
  lemma DeliveryExactly(db: Db, i: OrderId, now: Time)
    requires Constraints(db)
    ensures Step(db, OpDeliver(i, now)).Committed? <==> i < |db.orders| && db.orders[i].status == Finished
    ensures Step(db, OpDeliver(i, now)).Committed? ==>
      var o := db.orders[i];
      && Step(db, OpDeliver(i, now)).db == db.(orders := db.orders[i := o.(
           status := Delivered, deliveredAt := Some(now), version := o.version + 1,
           history := o.history + [Change(Some(Finished), Delivered)])])
      && Step(db, OpDeliver(i, now)).report == Report(Applied, true, None, false)
  {
    DeliveryGoesThrough(db, i, now);
  }

  // ----- the stock room

  lemma OneItem(db: Db, id: ItemId, item: Item)
    requires Constraints(db)
    ensures Constraints(db.(items := db.items[id := item])) <==> ItemConstraints(item)
  {
    var after := db.(items := db.items[id := item]);
    forall k | 0 <= k < |db.orders| ensures OrderConstraints(after.orders[k], after) {
      assert OrderConstraints(db.orders[k], db);
    }
    assert after.items[id] == item;
  }

  /** A new item has nothing reserved. */
  lemma CreateItemExactly(db: Db, id: ItemId, name: string, price: int, stock: int)
    requires Constraints(db)
    ensures var out := Step(db, OpCreateItem(id, name, price, stock));
      && (out.Committed? <==> id !in db.items && 0 <= price && 0 <= stock)
      && (out.Committed? ==> out.db == db.(items := db.items[id := Item(name, price, stock, 0)]))
  {
    OneItem(db, id, Item(name, price, stock, 0));
  }

  /** An update writes what is given and keeps the rest, and never takes the stock below what is reserved. */
  lemma UpdateItemExactly(db: Db, id: ItemId, name: Option<string>, price: Option<int>, stock: Option<int>)
    requires Constraints(db)
    ensures var out := Step(db, OpUpdateItem(id, name, price, stock));
      && (out.Committed? <==>
            && id in db.items && (price.Some? ==> 0 <= price.value)
            && (stock.Some? ==> db.items[id].reserved <= stock.value))
      && (out.Committed? ==>
            var i := db.items[id];
            && out.db == db.(items := db.items[id := out.db.items[id]])
            && out.db.items[id].name == (if name.Some? then name.value else i.name)
            && out.db.items[id].price == (if price.Some? then price.value else i.price)
            && out.db.items[id].stock == (if stock.Some? then stock.value else i.stock)
            && out.db.items[id].reserved == i.reserved)
  {
    if id in db.items {
      var i := db.items[id];
      OneItem(db, id, Item(Or(name, i.name), Or(price, i.price), Or(stock, i.stock), i.reserved));
    }
  }

  /** An item goes exactly when no order has a line of it, delivered and cancelled orders included. */
  lemma DeleteItemExactly(db: Db, id: ItemId)
    requires Constraints(db) && Reservations(db)
    ensures var out := Step(db, OpDeleteItem(id));
      && (out.Committed? <==> id in db.items && forall k :: 0 <= k < |db.orders| ==> !HasLine(db.orders[k].items, id))
      && (out.Committed? ==> out.db == db.(items := db.items - {id}))
  {
    var after := db.(items := db.items - {id});
    if id in db.items && forall k :: 0 <= k < |db.orders| ==> !HasLine(db.orders[k].items, id) {
      NothingReserved(db, id);
      forall k | 0 <= k < |db.orders| ensures OrderConstraints(after.orders[k], after) {
        assert OrderConstraints(db.orders[k], db);
        assert !HasLine(db.orders[k].items, id);
      }
    }
    if DeleteItem(db, id).Committed? {
      forall k | 0 <= k < |db.orders| ensures !HasLine(db.orders[k].items, id) {
        assert OrderConstraints(after.orders[k], after);
        forall j | 0 <= j < |db.orders[k].items| ensures db.orders[k].items[j].itemId != id {
          assert db.orders[k].items[j] in after.orders[k].items;
        }
      }
    }
  }

  lemma NothingReserved(db: Db, id: ItemId)
    requires Reservations(db) && id in db.items && forall k :: 0 <= k < |db.orders| ==> !HasLine(db.orders[k].items, id)
    ensures db.items[id].reserved == 0
  {
    forall k | 0 <= k < |db.orders| ensures HeldBy(id)(db.orders[k]) == 0 {
      assert !HasLine(db.orders[k].items, id);
      QuantityAbsent(db.orders[k].items, id);
    }
    TotalZero(db.orders, HeldBy(id));
  }

  /** Services and customers may change in any way that leaves what orders refer to and no negative price. */
  lemma EditCatalogueExactly(db: Db, services: map<ServiceId, Service>, customers: map<CustomerId, Customer>)
    requires Constraints(db)
    ensures var out := Step(db, OpEditCatalogue(services, customers));
      && (out.Committed? <==>
            && (forall s :: s in services ==> 0 <= services[s].price)
            && (forall k :: 0 <= k < |db.orders| ==>
                  db.orders[k].customerId in customers && forall s :: s in db.orders[k].services ==> s in services))
      && (out.Committed? ==> out.db == db.(services := services, customers := customers))
  {
    var after := db.(services := services, customers := customers);
    forall k | 0 <= k < |db.orders|
      ensures OrderConstraints(after.orders[k], after) <==>
        db.orders[k].customerId in customers && forall s :: s in db.orders[k].services ==> s in services
    {
      assert OrderConstraints(db.orders[k], db);
    }
  }
}
