/** The use cases of the front desk: opening an order, editing it during the diagnosis, delivering it, and keeping the
    stock, statement by statement, each proved to do what the machine says. */
module UseCases {
  import opened Entities
  import opened StateMachine
  import opened Machine
  import opened Stock
  import opened Database
  import opened Orchestrator
  import opened Edits

  // ----- opening an order

  lemma {:induction false} QuantityConcat(a: seq<Line>, b: seq<Line>, id: ItemId)
    ensures Quantity(a + b, id) == Quantity(a, id) + Quantity(b, id)
  {
    if a == [] {
      assert a + b == b;
    } else {
      assert (a + b)[1..] == a[1..] + b;
      QuantityConcat(a[1..], b, id);
    }
  }

  /** If the whole opening keeps the constraints, every reservation of the loop fits when its turn comes. */
  lemma ReservationFits(db: Db, lines: seq<Line>, k: nat)
    requires Constraints(db) && k < |lines| && ItemRows(lines, db.items)
    requires ItemConstraints(MoveStock(db.items, lines, Reserve)[lines[k].itemId])
    ensures MovedRow(MoveStock(db.items, lines[..k], Reserve), lines[k].itemId, lines[k].quantity, Reserve).0 ==
      Success(true)
  {
    assert lines[k] in lines;
    QuantityUpTo(lines, k);
  }

  /** The lines before one, and the one itself, ask for no more of its item than the whole list. */
  lemma QuantityUpTo(lines: seq<Line>, k: nat)
    requires k < |lines| && (forall l :: l in lines ==> l.quantity > 0)
    ensures 0 <= Quantity(lines[..k], lines[k].itemId)
    ensures Quantity(lines[..k], lines[k].itemId) + lines[k].quantity <= Quantity(lines, lines[k].itemId)
  {
    var id, rest := lines[k].itemId, lines[k + 1..];
    assert lines == lines[..k] + ([lines[k]] + rest);
    QuantityConcat(lines[..k], [lines[k]] + rest, id);
    QuantityConcat([lines[k]], rest, id);
    assert Quantity([lines[k]][1..], id) == 0;
    QuantityNonNegative(lines[..k], id);
    QuantityNonNegative(rest, id);
  }

  lemma RefusedReservation(db: Db, customerId: CustomerId, services: seq<ServiceId>, lines: seq<Line>, k: nat)
    requires Constraints(db) && k < |lines|
    requires MovedRow(MoveStock(db.items, lines[..k], Reserve), lines[k].itemId, lines[k].quantity, Reserve).0 !=
      Success(true)
    ensures Open(db, customerId, services, lines).Aborted?
  {
    var out := Open(db, customerId, services, lines);
    if out.Committed? {
      var after := out.db;
      assert OrderConstraints(after.orders[|db.orders|], after);
      assert lines[k] in lines;
      assert ItemRows(lines, db.items);
      assert ItemConstraints(after.items[lines[k].itemId]);
      ReservationFits(db, lines, k);
    }
  }

  /** Looks every service up, in order; the first that is missing fails the opening. */
  method ResolveServices(db: Database, serviceIds: seq<ServiceId>) returns (r: Result<seq<ServiceId>>)
    ensures if forall s :: s in serviceIds ==> s in db.services then r == Success(serviceIds)
      else r == Failure(NotFound)
  {
    var resolved: seq<ServiceId> := [];
    var k := 0;
    while k < |serviceIds|
      invariant 0 <= k <= |serviceIds| && resolved == serviceIds[..k]
      invariant forall s :: s in serviceIds[..k] ==> s in db.services
    {
      if serviceIds[k] !in db.services {
        assert serviceIds[k] in serviceIds;
        return Failure(NotFound);
      }
      resolved := resolved + [serviceIds[k]];
      assert serviceIds[..k + 1] == serviceIds[..k] + [serviceIds[k]];
      k := k + 1;
    }
    assert serviceIds[..k] == serviceIds;
    r := Success(resolved);
  }

  /** Reserves every line in turn, stopping at the first that is unknown or does not fit. */
  method ReserveLines(db: Database, lines: seq<Line>, customerId: CustomerId, services: seq<ServiceId>)
    returns (r: Result<seq<Line>>)
    requires db.Valid()
    modifies db`items
    ensures db.Valid()
    ensures r.Success? ==> r.value == lines && db.items == MoveStock(old(db.items), lines, Machine.Reserve)
                           && forall l :: l in lines ==> l.itemId in db.items
    ensures r.Failure? ==> Open(old(db.State()), customerId, services, lines).Aborted?
  {
    ghost var before := db.State();
    var reservedItems: seq<Line> := [];
    MoveNothing(before.items, Machine.Reserve);
    assert lines[..0] == [];
    var k := 0;
    while k < |lines|
      invariant 0 <= k <= |lines| && db.Valid()
      invariant reservedItems == lines[..k]
      invariant db.items == MoveStock(before.items, lines[..k], Machine.Reserve)
      invariant forall l :: l in lines[..k] ==> l.itemId in before.items
    {
      var l := lines[k];
      assert l in lines;
      if l.itemId !in db.items {
        return Failure(NotFound);
      }
      var reserved := db.Reserve(l.itemId, l.quantity);
      if reserved != Success(true) {
        RefusedReservation(before, customerId, services, lines, k);
        return if reserved.Failure? then Failure(reserved.error) else Failure(Validation);
      }
      MoveStockNext(before.items, lines, k, Machine.Reserve);
      assert lines[..k + 1] == lines[..k] + [l];
      reservedItems := reservedItems + [l];
      k := k + 1;
    }
    assert lines[..k] == lines;
    r := Success(reservedItems);
  }

  method CreateServiceOrder(db: Database, customerId: CustomerId, serviceIds: seq<ServiceId>, lines: seq<Line>)
    returns (r: Result<OrderId>)
    requires db.Valid()
    modifies db
    ensures db.Valid()
    ensures Settled(Open(old(db.State()), customerId, serviceIds, lines), old(db.State()), db.State(), r.Success?)
    ensures (exists s :: s in serviceIds && s !in old(db.services)) ==> r == Failure(NotFound)
    ensures r.Success? <==> CanOpen(old(db.State()), customerId, serviceIds, lines)
    ensures r.Success? ==>
      && r.value == |old(db.orders)| && |db.orders| == |old(db.orders)| + 1
      && StartsAs(db.orders[r.value], customerId, serviceIds, lines)
      && (forall i :: 0 <= i < |old(db.orders)| ==> db.orders[i] == old(db.orders)[i])
  {
    ghost var before := db.State();
    OpeningExactly(before, customerId, serviceIds, lines);
    var services := ResolveServices(db, serviceIds);
    if services.Failure? {
      return Failure(services.error);
    }
    db.Begin();
    var reserved := ReserveLines(db, lines, customerId, serviceIds);
    if reserved.Failure? {
      db.Rollback();
      return Failure(reserved.error);
    }
    r := db.CreateOrder(customerId, services.value, reserved.value);
    if r.Failure? {
      OpeningRefused(before, db.items, customerId, serviceIds, lines);
      db.Rollback();
      return;
    }
    db.AddMessage(ExecutionCommands, EnqueueDiagnosis, r.value, NoPayload);
  }

  lemma OpeningRefused(before: Db, items: map<ItemId, Item>, customerId: CustomerId, services: seq<ServiceId>,
      lines: seq<Line>)
    requires items == MoveStock(before.items, lines, Machine.Reserve)
    requires !OrderConstraints(Opened(customerId, services, lines), before.(items := items))
    ensures Open(before, customerId, services, lines).Aborted?
  {
    var o := Opened(customerId, services, lines);
    var after := before.(items := items, orders := before.orders + [o],
                         outbox := before.outbox + [Message(ExecutionCommands, EnqueueDiagnosis, |before.orders|,
                           NoPayload, |before.outbox|)]);
    assert after.orders[|before.orders|] == o;
    assert !OrderConstraints(o, after);
  }

  // ----- editing an order during the diagnosis

  /** An edit fails exactly when the order's new row, or the item's, breaks a constraint. */
  lemma RewriteRefused(before: Db, i: OrderId, c: Changes, items: map<ItemId, Item>)
    requires i < |before.orders|
    requires
      || !OrderConstraints(Write(before.orders[i], c), before.(items := items))
      || exists id :: id in items && !ItemConstraints(items[id])
    ensures Rewrite(before, i, c, items).Aborted?
  {
    var after := before.(items := items, orders := before.orders[i := Write(before.orders[i], c)]);
    if !OrderConstraints(Write(before.orders[i], c), before.(items := items)) {
      assert !OrderConstraints(after.orders[i], after);
    }
  }

  function MapLines(lines: seq<Line>, id: ItemId, quantity: int): seq<Line> {
    seq(|lines|, k requires 0 <= k < |lines| =>
      if lines[k].itemId == id then Line(id, lines[k].quantity + quantity) else lines[k])
  }

  lemma {:induction false} MergedMaps(lines: seq<Line>, id: ItemId, quantity: int, k: nat)
    requires DistinctItems(lines) && k < |lines| && lines[k].itemId == id
    ensures Merged(lines, id, quantity) == MapLines(lines, id, quantity)
  {
    if k == 0 {
      assert MapLines(lines, id, quantity) == [Line(id, lines[0].quantity + quantity)] + lines[1..];
    } else {
      MergedMaps(lines[1..], id, quantity, k - 1);
      assert MapLines(lines, id, quantity) == [lines[0]] + MapLines(lines[1..], id, quantity);
    }
  }

  /** With one line per item, adding to the matching lines or appending a line is one merge. */
  lemma MergedIsMap(lines: seq<Line>, id: ItemId, quantity: int)
    requires DistinctItems(lines)
    ensures Merged(lines, id, quantity) ==
      if exists k :: 0 <= k < |lines| && lines[k].itemId == id then MapLines(lines, id, quantity)
      else lines + [Line(id, quantity)]
  {
    if k :| 0 <= k < |lines| && lines[k].itemId == id {
      MergedMaps(lines, id, quantity, k);
    } else {
      MergedAppends(lines, id, quantity);
    }
  }

  method AddItemToOrder(db: Database, osId: OrderId, itemId: ItemId, quantity: int) returns (r: Result<Order>)
    requires db.Valid()
    modifies db
    ensures db.Valid()
    ensures Settled(AddItem(old(db.State()), osId, itemId, quantity), old(db.State()), db.State(), r.Success?)
    ensures osId >= |old(db.orders)| ==> r == Failure(NotFound)
    ensures osId < |old(db.orders)| && !old(db.orders)[osId].status.Diagnosis? ==> r == Failure(Validation)
    ensures Editable(old(db.State()), osId) && itemId !in old(db.items) ==> r == Failure(NotFound)
    ensures Editable(old(db.State()), osId) && itemId in old(db.items) ==>
      (!CanMove(old(db.items)[itemId], quantity, Machine.Reserve) ==> r == Failure(Validation))
    ensures r.Success? ==> osId < |db.orders| && r.value == db.orders[osId]
    ensures r.Success? ==>
      && osId < |old(db.orders)| && itemId in old(db.items)
      && WithMore(old(db.orders)[osId].items, itemId, quantity, db.orders[osId].items)
      && var item := old(db.items)[itemId];
         db.State() == Edited(old(db.State()), osId, old(db.orders)[osId].services, db.orders[osId].items,
                              old(db.items)[itemId := item.(reserved := item.reserved + quantity)])
  {
    if AddItem(db.State(), osId, itemId, quantity).Committed? {
      ghost var more := AddItemByFields(db.State(), osId, itemId, quantity);
    }
    ghost var before := db.State();
    db.Begin();
    var os := db.FindOrder(osId);
    if os.None? {
      return Failure(NotFound);
    }
    if !os.value.status.Diagnosis? {
      return Failure(Validation);
    }
    if itemId !in db.items {
      return Failure(NotFound);
    }
    assert OrderConstraints(os.value, before);
    var reserved := db.Reserve(itemId, quantity);
    if reserved != Success(true) {
      if reserved.Failure? {
        ItemRefusedByEdit(before, osId, Changes(items := Some(Merged(os.value.items, itemId, quantity))), itemId,
                          Moved(before.items[itemId], quantity, Machine.Reserve));
      }
      db.Rollback();
      return if reserved.Failure? then Failure(reserved.error) else Failure(Validation);
    }
    var existing := exists k :: 0 <= k < |os.value.items| && os.value.items[k].itemId == itemId;
    var lines := if existing then MapLines(os.value.items, itemId, quantity)
      else os.value.items + [Line(itemId, quantity)];
    MergedIsMap(os.value.items, itemId, quantity);
    r := FinishEdit(db, osId, Changes(items := Some(lines)), before);
  }

  /** The unversioned write at the end of an edit; a failure is left for the unit of work to roll back. */
  method WriteEdit(db: Database, osId: OrderId, c: Changes) returns (r: Result<Order>)
    requires db.Valid() && osId < |db.orders|
    modifies db`orders
    ensures r.Success? <==> OrderConstraints(Write(old(db.orders)[osId], c), old(db.State()))
    ensures r.Success? ==>
      db.Valid() && db.orders == old(db.orders)[osId := Write(old(db.orders)[osId], c)] && r.value == db.orders[osId]
  {
    var updated := db.UpdateOrder(osId, c, None);
    match updated {
      case Failure(error) => r := Failure(error);
      case Success(_) => r := Success(db.orders[osId]);
    }
  }

  /** The end of a unit of work that may have written an item row: write the order's lines, or undo everything. */
  method FinishEdit(db: Database, osId: OrderId, c: Changes, ghost before: Db) returns (r: Result<Order>)
    requires db.Valid() && db.saved == before && Constraints(before)
    requires db.State() == before.(items := db.items) && osId < |before.orders|
    modifies db
    ensures db.Valid()
    ensures Settled(Rewrite(before, osId, c, old(db.items)), before, db.State(), r.Success?)
    ensures r.Success? ==> osId < |db.orders| && r.value == db.orders[osId]
  {
    r := WriteEdit(db, osId, c);
    if r.Failure? {
      RewriteRefused(before, osId, c, db.items);
      db.Rollback();
    }
  }

  lemma ItemRefusedByEdit(before: Db, i: OrderId, c: Changes, id: ItemId, item: Item)
    requires i < |before.orders| && !ItemConstraints(item)
    ensures Rewrite(before, i, c, before.items[id := item]).Aborted?
  {
    var items := before.items[id := item];
    assert id in items && items[id] == item;
    RewriteRefused(before, i, c, items);
  }

  /** The order's line of an item, which holds all of the order's units of it. */
  method FindLine(lines: seq<Line>, itemId: ItemId) returns (r: Option<Line>)
    requires DistinctItems(lines)
    ensures r.None? <==> forall l :: l in lines ==> l.itemId != itemId
    ensures r.Some? ==> r.value in lines && r.value.itemId == itemId && r.value.quantity == Quantity(lines, itemId)
  {
    var k := 0;
    while k < |lines|
      invariant 0 <= k <= |lines|
      invariant forall j :: 0 <= j < k ==> lines[j].itemId != itemId
    {
      if lines[k].itemId == itemId {
        QuantityOfLine(lines, k);
        return Some(lines[k]);
      }
      k := k + 1;
    }
    r := None;
  }

  /** Gives the units of a line back with an absolute write of the reserved quantity, and drops the line. */
  method GiveBack(db: Database, osId: OrderId, line: Line, ghost before: Db) returns (r: Result<Order>)
    requires db.Valid() && db.saved == before && db.State() == before && Editable(before, osId)
    requires var lines := before.orders[osId].items; line in lines && line.quantity == Quantity(lines, line.itemId)
    modifies db
    ensures db.Valid()
    ensures Settled(RemoveItem(before, osId, line.itemId), before, db.State(), r.Success?)
    ensures r.Success? ==> osId < |db.orders| && r.value == db.orders[osId]
  {
    assert OrderConstraints(before.orders[osId], before);
    var lines := Without(db.orders[osId].items, line.itemId);
    if line.itemId in db.items {
      var item := db.items[line.itemId];
      var stored := db.StoreItem(line.itemId, item.(reserved := item.reserved - line.quantity));
      if stored.Failure? {
        ItemRefusedByEdit(before, osId, Changes(items := Some(lines)), line.itemId,
                          Moved(item, line.quantity, Machine.Release));
        db.Rollback();
        return Failure(stored.error);
      }
    }
    r := FinishEdit(db, osId, Changes(items := Some(lines)), before);
  }

  method RemoveItemFromOrder(db: Database, osId: OrderId, itemId: ItemId) returns (r: Result<Order>)
    requires db.Valid()
    modifies db
    ensures db.Valid()
    ensures Settled(RemoveItem(old(db.State()), osId, itemId), old(db.State()), db.State(), r.Success?)
    ensures Editable(old(db.State()), osId) && !(exists l :: l in old(db.orders)[osId].items && l.itemId == itemId) ==>
      r == Failure(NotFound)
    ensures osId >= |old(db.orders)| ==> r == Failure(NotFound)
    ensures osId < |old(db.orders)| && !old(db.orders)[osId].status.Diagnosis? ==> r == Failure(Validation)
    ensures r.Success? ==> osId < |db.orders| && r.value == db.orders[osId]
    ensures r.Success? ==> osId < |old(db.orders)| && HasLine(old(db.orders)[osId].items, itemId)
    ensures r.Success? ==> forall k :: 0 <= k < |old(db.orders)[osId].items| ==>
      (old(db.orders)[osId].items[k].itemId == itemId ==> LineRemoved(old(db.State()), osId, k, db.State()))
  {
    if RemoveItem(db.State(), osId, itemId).Committed? {
      RemovedItem(db.State(), osId, itemId);
    }
    ghost var before := db.State();
    db.Begin();
    var os := db.FindOrder(osId);
    if os.None? {
      return Failure(NotFound);
    }
    if !os.value.status.Diagnosis? {
      return Failure(Validation);
    }
    var lines := os.value.items;
    assert OrderConstraints(os.value, before);
    var existing := FindLine(lines, itemId);
    if existing.None? {
      return Failure(NotFound);
    }
    r := GiveBack(db, osId, existing.value, before);
  }

  method AddServiceToOrder(db: Database, osId: OrderId, serviceId: ServiceId) returns (r: Result<Order>)
    requires db.Valid()
    modifies db
    ensures db.Valid()
    ensures Settled(AddService(old(db.State()), osId, serviceId), old(db.State()), db.State(), r.Success?)
    ensures osId >= |old(db.orders)| ==> r == Failure(NotFound)
    ensures osId < |old(db.orders)| && !old(db.orders)[osId].status.Diagnosis? ==> r == Failure(Validation)
    ensures Editable(old(db.State()), osId) && serviceId !in old(db.services) ==> r == Failure(NotFound)
    ensures Editable(old(db.State()), osId) && serviceId in old(db.services) ==>
      (serviceId in old(db.orders)[osId].services ==> r == Failure(Validation))
    ensures r.Success? ==> osId < |db.orders| && r.value == db.orders[osId]
    ensures r.Success? <==> InDiagnosis(old(db.State()), osId) && serviceId in old(db.services)
                            && serviceId !in old(db.orders)[osId].services
    ensures r.Success? ==>
      var o := old(db.orders)[osId];
      db.State() == Edited(old(db.State()), osId, o.services + [serviceId], o.items, old(db.items))
  {
    AddServiceExactly(db.State(), osId, serviceId);
    var os := db.FindOrder(osId);
    if os.None? {
      return Failure(NotFound);
    }
    if !os.value.status.Diagnosis? {
      return Failure(Validation);
    }
    if serviceId !in db.services {
      return Failure(NotFound);
    }
    if serviceId in os.value.services {
      return Failure(Validation);
    }
    r := EditServices(db, osId, os.value.services + [serviceId]);
  }

  method RemoveServiceFromOrder(db: Database, osId: OrderId, serviceId: ServiceId) returns (r: Result<Order>)
    requires db.Valid()
    modifies db
    ensures db.Valid()
    ensures Settled(RemoveService(old(db.State()), osId, serviceId), old(db.State()), db.State(), r.Success?)
    ensures osId >= |old(db.orders)| ==> r == Failure(NotFound)
    ensures osId < |old(db.orders)| && !old(db.orders)[osId].status.Diagnosis? ==> r == Failure(Validation)
    ensures Editable(old(db.State()), osId) && serviceId !in old(db.orders)[osId].services ==> r == Failure(NotFound)
    ensures r.Success? ==> osId < |db.orders| && r.value == db.orders[osId]
    ensures r.Success? <==> InDiagnosis(old(db.State()), osId) && serviceId in old(db.orders)[osId].services
    ensures r.Success? ==> forall k :: 0 <= k < |old(db.orders)[osId].services| ==>
      var o := old(db.orders)[osId];
      o.services[k] == serviceId ==>
        db.State() == Edited(old(db.State()), osId, o.services[..k] + o.services[k + 1..], o.items, old(db.items))
  {
    RemoveServiceExactly(db.State(), osId, serviceId);
    var os := db.FindOrder(osId);
    if os.None? {
      return Failure(NotFound);
    }
    if !os.value.status.Diagnosis? {
      return Failure(Validation);
    }
    if serviceId !in os.value.services {
      return Failure(NotFound);
    }
    r := EditServices(db, osId, Dropped(os.value.services, serviceId));
  }

  /** One write of the service lines, in a transaction of its own. */
  method EditServices(db: Database, osId: OrderId, services: seq<ServiceId>) returns (r: Result<Order>)
    requires db.Valid() && osId < |db.orders|
    modifies db
    ensures db.Valid()
    ensures Settled(Rewrite(old(db.State()), osId, Changes(services := Some(services)), old(db.items)), old(db.State()),
      db.State(), r.Success?)
    ensures r.Success? ==> osId < |db.orders| && r.value == db.orders[osId]
  {
    ghost var before := db.State();
    db.Begin();
    r := WriteEdit(db, osId, Changes(services := Some(services)));
    if r.Failure? {
      RewriteRefused(before, osId, Changes(services := Some(services)), before.items);
      db.Rollback();
    }
  }

  // ----- delivery

  /** The one manual transition: read, then a write with the version that was read; the customer is told afterwards. */
  method DeliverOrder(db: Database, osId: OrderId, now: Time) returns (r: Result<Order>, notified: seq<OrderId>)
    requires db.Valid()
    modifies db
    ensures db.Valid()
    ensures Settled(Deliver(old(db.State()), osId, now), old(db.State()), db.State(), r.Success?)
    ensures osId >= |old(db.orders)| ==> r == Failure(NotFound)
    ensures osId < |old(db.orders)| && !old(db.orders)[osId].status.Finished? ==> r == Failure(Validation)
    ensures r.Success? ==> osId < |db.orders| && r.value == db.orders[osId]
    ensures notified == if r.Success? then [osId] else []
    ensures r.Success? <==> osId < |old(db.orders)| && old(db.orders)[osId].status == Finished
    ensures r.Success? ==>
      var o := old(db.orders)[osId];
      db.orders == old(db.orders)[osId := o.(
        status := Delivered, deliveredAt := Some(now), version := o.version + 1,
        history := o.history + [Change(Some(Finished), Delivered)])]
  {
    DeliveryExactly(db.State(), osId, now);
    notified := [];
    var os := db.FindOrder(osId);
    if os.None? {
      return Failure(NotFound), [];
    }
    if !CanTransition(os.value.status, Delivered) {
      return Failure(Validation), [];
    }
    assert OrderConstraints(os.value, db.State());
    db.Begin();
    var updated := db.UpdateOrder(osId, Changes(status := Some(Delivered), deliveredAt := Some(now)),
      Some(os.value.version));
    r := Success(db.orders[osId]);
    notified := [osId];
  }

  // ----- items

  method CreateItem(db: Database, id: ItemId, name: string, price: int, stock: int) returns (r: Result<ItemId>)
    requires db.Valid()
    modifies db`items
    ensures db.Valid()
    ensures Settled(Machine.CreateItem(old(db.State()), id, name, price, stock), old(db.State()), db.State(),
      r.Success?)
    ensures price < 0 || stock < 0 ==> r == Failure(Validation)
    ensures r.Success? ==> r.value == id
    ensures r.Success? <==> id !in old(db.items) && 0 <= price && 0 <= stock
    ensures r.Success? ==> db.items == old(db.items)[id := Item(name, price, stock, 0)]
  {
    CreateItemExactly(db.State(), id, name, price, stock);
    if price < 0 || stock < 0 {
      return Failure(Validation);
    }
    if id in db.items {
      return Failure(Constraint);
    }
    var stored := db.StoreItem(id, Item(name, price, stock, 0));
    r := Success(id);
  }

  method UpdateItem(db: Database, id: ItemId, name: Option<string>, price: Option<int>, stock: Option<int>)
    returns (r: Result<Item>)
    requires db.Valid()
    modifies db`items
    ensures db.Valid()
    ensures Settled(Machine.UpdateItem(old(db.State()), id, name, price, stock), old(db.State()), db.State(),
      r.Success?)
    ensures (price.Some? && price.value < 0) || (stock.Some? && stock.value < 0) ==> r == Failure(Validation)
    ensures r == Failure(NotFound) ==> id !in old(db.items)
    ensures r.Success? ==> id in db.items && r.value == db.items[id]
    ensures r.Success? <==>
      && id in old(db.items) && (price.Some? ==> 0 <= price.value)
      && (stock.Some? ==> old(db.items)[id].reserved <= stock.value)
  {
    UpdateItemExactly(db.State(), id, name, price, stock);
    ghost var before := db.State();
    if price.Some? && price.value < 0 {
      ItemRefused(before, id, name, price, stock);
      return Failure(Validation);
    }
    if stock.Some? && stock.value < 0 {
      ItemRefused(before, id, name, price, stock);
      return Failure(Validation);
    }
    if id !in db.items {
      return Failure(NotFound);
    }
    var item := db.items[id];
    if name.Some? { item := item.(name := name.value); }
    if price.Some? { item := item.(price := price.value); }
    if stock.Some? { item := item.(stock := stock.value); }
    var stored := db.StoreItem(id, item);
    if stored.Failure? {
      ItemRefused(before, id, name, price, stock);
      return Failure(stored.error);
    }
    r := Success(item);
  }

  /** A restock below what is reserved, or to a negative value, is refused. */
  lemma ItemRefused(before: Db, id: ItemId, name: Option<string>, price: Option<int>, stock: Option<int>)
    requires id in before.items ==>
      var i := before.items[id]; !ItemConstraints(Item(Or(name, i.name), Or(price, i.price), Or(stock, i.stock),
        i.reserved))
    ensures Machine.UpdateItem(before, id, name, price, stock).Aborted?
  {
    if id in before.items {
      var i := before.items[id];
      var after := before.(items := before.items[id := Item(Or(name, i.name), Or(price, i.price), Or(stock, i.stock),
        i.reserved)]);
      assert id in after.items && !ItemConstraints(after.items[id]);
    }
  }

  method DeleteItem(db: Database, id: ItemId) returns (r: Result<bool>)
    requires db.Valid()
    modifies db`items
    ensures db.Valid()
    ensures Settled(Machine.DeleteItem(old(db.State()), id), old(db.State()), db.State(), r.Success?)
    ensures id !in old(db.items) ==> r == Failure(NotFound)
    ensures id in old(db.items) && old(db.items)[id].reserved > 0 ==> r == Failure(Validation)
  {
    if id !in db.items {
      return Failure(NotFound);
    }
    if db.items[id].reserved > 0 {
      return Failure(Validation);
    }
    ghost var before := db.State();
    r := db.RemoveItemRow(id);
    if r.Failure? {
      var i :| 0 <= i < |db.orders| && !(forall l :: l in db.orders[i].items ==> l.itemId != id);
      var l :| l in db.orders[i].items && l.itemId == id;
      var after := before.(items := before.items - {id});
      assert !OrderConstraints(after.orders[i], after);
    }
  }
}
