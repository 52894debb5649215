/** The status history of an order is a path of the state machine that ends at its status, and the three
    timestamps say which of the dated statuses the path went through. */
module History {
  import opened Entities
  import opened StateMachine
  import opened Machine

  function Last(h: seq<Change>): Status
    requires h != []
  {
    h[|h| - 1].to
  }

  /** Opens in Received and chains every entry to the one before by a legal transition. */
  ghost predicate Chain(h: seq<Change>) {
    && h != []
    && h[0] == Change(None, Received)
    && (forall k :: 1 <= k < |h| ==> h[k].from == Some(h[k - 1].to) && CanTransition(h[k - 1].to, h[k].to))
  }

  ghost predicate Passed(h: seq<Change>, s: Status) {
    exists k :: 0 <= k < |h| && h[k].to == s
  }

  ghost predicate Recorded(o: Order) {
    && Chain(o.history)
    && Last(o.history) == o.status
    && (o.startedAt.Some? <==> Passed(o.history, Execution))
    && (o.finishedAt.Some? <==> Passed(o.history, Finished))
    && (o.deliveredAt.Some? <==> Passed(o.history, Delivered))
  }

  /** Every entry of a chain leaves room for one transition less. */
  lemma {:induction false} ChainBound(h: seq<Change>)
    requires Chain(h)
    ensures |h| + Rank(Last(h)) <= 8
  {
    if |h| == 1 {
    } else {
      var front := h[..|h| - 1];
      assert Chain(front);
      ChainBound(front);
      TransitionsLowerTheRank(Last(front), Last(h));
    }
  }

  /** A status once passed was reached from Received by the only path there is; a cancellation has three. */
  function PathTo(s: Status): seq<Status> {
    match s
    case Received => [Received]
    case Diagnosis => [Received, Diagnosis]
    case WaitingApproval => [Received, Diagnosis, WaitingApproval]
    case Approved => [Received, Diagnosis, WaitingApproval, Approved]
    case Paid => [Received, Diagnosis, WaitingApproval, Approved, Paid]
    case Execution => [Received, Diagnosis, WaitingApproval, Approved, Paid, Execution]
    case Finished => [Received, Diagnosis, WaitingApproval, Approved, Paid, Execution, Finished]
    case Delivered => [Received, Diagnosis, WaitingApproval, Approved, Paid, Execution, Finished, Delivered]
    case Rejected => [Received, Diagnosis, WaitingApproval, Rejected]
    case Cancelled => []
  }

  function Statuses(h: seq<Change>): seq<Status> {
    seq(|h|, k requires 0 <= k < |h| => h[k].to)
  }

  lemma {:induction false} PathDetermined(h: seq<Change>)
    requires Chain(h)
    ensures
      if Last(h).Cancelled? then
        exists s :: CanTransition(s, Cancelled) && Statuses(h) == PathTo(s) + [Cancelled]
      else Statuses(h) == PathTo(Last(h))
    decreases |h|
  {
    if |h| == 1 {
      assert Statuses(h) == [Received];
    } else {
      var front := h[..|h| - 1];
      assert Chain(front);
      PathDetermined(front);
      assert Statuses(h) == Statuses(front) + [Last(h)];
      assert CanTransition(Last(front), Last(h));
    }
  }

  /** A passed status is on the path, so being past Paid and having Paid in the history are the same. */
  lemma PaidOnPath(h: seq<Change>)
    requires Chain(h)
    ensures Passed(h, Paid) <==> PaidFor(Last(h))
  {
    PathDetermined(h);
    var path := Statuses(h);
    if Passed(h, Paid) {
      var k :| 0 <= k < |h| && h[k].to == Paid;
      assert path[k] == Paid;
    }
    if PaidFor(Last(h)) {
      assert path[4] == Paid;
    }
  }

  lemma PassedAppend(h: seq<Change>, c: Change, s: Status)
    ensures Passed(h + [c], s) <==> Passed(h, s) || c.to == s
  {
    var g := h + [c];
    if Passed(h, s) {
      var k :| 0 <= k < |h| && h[k].to == s;
      assert g[k].to == s;
    }
    if c.to == s {
      assert g[|h|].to == s;
    }
  }

  /** A legal versioned write that dates what it enters keeps the record true. */
  lemma WriteRecorded(o: Order, c: Changes)
    requires Recorded(o)
    requires c.status.Some? ==> CanTransition(o.status, c.status.value)
    requires c.startedAt.Some? <==> c.status == Some(Execution)
    requires c.finishedAt.Some? <==> c.status == Some(Finished)
    requires c.deliveredAt.Some? <==> c.status == Some(Delivered)
    ensures Recorded(Write(o, c))
    ensures o.history <= Write(o, c).history
  {
    if c.status.Some? {
      TransitionsLowerTheRank(o.status, c.status.value);
      var entry := Change(Some(o.status), c.status.value);
      PassedAppend(o.history, entry, Execution);
      PassedAppend(o.history, entry, Finished);
      PassedAppend(o.history, entry, Delivered);
    }
  }

  lemma AfterRecorded(o: Order, b: Body, now: Time)
    requires Recorded(o) && Expects(b, o.status)
    ensures Recorded(After(o, b, now)) && o.history <= After(o, b, now).history
  {
    if ChangesOf(b, now).Some? {
      WriteRecorded(o, ChangesOf(b, now).value);
    }
  }

  ghost predicate Histories(db: Db) {
    forall i :: 0 <= i < |db.orders| ==> Recorded(db.orders[i])
  }

  /** Orders are never lost and their histories only grow. */
  ghost predicate Grows(db: Db, after: Db) {
    && |db.orders| <= |after.orders|
    && (forall i :: 0 <= i < |db.orders| ==> db.orders[i].history <= after.orders[i].history)
  }

  lemma RewriteRecorded(db: Db, i: OrderId, c: Changes, items: map<ItemId, Item>)
    requires Histories(db) && i < |db.orders| && Rewrite(db, i, c, items).Committed?
    requires c.status.None? && c.startedAt.None? && c.finishedAt.None? && c.deliveredAt.None?
    ensures Histories(Rewrite(db, i, c, items).db) && Grows(db, Rewrite(db, i, c, items).db)
  {
  }

  lemma MessageRecorded(db: Db, d: Delivery, now: Time, cat: Catalogue)
    requires Histories(db) && Handle(db, d, now, cat).Committed?
    ensures Histories(Handle(db, d, now, cat).db) && Grows(db, Handle(db, d, now, cat).db)
  {
    if d.id !in db.processed && Expected(db, d) {
      AfterRecorded(db.orders[d.order], d.body, now);
    }
  }

  lemma OpeningRecorded(db: Db, customerId: CustomerId, services: seq<ServiceId>, lines: seq<Line>)
    requires Histories(db) && Open(db, customerId, services, lines).Committed?
    ensures Histories(Open(db, customerId, services, lines).db) && Grows(db, Open(db, customerId, services, lines).db)
  {
  }

  lemma DeliveryRecorded(db: Db, i: OrderId, now: Time)
    requires Histories(db) && Deliver(db, i, now).Committed?
    ensures Histories(Deliver(db, i, now).db) && Grows(db, Deliver(db, i, now).db)
  {
    WriteRecorded(db.orders[i], Changes(status := Some(Delivered), deliveredAt := Some(now)));
  }

  lemma EditRecorded(db: Db, op: Op)
    requires Histories(db) && Step(db, op).Committed?
    requires op.OpAddItem? || op.OpRemoveItem? || op.OpAddService? || op.OpRemoveService?
    ensures Histories(Step(db, op).db) && Grows(db, Step(db, op).db)
  {
    match op
    case OpAddItem(i, id, quantity) =>
      RewriteRecorded(db, i, Changes(items := Some(Merged(db.orders[i].items, id, quantity))),
                      db.items[id := Moved(db.items[id], quantity, Reserve)]);
    case OpRemoveItem(i, id) =>
      RewriteRecorded(db, i, Changes(items := Some(Without(db.orders[i].items, id))),
                      db.items[id := Moved(db.items[id], Quantity(db.orders[i].items, id), Release)]);
    case OpAddService(i, id) =>
      RewriteRecorded(db, i, Changes(services := Some(db.orders[i].services + [id])), db.items);
    case OpRemoveService(i, id) =>
      RewriteRecorded(db, i, Changes(services := Some(Dropped(db.orders[i].services, id))), db.items);
  }

  /** No operation on items, services or customers touches an order. */
  lemma CatalogueLeavesOrders(db: Db, op: Op)
    requires op.OpCreateItem? || op.OpUpdateItem? || op.OpDeleteItem? || op.OpEditCatalogue?
    ensures Next(db, op).orders == db.orders && Next(db, op).outbox == db.outbox
      && Next(db, op).processed == db.processed
  {
  }

  lemma StepRecorded(db: Db, op: Op)
    requires Histories(db)
    ensures Histories(Next(db, op)) && Grows(db, Next(db, op))
  {
    if Step(db, op).Committed? {
      match op
      case OpHandle(d, now, cat) => MessageRecorded(db, d, now, cat);
      case OpOpen(customerId, services, lines) => OpeningRecorded(db, customerId, services, lines);
      case OpDeliver(i, now) => DeliveryRecorded(db, i, now);
      case OpCreateItem(_, _, _, _) => CatalogueLeavesOrders(db, op);
      case OpUpdateItem(_, _, _, _) => CatalogueLeavesOrders(db, op);
      case OpDeleteItem(_) => CatalogueLeavesOrders(db, op);
      case OpEditCatalogue(_, _) => CatalogueLeavesOrders(db, op);
      case _ => EditRecorded(db, op);
    }
  }
}
