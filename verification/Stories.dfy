/** What an order says of itself is what happened to it: its lines are the opened ones with the edits that went
    through, its total the last one Billing reported, and its dates those of the events they name. */
module Stories {
  import opened Entities
  import opened Machine
  import opened Stock
  import opened Reachable
  import opened Effects
  import opened Edits

  /** An order as a reader of its events would know it, with the units of one item. */
  datatype Story = Story(
    customerId: CustomerId,
    services: set<ServiceId>,
    units: int,
    total: Option<int>,
    startedAt: Option<Time>,
    finishedAt: Option<Time>,
    deliveredAt: Option<Time>)

  function SetOf(services: seq<ServiceId>): set<ServiceId> {
    set s | s in services
  }

  const UNTOLD := Story(0, {}, 0, None, None, None, None)

  function StoryOf(o: Order, id: ItemId): Story {
    Story(o.customerId, SetOf(o.services), Quantity(o.items, id), o.budgetTotal, o.startedAt, o.finishedAt,
      o.deliveredAt)
  }

  /** What one operation adds to the story of order `i`; one that did not go through adds nothing. */
  ghost function Heard(db: Db, op: Op, i: OrderId, id: ItemId, story: Story): Story {
    if Step(db, op).Aborted? then story
    else
      match op
      case OpOpen(customerId, services, lines) =>
        if i != |db.orders| then story
        else Story(customerId, SetOf(services), Quantity(lines, id), None, None, None, None)
      case OpHandle(d, now, _) =>
        if d.order != i || !Step(db, op).report.verdict.Applied? then story
        else
          (match d.body
           case ReplyOf(BudgetGenerated(total)) => story.(total := total)
           case ReplyOf(RepairStarted) => story.(startedAt := Some(now))
           case ReplyOf(RepairCompleted) => story.(finishedAt := Some(now))
           case _ => story)
      case OpDeliver(order, now) => if order == i then story.(deliveredAt := Some(now)) else story
      case OpAddItem(order, item, quantity) =>
        if order == i && item == id then story.(units := story.units + quantity) else story
      case OpRemoveItem(order, item) => if order == i && item == id then story.(units := 0) else story
      case OpAddService(order, service) => if order == i then story.(services := story.services + {service}) else story
      case OpRemoveService(order, service) => if order == i then story.(services := story.services - {service})
        else story
      case _ => story
  }

  ghost function Told(db: Db, ops: seq<Op>, i: OrderId, id: ItemId, story: Story): Story
    decreases |ops|
  {
    if ops == [] then story else Told(Next(db, ops[0]), ops[1..], i, id, Heard(db, ops[0], i, id, story))
  }

  /** The story so far is the order's, if there is such an order yet. */
  ghost predicate TrueStory(db: Db, i: OrderId, id: ItemId, story: Story) {
    i < |db.orders| ==> story == StoryOf(db.orders[i], id)
  }

  lemma MessageHeard(db: Db, d: Delivery, now: Time, cat: Catalogue, i: OrderId, id: ItemId, story: Story)
    requires TrueStory(db, i, id, story) && Handle(db, d, now, cat).Committed?
    ensures TrueStory(Handle(db, d, now, cat).db, i, id, Heard(db, OpHandle(d, now, cat), i, id, story))
  {
    if Handle(db, d, now, cat).report.verdict.Applied? {
      assert IsNew(db, d, now, cat);
      AppliedToTheOrder(db, d, now, cat);
    }
  }

  lemma OpeningHeard(db: Db, customerId: CustomerId, services: seq<ServiceId>, lines: seq<Line>, i: OrderId, id: ItemId,
      story: Story)
    requires Constraints(db) && TrueStory(db, i, id, story) && Open(db, customerId, services, lines).Committed?
    ensures TrueStory(Open(db, customerId, services, lines).db, i, id,
      Heard(db, OpOpen(customerId, services, lines), i, id, story))
  {
    OpeningExactly(db, customerId, services, lines);
    var after := Open(db, customerId, services, lines).db;
    assert i < |db.orders| ==> after.orders[i] == after.orders[..|db.orders|][i];
  }

  lemma LineEditHeard(db: Db, op: Op, i: OrderId, id: ItemId, story: Story)
    requires TrueStory(db, i, id, story) && Step(db, op).Committed?
    requires op.OpAddItem? || op.OpRemoveItem? || op.OpAddService? || op.OpRemoveService?
    ensures TrueStory(Step(db, op).db, i, id, Heard(db, op, i, id, story))
  {
    var o := db.orders[op.order];
    match op
    case OpAddItem(_, item, quantity) => QuantityMerged(o.items, item, quantity, id);
    case OpRemoveItem(_, item) => QuantityWithout(o.items, item, id);
    case OpAddService(_, _) =>
    case OpRemoveService(_, service) => DroppedMembers(o.services, service);
  }

  lemma StepHeard(db: Db, op: Op, i: OrderId, id: ItemId, story: Story)
    requires Constraints(db) && TrueStory(db, i, id, story)
    ensures TrueStory(Next(db, op), i, id, Heard(db, op, i, id, story))
  {
    if Step(db, op).Committed? {
      match op
      case OpHandle(d, now, cat) => MessageHeard(db, d, now, cat, i, id, story);
      case OpOpen(customerId, services, lines) => OpeningHeard(db, customerId, services, lines, i, id, story);
      case OpDeliver(order, now) => DeliveryExactly(db, order, now);
      case OpCreateItem(_, _, _, _) =>
      case OpUpdateItem(_, _, _, _) =>
      case OpDeleteItem(_) =>
      case OpEditCatalogue(_, _) =>
      case _ => LineEditHeard(db, op, i, id, story);
    }
  }

  lemma {:induction false} RunTold(db: Db, ops: seq<Op>, i: OrderId, id: ItemId, story: Story)
    requires Inv(db) && TrueStory(db, i, id, story)
    ensures TrueStory(Run(db, ops), i, id, Told(db, ops, i, id, story))
    decreases |ops|
  {
    if ops == [] {
    } else {
      StepHeard(db, ops[0], i, id, story);
      StepKeepsInv(db, ops[0]);
      RunTold(Next(db, ops[0]), ops[1..], i, id, Heard(db, ops[0], i, id, story));
    }
  }

  /** On every run, an order is what its story tells: the services and the units of each item it was opened with and
      every edit that went through, the total of the last budget that was applied, and the three dates. */
  lemma OrdersTellTheirStory(ops: seq<Op>, i: OrderId, id: ItemId)
    requires i < |Run(EMPTY, ops).orders|
    ensures StoryOf(Run(EMPTY, ops).orders[i], id) == Told(EMPTY, ops, i, id, UNTOLD)
  {
    EmptyInv();
    RunTold(EMPTY, ops, i, id, UNTOLD);
  }
}
