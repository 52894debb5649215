/** The commands in the outbox for an order are a function of its status history and of its lines, which are
    frozen once the diagnosis is over. */
module Commands {
  import opened Entities
  import opened Machine
  import opened History

  datatype Entry = Entry(kind: LineKind, id: nat, quantity: int)

  /** A command with the lines or tasks it carries, without prices, names or reasons. */
  datatype Sketch = Sketch(destination: Destination, command: Command, entries: seq<Entry>)

  function ServiceEntries(services: seq<ServiceId>): seq<Entry> {
    seq(|services|, k requires 0 <= k < |services| => Entry(ServiceLine, services[k], 1))
  }

  function ItemEntries(lines: seq<Line>): seq<Entry> {
    seq(|lines|, k requires 0 <= k < |lines| => Entry(ItemLine, lines[k].itemId, lines[k].quantity))
  }

  function Entries(p: Payload): seq<Entry> {
    match p
    case BudgetPayload(_, _, _, lines) =>
      seq(|lines|, k requires 0 <= k < |lines| => Entry(lines[k].kind, lines[k].referenceId, lines[k].quantity))
    case RepairPayload(tasks) =>
      seq(|tasks|, k requires 0 <= k < |tasks| => Entry(ServiceLine, tasks[k].serviceId, 1))
    case _ => []
  }

  function SketchOf(m: Message): Sketch {
    Sketch(m.destination, m.command, Entries(m.payload))
  }

  function SentBy(m: Message, i: OrderId): seq<Sketch> {
    if m.order == i then [SketchOf(m)] else []
  }

  /** The commands of one order, in outbox order. */
  function Sent(outbox: seq<Message>, i: OrderId): seq<Sketch> {
    if outbox == [] then [] else SentBy(outbox[0], i) + Sent(outbox[1..], i)
  }

  lemma Associates<T>(a: seq<T>, b: seq<T>, c: seq<T>)
    ensures a + (b + c) == (a + b) + c
  {
  }

  lemma {:induction false} SentConcat(a: seq<Message>, b: seq<Message>, i: OrderId)
    ensures Sent(a + b, i) == Sent(a, i) + Sent(b, i)
  {
    if a == [] {
      assert a + b == b;
    } else {
      assert (a + b)[0] == a[0] && (a + b)[1..] == a[1..] + b;
      SentConcat(a[1..], b, i);
      Associates(SentBy(a[0], i), Sent(a[1..], i), Sent(b, i));
    }
  }

  lemma {:induction false} SentElsewhere(outbox: seq<Message>, i: OrderId)
    requires forall m :: m in outbox ==> m.order != i
    ensures Sent(outbox, i) == []
  {
    if outbox == [] {
    } else {
      SentElsewhere(outbox[1..], i);
    }
  }

  // ----- what the history asks for

  function ToExecution(c: Command, entries: seq<Entry>): Sketch {
    Sketch(ExecutionCommands, c, entries)
  }

  function ToBilling(c: Command, entries: seq<Entry>): Sketch {
    Sketch(BillingCommands, c, entries)
  }

  function BudgetSketch(services: seq<ServiceId>, lines: seq<Line>): Sketch {
    ToBilling(GenerateBudget, ServiceEntries(services) + ItemEntries(lines))
  }

  function RepairSketch(services: seq<ServiceId>): Sketch {
    ToExecution(EnqueueRepair, ServiceEntries(services))
  }

  /** The commands one history entry asks for. A cancellation undoes what the status it leaves had started. */
  function Asked(c: Change, budget: Sketch, repair: Sketch): seq<Sketch> {
    match c.to
    case Received => [ToExecution(EnqueueDiagnosis, [])]
    case WaitingApproval => [budget]
    case Approved => [ToBilling(RequestPayment, [])]
    case Paid => [repair]
    case Rejected => [ToExecution(CancelExecution, [])]
    case Cancelled =>
      if c.from == Some(WaitingApproval) then [ToExecution(CancelExecution, [])]
      else if c.from == Some(Approved) then [ToExecution(CancelExecution, []), ToBilling(CancelBudget, [])]
      else []
    case _ => []
  }

  function DueFor(c: Change, services: seq<ServiceId>, lines: seq<Line>): seq<Sketch> {
    Asked(c, BudgetSketch(services, lines), RepairSketch(services))
  }

  function Due(h: seq<Change>, services: seq<ServiceId>, lines: seq<Line>): seq<Sketch> {
    if h == [] then [] else Due(h[..|h| - 1], services, lines) + DueFor(h[|h| - 1], services, lines)
  }

  ghost predicate Announced(db: Db) {
    && (forall i :: 0 <= i < |db.orders| ==>
          Sent(db.outbox, i) == Due(db.orders[i].history, db.orders[i].services, db.orders[i].items))
    && (forall m :: m in db.outbox ==> m.order < |db.orders|)
  }

  lemma EntriesOfBudget(o: Order, cat: Catalogue, p: Payload)
    requires Prices(o, cat)
    requires p.BudgetPayload? && p.lines == ServiceLines(o.services, cat) + ItemLines(o.items, cat)
    ensures Entries(p) == ServiceEntries(o.services) + ItemEntries(o.items)
  {
  }

  lemma EntriesOfRepair(o: Order, cat: Catalogue)
    requires NamesServices(o, cat)
    ensures Entries(RepairPayload(Tasks(o.services, cat))) == ServiceEntries(o.services)
  {
  }

  /** What a message writes to the outbox is what the history entry it causes asks for. */
  lemma MessageSendsWhatIsDue(i: OrderId, o: Order, b: Body, now: Time, cat: Catalogue, tx: nat)
    requires Expects(b, o.status) && Answerable(o, b, cat)
    ensures var after := After(o, b, now);
      Sent(MessagesOf(i, o, b, cat, tx), i) ==
        if after.status == o.status then [] else DueFor(Change(Some(o.status), after.status), o.services, o.items)
  {
    var ms := MessagesOf(i, o, b, cat, tx);
    if GenerateBudget in Sends(b) {
      EntriesOfBudget(o, cat, PayloadOf(GenerateBudget, o, b, cat));
    }
    if EnqueueRepair in Sends(b) {
      EntriesOfRepair(o, cat);
    }
    if |ms| == 1 {
      assert ms == [ms[0]] && Sent(ms, i) == [SketchOf(ms[0])];
    } else if |ms| == 2 {
      assert ms == [ms[0]] + [ms[1]];
      SentConcat([ms[0]], [ms[1]], i);
    }
  }

  lemma DueAfterWrite(o: Order, c: Changes)
    requires c.services.None? && c.items.None?
    ensures var after := Write(o, c);
      Due(after.history, after.services, after.items) ==
        Due(o.history, o.services, o.items) +
        if after.status == o.status then [] else DueFor(Change(Some(o.status), after.status), o.services, o.items)
  {
  }

  lemma MessageAnnounced(db: Db, d: Delivery, now: Time, cat: Catalogue)
    requires Announced(db) && Expected(db, d) && d.id !in db.processed
    requires Handle(db, d, now, cat).Committed?
    ensures Announced(Handle(db, d, now, cat).db)
  {
    var after := Handle(db, d, now, cat).db;
    var o := db.orders[d.order];
    var ms := MessagesOf(d.order, o, d.body, cat, |db.outbox|);
    MessageSendsWhatIsDue(d.order, o, d.body, now, cat, |db.outbox|);
    if ChangesOf(d.body, now).Some? {
      DueAfterWrite(o, ChangesOf(d.body, now).value);
    }
    forall i | 0 <= i < |after.orders|
      ensures Sent(after.outbox, i) == Due(after.orders[i].history, after.orders[i].services, after.orders[i].items)
    {
      SentConcat(db.outbox, ms, i);
      if i != d.order {
        SentElsewhere(ms, i);
      }
    }
  }

  lemma OpeningAnnounced(db: Db, customerId: CustomerId, services: seq<ServiceId>, lines: seq<Line>)
    requires Announced(db) && Open(db, customerId, services, lines).Committed?
    ensures Announced(Open(db, customerId, services, lines).db)
  {
    var after := Open(db, customerId, services, lines).db;
    var m := Message(ExecutionCommands, EnqueueDiagnosis, |db.orders|, NoPayload, |db.outbox|);
    assert after.orders[|db.orders|].history[..0] == [];
    forall i | 0 <= i < |after.orders|
      ensures Sent(after.outbox, i) == Due(after.orders[i].history, after.orders[i].services, after.orders[i].items)
    {
      SentConcat(db.outbox, [m], i);
      if i == |db.orders| {
        SentElsewhere(db.outbox, i);
      } else {
        SentElsewhere([m], i);
      }
    }
  }

  /** During the diagnosis nothing that carries lines has been sent, so the lines may still change. */
  lemma LinesNotYetSent(o: Order, services: seq<ServiceId>, lines: seq<Line>)
    requires Recorded(o) && o.status.Diagnosis?
    ensures Due(o.history, services, lines) == [ToExecution(EnqueueDiagnosis, [])]
  {
    PathDetermined(o.history);
    var h := o.history;
    assert |h| == |Statuses(h)| == 2;
    assert h[0].to == Statuses(h)[0] && h[1].to == Statuses(h)[1];
    assert h[..1][..0] == [] && h[..1][0] == h[0];
    assert Due(h[..1], services, lines) == Due([], services, lines) + DueFor(h[0], services, lines);
  }

  lemma RewriteAnnounced(db: Db, i: OrderId, c: Changes, items: map<ItemId, Item>)
    requires Announced(db) && Histories(db) && Editable(db, i) && Rewrite(db, i, c, items).Committed?
    requires c.status.None?
    ensures Announced(Rewrite(db, i, c, items).db)
  {
    var o := db.orders[i];
    LinesNotYetSent(o, o.services, o.items);
    LinesNotYetSent(o, Write(o, c).services, Write(o, c).items);
  }

  lemma DeliveryAnnounced(db: Db, i: OrderId, now: Time)
    requires Announced(db) && Deliver(db, i, now).Committed?
    ensures Announced(Deliver(db, i, now).db)
  {
    DueAfterWrite(db.orders[i], Changes(status := Some(Delivered), deliveredAt := Some(now)));
  }

  lemma StepAnnounced(db: Db, op: Op)
    requires Announced(db) && Histories(db)
    ensures Announced(Next(db, op))
  {
    if Step(db, op).Committed? {
      match op
      case OpHandle(d, now, cat) =>
        if d.id !in db.processed && Expected(db, d) {
          MessageAnnounced(db, d, now, cat);
        }
      case OpOpen(customerId, services, lines) => OpeningAnnounced(db, customerId, services, lines);
      case OpAddItem(i, id, quantity) =>
        RewriteAnnounced(db, i, Changes(items := Some(Merged(db.orders[i].items, id, quantity))),
                         db.items[id := Moved(db.items[id], quantity, Reserve)]);
      case OpRemoveItem(i, id) =>
        RewriteAnnounced(db, i, Changes(items := Some(Without(db.orders[i].items, id))),
                         db.items[id := Moved(db.items[id], Quantity(db.orders[i].items, id), Release)]);
      case OpAddService(i, id) =>
        RewriteAnnounced(db, i, Changes(services := Some(db.orders[i].services + [id])), db.items);
      case OpRemoveService(i, id) =>
        RewriteAnnounced(db, i, Changes(services := Some(Dropped(db.orders[i].services, id))), db.items);
      case OpDeliver(i, now) => DeliveryAnnounced(db, i, now);
      case _ =>
    }
  }

  // ----- transactions and their times

  /** When each transaction began, in the precision of the database. */
  type Clock = nat -> nat

  /** Rows of one transaction share their creation time. */
  function CreatedAt(clock: Clock, m: Message): nat {
    clock(m.tx)
  }

  /** Messages about one order to one destination. */
  predicate SameTarget(a: Message, b: Message) {
    a.order == b.order && a.destination == b.destination
  }

  /** Transactions follow outbox order, and one never writes two messages about an order to one destination. */
  ghost predicate Stamped(outbox: seq<Message>) {
    && (forall k :: 0 <= k < |outbox| ==> outbox[k].tx <= k)
    && (forall j, k :: 0 <= j < k < |outbox| ==> outbox[j].tx <= outbox[k].tx)
    && (forall j, k :: 0 <= j < k < |outbox| && SameTarget(outbox[j], outbox[k]) ==> outbox[j].tx < outbox[k].tx)
  }

  lemma AppendStamped(outbox: seq<Message>, ms: seq<Message>)
    requires Stamped(outbox)
    requires forall k :: 0 <= k < |ms| ==> ms[k].tx == |outbox|
    requires forall j, k :: 0 <= j < k < |ms| ==> ms[j].destination != ms[k].destination
    ensures Stamped(outbox + ms)
  {
  }

  lemma MessageStamped(db: Db, d: Delivery, now: Time, cat: Catalogue)
    requires Stamped(db.outbox) && Handle(db, d, now, cat).Committed?
    ensures Stamped(Handle(db, d, now, cat).db.outbox) && db.outbox <= Handle(db, d, now, cat).db.outbox
  {
    if d.id !in db.processed && Expected(db, d) {
      AppendStamped(db.outbox, MessagesOf(d.order, db.orders[d.order], d.body, cat, |db.outbox|));
    }
  }

  /** Only messages and openings write to the outbox. */
  lemma OthersSendNothing(db: Db, op: Op)
    requires !op.OpHandle? && !op.OpOpen?
    ensures Next(db, op).outbox == db.outbox
  {
  }

  lemma StepStamped(db: Db, op: Op)
    requires Stamped(db.outbox)
    ensures Stamped(Next(db, op).outbox) && db.outbox <= Next(db, op).outbox
  {
    if Step(db, op).Committed? {
      match op
      case OpHandle(d, now, cat) => MessageStamped(db, d, now, cat);
      case OpOpen(_, _, _) =>
        AppendStamped(db.outbox, [Message(ExecutionCommands, EnqueueDiagnosis, |db.orders|, NoPayload, |db.outbox|)]);
      case _ => OthersSendNothing(db, op);
    }
  }
}
