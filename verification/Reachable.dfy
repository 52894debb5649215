/** The invariant of the whole machine and what it says of every run from an empty database, with Billing and
    Execution free to send any message at any time. */
module Reachable {
  import opened Entities
  import opened StateMachine
  import opened Machine
  import opened Stock
  import opened History
  import opened Commands

  ghost predicate Inv(db: Db) {
    Constraints(db) && Reservations(db) && Histories(db) && Announced(db) && Stamped(db.outbox)
  }

  lemma StepKeepsReservations(db: Db, op: Op)
    requires Constraints(db) && Reservations(db)
    ensures Reservations(Next(db, op))
  {
    if Step(db, op).Committed? {
      var after := Next(db, op);
      forall id | id in after.items
        ensures after.items[id].reserved == Total(after.orders, HeldBy(id))
      {
        StepBalanced(db, op, id);
        if id !in db.items {
          UnknownItemUnheld(db, id);
        }
      }
    }
  }

  lemma StepKeepsInv(db: Db, op: Op)
    requires Inv(db)
    ensures Inv(Next(db, op)) && Grows(db, Next(db, op)) && db.outbox <= Next(db, op).outbox
  {
    StepKeepsReservations(db, op);
    StepRecorded(db, op);
    StepAnnounced(db, op);
    StepStamped(db, op);
    assert Constraints(Next(db, op)) by {
      StepKeepsConstraints(db, op);
    }
  }

  lemma StepKeepsConstraints(db: Db, op: Op)
    requires Constraints(db)
    ensures Constraints(Next(db, op))
  {
    if op.OpHandle? {
      var d := op.d;
      var seen := db.(processed := db.processed + {d.id});
      assert Constraints(seen) by {
        forall i | 0 <= i < |seen.orders| ensures OrderConstraints(seen.orders[i], seen) {
          assert OrderConstraints(db.orders[i], db);
        }
      }
    }
  }

  lemma {:induction false} RunKeepsInv(db: Db, ops: seq<Op>)
    requires Inv(db)
    ensures Inv(Run(db, ops)) && Grows(db, Run(db, ops)) && db.outbox <= Run(db, ops).outbox
    decreases |ops|
  {
    if ops == [] {
    } else {
      StepKeepsInv(db, ops[0]);
      RunKeepsInv(Next(db, ops[0]), ops[1..]);
    }
  }

  lemma EmptyInv()
    ensures Inv(EMPTY)
  {
  }

  // ----- reservations and the stock ledger

  /** In every reachable state each item's reserved quantity is the sum of its line quantities over the live orders,
      and lies between zero and its stock. */
  lemma ReservationsConserved(ops: seq<Op>, id: ItemId)
    ensures var db := Run(EMPTY, ops);
      id in db.items ==>
        && db.items[id].reserved == Total(db.orders, HeldBy(id))
        && 0 <= db.items[id].reserved <= db.items[id].stock
  {
    RunKeepsInv(EMPTY, ops);
  }

  /** The units of an item that creations, restocks and removals of the item brought over a run. */
  ghost function SuppliedOver(db: Db, ops: seq<Op>, id: ItemId): int
    decreases |ops|
  {
    if ops == [] then 0 else Supplied(db, ops[0], id) + SuppliedOver(Next(db, ops[0]), ops[1..], id)
  }

  lemma {:induction false} LedgerOver(db: Db, ops: seq<Op>, id: ItemId)
    requires Inv(db)
    ensures StockOf(Run(db, ops), id) + Total(Run(db, ops).orders, UsedBy(id)) ==
      StockOf(db, id) + Total(db.orders, UsedBy(id)) + SuppliedOver(db, ops, id)
    decreases |ops|
  {
    if ops == [] {
    } else {
      if Step(db, ops[0]).Committed? {
        StepBalanced(db, ops[0], id);
      }
      StepKeepsInv(db, ops[0]);
      LedgerOver(Next(db, ops[0]), ops[1..], id);
    }
  }

  /** On every run each item's stock is what was supplied minus the line quantities of the orders that were paid. */
  lemma StockLedger(ops: seq<Op>, id: ItemId)
    ensures StockOf(Run(EMPTY, ops), id) == SuppliedOver(EMPTY, ops, id) - Total(Run(EMPTY, ops).orders, UsedBy(id))
  {
    LedgerOver(EMPTY, ops, id);
  }

  // ----- histories

  /** Every order's history is a path from Received to its status with at most eight entries, and its timestamps say
      which dated statuses it passed. */
  lemma HistoriesArePaths(ops: seq<Op>, i: OrderId)
    requires i < |Run(EMPTY, ops).orders|
    ensures var o := Run(EMPTY, ops).orders[i];
      && Chain(o.history) && Last(o.history) == o.status && |o.history| + Rank(o.status) <= 8
      && (o.startedAt.Some? <==> Passed(o.history, Execution))
      && (o.finishedAt.Some? <==> Passed(o.history, Finished))
      && (o.deliveredAt.Some? <==> Passed(o.history, Delivered))
  {
    RunKeepsInv(EMPTY, ops);
    ChainBound(Run(EMPTY, ops).orders[i].history);
  }

  // ----- commands

  /** The commands an order has sent when `c` is the last entry of its history. */
  function Listed(c: Change): seq<Command> {
    match c.to
    case Received | Diagnosis => [EnqueueDiagnosis]
    case WaitingApproval => [EnqueueDiagnosis, GenerateBudget]
    case Approved => [EnqueueDiagnosis, GenerateBudget, RequestPayment]
    case Paid | Execution | Finished | Delivered => [EnqueueDiagnosis, GenerateBudget, RequestPayment, EnqueueRepair]
    case Rejected => [EnqueueDiagnosis, GenerateBudget, CancelExecution]
    case Cancelled =>
      if c.from == Some(Approved) then [EnqueueDiagnosis, GenerateBudget, RequestPayment, CancelExecution, CancelBudget]
      else if c.from == Some(WaitingApproval) then [EnqueueDiagnosis, GenerateBudget, CancelExecution]
      else [EnqueueDiagnosis]
  }

  /** The lines or tasks a command carries. */
  function Carried(c: Command, services: seq<ServiceId>, lines: seq<Line>): seq<Entry> {
    match c
    case GenerateBudget => ServiceEntries(services) + ItemEntries(lines)
    case EnqueueRepair => ServiceEntries(services)
    case _ => []
  }

  function Sketched(c: Command, budget: Sketch, repair: Sketch): Sketch {
    match c
    case GenerateBudget => budget
    case EnqueueRepair => repair
    case _ => Sketch(DestinationOf(c), c, [])
  }

  function AllSketched(cs: seq<Command>, budget: Sketch, repair: Sketch): seq<Sketch> {
    seq(|cs|, k requires 0 <= k < |cs| => Sketched(cs[k], budget, repair))
  }

  lemma ListedStep(c: Change, next: Change, budget: Sketch, repair: Sketch)
    requires next.from == Some(c.to) && CanTransition(c.to, next.to)
    ensures AllSketched(Listed(c), budget, repair) + Asked(next, budget, repair) ==
      AllSketched(Listed(next), budget, repair)
  {
  }

  lemma {:induction false} DueListed(h: seq<Change>, services: seq<ServiceId>, lines: seq<Line>)
    requires Chain(h)
    ensures Due(h, services, lines) ==
      AllSketched(Listed(h[|h| - 1]), BudgetSketch(services, lines), RepairSketch(services))
  {
    var front := h[..|h| - 1];
    if |h| == 1 {
      assert Due(front, services, lines) == [];
    } else {
      assert Chain(front);
      DueListed(front, services, lines);
      ListedStep(front[|front| - 1], h[|h| - 1], BudgetSketch(services, lines), RepairSketch(services));
    }
  }

  /** The statuses an order has passed when `c` is the last entry of its history. */
  function PathOf(c: Change): seq<Status> {
    if c.to.Cancelled? && c.from.Some? then PathTo(c.from.value) + [Cancelled] else PathTo(c.to)
  }

  lemma HistoryPath(h: seq<Change>)
    requires Chain(h)
    ensures Statuses(h) == PathOf(h[|h| - 1])
    ensures Last(h).Cancelled? ==> h[|h| - 1].from.Some? && CanTransition(h[|h| - 1].from.value, Cancelled)
  {
    PathDetermined(h);
    if Last(h).Cancelled? {
      var from :| CanTransition(from, Cancelled) && Statuses(h) == PathTo(from) + [Cancelled];
      assert Statuses(h)[|h| - 2] == from;
    }
  }

  lemma ListedOnPath(c: Change)
    requires c.to.Cancelled? ==> c.from.Some? && CanTransition(c.from.value, Cancelled)
    ensures GenerateBudget in Listed(c) <==> WaitingApproval in PathOf(c)
    ensures RequestPayment in Listed(c) <==> Approved in PathOf(c)
    ensures EnqueueRepair in Listed(c) <==> Paid in PathOf(c)
    ensures CancelExecution in Listed(c) <==> Undone(c.to) && Diagnosis in PathOf(c)
    ensures CancelBudget in Listed(c) <==> c.to.Cancelled? && Approved in PathOf(c)
  {
  }

  /** What the end of a history says of the statuses on the way, and so of the commands listed for it. */
  lemma ListedByHistory(h: seq<Change>)
    requires Chain(h)
    ensures var s := Listed(h[|h| - 1]);
      && (GenerateBudget in s <==> Passed(h, WaitingApproval))
      && (RequestPayment in s <==> Passed(h, Approved))
      && (EnqueueRepair in s <==> Passed(h, Paid))
      && (CancelExecution in s <==> Undone(Last(h)) && Passed(h, Diagnosis))
      && (CancelBudget in s <==> Last(h).Cancelled? && Passed(h, Approved))
  {
    HistoryPath(h);
    ListedOnPath(h[|h| - 1]);
    PassedOnPath(h, WaitingApproval);
    PassedOnPath(h, Approved);
    PassedOnPath(h, Paid);
    PassedOnPath(h, Diagnosis);
  }

  lemma ListedDistinct(c: Change)
    ensures forall j, k :: 0 <= j < k < |Listed(c)| ==> Listed(c)[j] != Listed(c)[k]
  {
  }

  lemma PassedOnPath(h: seq<Change>, t: Status)
    ensures Passed(h, t) <==> t in Statuses(h)
  {
    if Passed(h, t) {
      var k :| 0 <= k < |h| && h[k].to == t;
      assert Statuses(h)[k] == t;
    }
    if t in Statuses(h) {
      var k :| 0 <= k < |h| && Statuses(h)[k] == t;
      assert h[k].to == t;
    }
  }

  function SentCommands(outbox: seq<Message>, i: OrderId): seq<Command> {
    var s := Sent(outbox, i);
    seq(|s|, k requires 0 <= k < |s| => s[k].command)
  }

  /** In every reachable state the commands of an order, and the lines they carry, are those its history lists. */
  lemma SentIsListed(db: Db, i: OrderId)
    requires Inv(db) && i < |db.orders|
    ensures var o := db.orders[i];
      var s := Sent(db.outbox, i);
      var cs := Listed(o.history[|o.history| - 1]);
      && SentCommands(db.outbox, i) == cs
      && (forall k :: 0 <= k < |s| ==>
            s[k].destination == DestinationOf(cs[k]) && s[k].entries == Carried(cs[k], o.services, o.items))
  {
    var o := db.orders[i];
    var cs := Listed(o.history[|o.history| - 1]);
    DueListed(o.history, o.services, o.items);
    forall k | 0 <= k < |cs|
      ensures var sketch := Sent(db.outbox, i)[k];
        sketch.command == cs[k] && sketch.destination == DestinationOf(cs[k])
          && sketch.entries == Carried(cs[k], o.services, o.items)
    {
      SketchedCarries(cs[k], o.services, o.items);
    }
  }

  lemma SketchedCarries(c: Command, services: seq<ServiceId>, lines: seq<Line>)
    ensures Sketched(c, BudgetSketch(services, lines), RepairSketch(services)) ==
      Sketch(DestinationOf(c), c, Carried(c, services, lines))
  {
  }

  /** Whatever the participants answer, an order sends each command at most once, as its history asks. */
  lemma CommandsFollowHistory(ops: seq<Op>, i: OrderId)
    requires i < |Run(EMPTY, ops).orders|
    ensures var db := Run(EMPTY, ops);
      var o := db.orders[i];
      var s := SentCommands(db.outbox, i);
      && (forall j, k :: 0 <= j < k < |s| ==> s[j] != s[k])
      && (GenerateBudget in s <==> Passed(o.history, WaitingApproval))
      && (RequestPayment in s <==> Passed(o.history, Approved))
      && (EnqueueRepair in s <==> PaidFor(o.status))
      && (CancelExecution in s <==> Undone(o.status) && Passed(o.history, Diagnosis))
      && (CancelBudget in s <==> o.status.Cancelled? && Passed(o.history, Approved))
  {
    RunKeepsInv(EMPTY, ops);
    var o := Run(EMPTY, ops).orders[i];
    SentIsListed(Run(EMPTY, ops), i);
    ListedByHistory(o.history);
    ListedDistinct(o.history[|o.history| - 1]);
    PaidOnPath(o.history);
  }

  // ----- the lines are frozen after the diagnosis

  /** The order's diagnosis is over. */
  predicate Diagnosed(o: Order) {
    !o.status.Received? && !o.status.Diagnosis?
  }

  ghost predicate SameLines(db: Db, after: Db, i: OrderId) {
    && i < |db.orders| && i < |after.orders| && Diagnosed(after.orders[i])
    && after.orders[i].items == db.orders[i].items && after.orders[i].services == db.orders[i].services
  }

  lemma MessageFreezesLines(db: Db, d: Delivery, now: Time, cat: Catalogue, i: OrderId)
    requires i < |db.orders| && Diagnosed(db.orders[i]) && Handle(db, d, now, cat).Committed?
    ensures SameLines(db, Handle(db, d, now, cat).db, i)
  {
    if d.id !in db.processed && Expected(db, d) {
      TablesMoveStockOnce(d.body, db.orders[d.order], now);
    }
  }

  lemma EditFreezesLines(db: Db, op: Op, i: OrderId)
    requires i < |db.orders| && Diagnosed(db.orders[i]) && Step(db, op).Committed?
    requires op.OpAddItem? || op.OpRemoveItem? || op.OpAddService? || op.OpRemoveService?
    ensures SameLines(db, Step(db, op).db, i)
  {
    assert Editable(db, op.order) && op.order != i;
  }

  lemma StepFreezesLines(db: Db, op: Op, i: OrderId)
    requires i < |db.orders| && Diagnosed(db.orders[i])
    ensures SameLines(db, Next(db, op), i)
  {
    if Step(db, op).Committed? {
      match op
      case OpHandle(d, now, cat) => MessageFreezesLines(db, d, now, cat, i);
      case OpOpen(_, _, _) =>
      case OpDeliver(_, _) =>
      case OpCreateItem(_, _, _, _) => CatalogueLeavesOrders(db, op);
      case OpUpdateItem(_, _, _, _) => CatalogueLeavesOrders(db, op);
      case OpDeleteItem(_) => CatalogueLeavesOrders(db, op);
      case OpEditCatalogue(_, _) => CatalogueLeavesOrders(db, op);
      case _ => EditFreezesLines(db, op, i);
    }
  }

  lemma {:induction false} LinesFrozen(db: Db, ops: seq<Op>, i: OrderId)
    requires i < |db.orders| && Diagnosed(db.orders[i])
    ensures i < |Run(db, ops).orders|
    ensures Run(db, ops).orders[i].items == db.orders[i].items
      && Run(db, ops).orders[i].services == db.orders[i].services
    decreases |ops|
  {
    if ops == [] {
    } else {
      StepFreezesLines(db, ops[0], i);
      LinesFrozen(Next(db, ops[0]), ops[1..], i);
    }
  }

  // ----- what is billed is what is consumed

  /** The quantity of an item over the lines or tasks a command carries. */
  function EntryTotal(entries: seq<Entry>, id: ItemId): int {
    if entries == [] then 0
    else
      (if entries[0].kind.ItemLine? && entries[0].id == id then entries[0].quantity else 0) +
      EntryTotal(entries[1..], id)
  }

  function ServiceIds(entries: seq<Entry>): seq<ServiceId> {
    if entries == [] then []
    else (if entries[0].kind.ServiceLine? then [entries[0].id] else []) + ServiceIds(entries[1..])
  }

  lemma {:induction false} EntriesOfOrder(services: seq<ServiceId>, lines: seq<Line>, id: ItemId)
    ensures var entries := ServiceEntries(services) + ItemEntries(lines);
      EntryTotal(entries, id) == Quantity(lines, id) && ServiceIds(entries) == services
    decreases |services| + |lines|
  {
    var entries := ServiceEntries(services) + ItemEntries(lines);
    if services != [] {
      assert entries[1..] == ServiceEntries(services[1..]) + ItemEntries(lines);
      EntriesOfOrder(services[1..], lines, id);
    } else if lines != [] {
      assert entries[1..] == ServiceEntries([]) + ItemEntries(lines[1..]);
      EntriesOfOrder([], lines[1..], id);
    }
  }

  lemma {:induction false} SentFrom(outbox: seq<Message>, i: OrderId, j: nat) returns (k: nat)
    requires j < |Sent(outbox, i)|
    ensures k < |outbox| && outbox[k].order == i && SketchOf(outbox[k]) == Sent(outbox, i)[j]
  {
    if outbox[0].order != i {
      k := SentFrom(outbox[1..], i, j);
      k := k + 1;
    } else if j == 0 {
      k := 0;
    } else {
      k := SentFrom(outbox[1..], i, j - 1);
      k := k + 1;
    }
  }

  /** When a payment is confirmed, the outbox already holds the order's budget command, and every item leaves the
      stock by exactly the quantity that command billed; the repair that is enqueued has one task per service it
      billed. */
  lemma BilledIsConsumed(ops: seq<Op>, d: Delivery, now: Time, cat: Catalogue) returns (k: nat)
    requires d.body == ReplyOf(PaymentConfirmed)
    requires var db := Run(EMPTY, ops);
      d.id !in db.processed && Expected(db, d) && Handle(db, d, now, cat).Committed?
    ensures var db := Run(EMPTY, ops);
      var after := Handle(db, d, now, cat).db;
      && k < |db.outbox| && db.outbox[k].order == d.order && db.outbox[k].command.GenerateBudget?
      && (forall id :: id in db.items ==>
            db.items[id].stock - after.items[id].stock == EntryTotal(Entries(db.outbox[k].payload), id))
      && |after.outbox| == |db.outbox| + 1 && db.outbox <= after.outbox
      && after.outbox[|db.outbox|].command.EnqueueRepair?
      && ServiceIds(Entries(after.outbox[|db.outbox|].payload)) == ServiceIds(Entries(db.outbox[k].payload))
  {
    RunKeepsInv(EMPTY, ops);
    k := PaymentConsumesBudget(Run(EMPTY, ops), d, now, cat);
  }

  lemma BudgetCommand(db: Db, i: OrderId) returns (k: nat)
    requires Inv(db) && i < |db.orders| && db.orders[i].status.Approved?
    ensures k < |db.outbox| && db.outbox[k].order == i && db.outbox[k].command.GenerateBudget?
    ensures forall id :: EntryTotal(Entries(db.outbox[k].payload), id) == Quantity(db.orders[i].items, id)
    ensures ServiceIds(Entries(db.outbox[k].payload)) == db.orders[i].services
  {
    var o := db.orders[i];
    SentIsListed(db, i);
    assert SentCommands(db.outbox, i)[1] == GenerateBudget;
    k := SentFrom(db.outbox, i, 1);
    forall id ensures EntryTotal(Entries(db.outbox[k].payload), id) == Quantity(o.items, id) {
      EntriesOfOrder(o.services, o.items, id);
    }
    EntriesOfOrder(o.services, o.items, 0);
  }

  lemma RepairEnqueued(db: Db, d: Delivery, now: Time, cat: Catalogue)
    requires d.body == ReplyOf(PaymentConfirmed)
    requires d.id !in db.processed && Expected(db, d) && Handle(db, d, now, cat).Committed?
    ensures var after := Handle(db, d, now, cat).db;
      && |after.outbox| == |db.outbox| + 1 && db.outbox <= after.outbox
      && after.outbox[|db.outbox|].command.EnqueueRepair?
      && ServiceIds(Entries(after.outbox[|db.outbox|].payload)) == db.orders[d.order].services
  {
    var o := db.orders[d.order];
    EntriesOfRepair(o, cat);
    EntriesOfOrder(o.services, [], 0);
    assert ServiceEntries(o.services) + ItemEntries([]) == ServiceEntries(o.services);
  }

  lemma PaymentTakes(db: Db, d: Delivery, now: Time, cat: Catalogue, id: ItemId)
    requires d.body == ReplyOf(PaymentConfirmed) && id in db.items
    requires d.id !in db.processed && Expected(db, d) && Handle(db, d, now, cat).Committed?
    ensures id in Handle(db, d, now, cat).db.items
    ensures db.items[id].stock - Handle(db, d, now, cat).db.items[id].stock == Quantity(db.orders[d.order].items, id)
  {
  }

  lemma PaymentConsumesBudget(db: Db, d: Delivery, now: Time, cat: Catalogue) returns (k: nat)
    requires Inv(db) && d.body == ReplyOf(PaymentConfirmed)
    requires d.id !in db.processed && Expected(db, d) && Handle(db, d, now, cat).Committed?
    ensures var after := Handle(db, d, now, cat).db;
      && k < |db.outbox| && db.outbox[k].order == d.order && db.outbox[k].command.GenerateBudget?
      && (forall id :: id in db.items ==>
            db.items[id].stock - after.items[id].stock == EntryTotal(Entries(db.outbox[k].payload), id))
      && |after.outbox| == |db.outbox| + 1 && db.outbox <= after.outbox
      && after.outbox[|db.outbox|].command.EnqueueRepair?
      && ServiceIds(Entries(after.outbox[|db.outbox|].payload)) == ServiceIds(Entries(db.outbox[k].payload))
  {
    k := BudgetCommand(db, d.order);
    RepairEnqueued(db, d, now, cat);
    forall id | id in db.items
      ensures db.items[id].stock - Handle(db, d, now, cat).db.items[id].stock ==
        EntryTotal(Entries(db.outbox[k].payload), id)
    {
      PaymentTakes(db, d, now, cat, id);
    }
  }

  // ----- the point of no return

  /** Once paid, always paid for: whatever happens next, the order is never rejected or cancelled, its lines stay as
      billed and no cancel command is ever written for it. */
  lemma PaidIsFinal(ops: seq<Op>, more: seq<Op>, i: OrderId)
    requires i < |Run(EMPTY, ops).orders| && Passed(Run(EMPTY, ops).orders[i].history, Paid)
    ensures var db, later := Run(EMPTY, ops), Run(EMPTY, ops + more);
      && i < |later.orders| && PaidFor(later.orders[i].status)
      && later.orders[i].items == db.orders[i].items
      && CancelExecution !in SentCommands(later.outbox, i)
      && CancelBudget !in SentCommands(later.outbox, i)
  {
    RunAppend(EMPTY, ops, more);
    RunKeepsInv(EMPTY, ops);
    PaidStays(Run(EMPTY, ops), more, i);
  }

  lemma PaidStays(db: Db, more: seq<Op>, i: OrderId)
    requires Inv(db) && i < |db.orders| && Passed(db.orders[i].history, Paid)
    ensures var later := Run(db, more);
      && i < |later.orders| && PaidFor(later.orders[i].status)
      && later.orders[i].items == db.orders[i].items
      && CancelExecution !in SentCommands(later.outbox, i)
      && CancelBudget !in SentCommands(later.outbox, i)
  {
    var later := Run(db, more);
    RunKeepsInv(db, more);
    PaidOnPath(db.orders[i].history);
    PassedLater(db.orders[i].history, later.orders[i].history, Paid);
    PaidOnPath(later.orders[i].history);
    LinesFrozen(db, more, i);
    PaidSendsNoCancel(later, i);
  }

  lemma PaidListsNoCancel(c: Change)
    requires PaidFor(c.to)
    ensures CancelExecution !in Listed(c) && CancelBudget !in Listed(c)
  {
  }

  lemma PaidSendsNoCancel(db: Db, i: OrderId)
    requires Inv(db) && i < |db.orders| && PaidFor(db.orders[i].status)
    ensures CancelExecution !in SentCommands(db.outbox, i) && CancelBudget !in SentCommands(db.outbox, i)
  {
    var h := db.orders[i].history;
    assert h != [] && h[|h| - 1].to == db.orders[i].status;
    PaidListsNoCancel(h[|h| - 1]);
    SentIsListed(db, i);
  }

  lemma PassedLater(h: seq<Change>, later: seq<Change>, s: Status)
    requires Passed(h, s) && h <= later
    ensures Passed(later, s)
  {
  }

  /** A message about a paid order never moves stock and never starts a compensation; a dead command only gets
      reported. */
  lemma PaidOrderKeepsStock(db: Db, d: Delivery, now: Time, cat: Catalogue)
    requires Constraints(db) && d.order < |db.orders| && PaidFor(db.orders[d.order].status)
    requires Handle(db, d, now, cat).Committed?
    ensures var out := Handle(db, d, now, cat);
      && out.db.items == db.items
      && out.report.compensation.None?
      && (d.body.DeadCommand? ==> out.db == db.(processed := db.processed + {d.id}))
      && (out.report.stuck ==> d.body.DeadCommand?)
  {
    if d.id !in db.processed && Expected(db, d) {
      assert MoveStock(db.items, db.orders[d.order].items, Keep) == db.items;
      assert d.body.DeadCommand? ==> db.orders[d.order := db.orders[d.order]] == db.orders;
    } else if d.id in db.processed {
      assert db.processed + {d.id} == db.processed;
    }
  }
}
