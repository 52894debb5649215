/** The OS Service as one state machine: its database, the constraints the database enforces,
    and the effect of every use case on it, written as tables rather than as statements.
    A unit of work either commits a database that satisfies every constraint or changes nothing. */
module Machine {
  import opened Entities
  import opened StateMachine

  /** An order's id is its position in `orders`: the repository never deletes an order. */
  datatype Db = Db(
    orders: seq<Order>,
    items: map<ItemId, Item>,
    services: map<ServiceId, Service>,
    customers: map<CustomerId, Customer>,
    outbox: seq<Message>,
    processed: set<MessageId>)

  datatype Outcome = Committed(db: Db, report: Report) | Aborted

  const EMPTY: Db := Db([], map[], map[], map[], [], {})

  // ----- constraints of the schema

  predicate DistinctItems(lines: seq<Line>) {
    forall i, j :: 0 <= i < j < |lines| ==> lines[i].itemId != lines[j].itemId
  }

  predicate Distinct(ids: seq<nat>) {
    forall i, j :: 0 <= i < j < |ids| ==> ids[i] != ids[j]
  }

  /** One row per service, each naming a service there is. */
  predicate ServiceRows(services: seq<ServiceId>, known: map<ServiceId, Service>) {
    Distinct(services) && forall s :: s in services ==> s in known
  }

  /** One row per item, each of a positive quantity of an item there is. */
  predicate ItemRows(lines: seq<Line>, known: map<ItemId, Item>) {
    DistinctItems(lines) && forall l :: l in lines ==> l.quantity > 0 && l.itemId in known
  }

  predicate TotalAllowed(total: Option<int>) {
    total.Some? ==> total.value >= 0
  }

  predicate OrderConstraints(o: Order, db: Db) {
    o.customerId in db.customers && ServiceRows(o.services, db.services) && ItemRows(o.items, db.items)
      && TotalAllowed(o.budgetTotal)
  }

  predicate ItemConstraints(i: Item) {
    0 <= i.reserved <= i.stock && 0 <= i.price
  }

  ghost predicate Constraints(db: Db) {
    && (forall id :: id in db.items ==> ItemConstraints(db.items[id]))
    && (forall id :: id in db.services ==> 0 <= db.services[id].price)
    && (forall i :: 0 <= i < |db.orders| ==> OrderConstraints(db.orders[i], db))
  }

  ghost function Guarded(db: Db, report: Report): Outcome {
    if Constraints(db) then Committed(db, report) else Aborted
  }

  const DONE := Report(Applied, false, None, false)

  // ----- stock

  datatype Movement = Keep | Reserve | Release | Consume

  /** The quantity of an item over the lines of an order. */
  function Quantity(lines: seq<Line>, id: ItemId): int {
    if lines == [] then 0
    else (if lines[0].itemId == id then lines[0].quantity else 0) + Quantity(lines[1..], id)
  }

  function Moved(i: Item, quantity: int, m: Movement): Item {
    match m
    case Keep => i
    case Reserve => i.(reserved := i.reserved + quantity)
    case Release => i.(reserved := i.reserved - quantity)
    case Consume => i.(stock := i.stock - quantity, reserved := i.reserved - quantity)
  }

  /** Every item moved at once by the quantity the lines name for it. */
  function MoveStock(items: map<ItemId, Item>, lines: seq<Line>, m: Movement): map<ItemId, Item> {
    map id | id in items :: Moved(items[id], Quantity(lines, id), m)
  }

  predicate CanMove(i: Item, quantity: int, m: Movement) {
    match m
    case Keep => true
    case Reserve => i.stock - i.reserved >= quantity
    case Release => i.reserved >= quantity
    case Consume => i.reserved >= quantity && i.stock >= quantity
  }

  ghost predicate StockSuffices(items: map<ItemId, Item>, lines: seq<Line>, m: Movement) {
    forall l :: l in lines ==> (m.Keep? || (l.itemId in items && CanMove(items[l.itemId], l.quantity, m)))
  }

  // ----- orders

  datatype Changes = Changes(
    status: Option<Status> := None,
    services: Option<seq<ServiceId>> := None,
    items: Option<seq<Line>> := None,
    budgetTotal: Option<int> := None,
    startedAt: Option<Time> := None,
    finishedAt: Option<Time> := None,
    deliveredAt: Option<Time> := None)

  function Or<T>(change: Option<T>, current: T): T {
    if change.Some? then change.value else current
  }

  function OrElse<T>(change: Option<T>, current: Option<T>): Option<T> {
    if change.Some? then change else current
  }

  /** One versioned write: the given fields replaced, the version raised, a new status recorded. */
  function Write(o: Order, c: Changes): Order {
    Order(
      o.customerId,
      Or(c.status, o.status),
      Or(c.services, o.services),
      Or(c.items, o.items),
      OrElse(c.budgetTotal, o.budgetTotal),
      OrElse(c.startedAt, o.startedAt),
      OrElse(c.finishedAt, o.finishedAt),
      OrElse(c.deliveredAt, o.deliveredAt),
      o.version + 1,
      if c.status.Some? && c.status.value != o.status
      then o.history + [Change(Some(o.status), c.status.value)]
      else o.history)
  }

  function Opened(customerId: CustomerId, services: seq<ServiceId>, items: seq<Line>): Order {
    Order(customerId, Received, services, items, None, None, None, None, 0, [Change(None, Received)])
  }

  // ----- the saga, as the tables its documentation gives

  predicate Expects(b: Body, s: Status) {
    match b
    case ReplyOf(DiagnosisStarted) => s.Received?
    case ReplyOf(DiagnosisCompleted) => s.Diagnosis?
    case ReplyOf(BudgetGenerated(_)) => s.WaitingApproval?
    case ReplyOf(BudgetApproved) => s.WaitingApproval?
    case ReplyOf(BudgetRejected) => s.WaitingApproval?
    case ReplyOf(PaymentConfirmed) => s.Approved?
    case ReplyOf(PaymentFailed) => s.Approved?
    case ReplyOf(RepairStarted) => s.Paid?
    case ReplyOf(RepairCompleted) => s.Execution?
    case ReplyOf(ExecutionCancelled) => Undone(s)
    case ReplyOf(BudgetCancelled) => s.Cancelled?
    case DeadCommand(EnqueueDiagnosis) => s.Received?
    case DeadCommand(GenerateBudget) => s.WaitingApproval?
    case DeadCommand(RequestPayment) => s.Approved?
    case DeadCommand(EnqueueRepair) => s.Paid?
    case DeadCommand(CancelExecution) => true
    case DeadCommand(CancelBudget) => true
  }

  function StockEffect(b: Body): Movement {
    match b
    case ReplyOf(BudgetRejected) => Release
    case ReplyOf(PaymentFailed) => Release
    case ReplyOf(PaymentConfirmed) => Consume
    case DeadCommand(EnqueueDiagnosis) => Release
    case DeadCommand(GenerateBudget) => Release
    case DeadCommand(RequestPayment) => Release
    case _ => Keep
  }

  /** What the message writes on the order; None when it writes nothing. */
  function ChangesOf(b: Body, now: Time): Option<Changes> {
    match b
    case ReplyOf(DiagnosisStarted) => Some(Changes(status := Some(Diagnosis)))
    case ReplyOf(DiagnosisCompleted) => Some(Changes(status := Some(WaitingApproval)))
    case ReplyOf(BudgetGenerated(total)) => Some(Changes(budgetTotal := total))
    case ReplyOf(BudgetApproved) => Some(Changes(status := Some(Approved)))
    case ReplyOf(BudgetRejected) => Some(Changes(status := Some(Rejected)))
    case ReplyOf(PaymentConfirmed) => Some(Changes(status := Some(Paid)))
    case ReplyOf(PaymentFailed) => Some(Changes(status := Some(Cancelled)))
    case ReplyOf(RepairStarted) => Some(Changes(status := Some(Execution), startedAt := Some(now)))
    case ReplyOf(RepairCompleted) => Some(Changes(status := Some(Finished), finishedAt := Some(now)))
    case ReplyOf(ExecutionCancelled) => None
    case ReplyOf(BudgetCancelled) => None
    case DeadCommand(EnqueueDiagnosis) => Some(Changes(status := Some(Cancelled)))
    case DeadCommand(GenerateBudget) => Some(Changes(status := Some(Cancelled)))
    case DeadCommand(RequestPayment) => Some(Changes(status := Some(Cancelled)))
    case DeadCommand(_) => None
  }

  function After(o: Order, b: Body, now: Time): Order {
    match ChangesOf(b, now)
    case None => o
    case Some(c) => Write(o, c)
  }

  function Sends(b: Body): seq<Command> {
    match b
    case ReplyOf(DiagnosisCompleted) => [GenerateBudget]
    case ReplyOf(BudgetApproved) => [RequestPayment]
    case ReplyOf(BudgetRejected) => [CancelExecution]
    case ReplyOf(PaymentConfirmed) => [EnqueueRepair]
    case ReplyOf(PaymentFailed) => [CancelExecution, CancelBudget]
    case DeadCommand(GenerateBudget) => [CancelExecution]
    case DeadCommand(RequestPayment) => [CancelExecution, CancelBudget]
    case _ => []
  }

  function ReasonOf(b: Body): Option<Reason> {
    match b
    case ReplyOf(BudgetRejected) => Some(BudgetWasRejected)
    case ReplyOf(PaymentFailed) => Some(PaymentHasFailed)
    case DeadCommand(EnqueueDiagnosis) => Some(StepFailed)
    case DeadCommand(GenerateBudget) => Some(StepFailed)
    case DeadCommand(RequestPayment) => Some(StepFailed)
    case _ => None
  }

  predicate Reported(b: Body) {
    b == DeadCommand(EnqueueRepair) || b == DeadCommand(CancelExecution) || b == DeadCommand(CancelBudget)
  }

  function DestinationOf(c: Command): Destination {
    match c
    case GenerateBudget | RequestPayment | CancelBudget => BillingCommands
    case EnqueueDiagnosis | EnqueueRepair | CancelExecution => ExecutionCommands
  }

  // ----- payloads

  /** The catalogue has every service of the order. */
  ghost predicate NamesServices(o: Order, cat: Catalogue) {
    forall s :: s in o.services ==> s in cat.services
  }

  /** The catalogue can price the order: an active customer, every service, every item. */
  ghost predicate Prices(o: Order, cat: Catalogue) {
    && o.customerId in cat.customers
    && cat.customers[o.customerId].active
    && NamesServices(o, cat)
    && (forall l :: l in o.items ==> l.itemId in cat.items)
  }

  /** Everything the message needs to be answered can be read. */
  ghost predicate Answerable(o: Order, b: Body, cat: Catalogue) {
    match b
    case ReplyOf(DiagnosisCompleted) => Prices(o, cat)
    case ReplyOf(BudgetGenerated(total)) => total.Some?
    case ReplyOf(PaymentConfirmed) => NamesServices(o, cat)
    case _ => true
  }

  function ServiceLines(services: seq<ServiceId>, cat: Catalogue): seq<BudgetLine>
    requires forall s :: s in services ==> s in cat.services
  {
    seq(|services|, k requires 0 <= k < |services| =>
      BudgetLine(ServiceLine, services[k], cat.services[services[k]].name, cat.services[services[k]].price, 1))
  }

  function ItemLines(lines: seq<Line>, cat: Catalogue): seq<BudgetLine>
    requires forall l :: l in lines ==> l.itemId in cat.items
  {
    seq(|lines|, k requires 0 <= k < |lines| =>
      var item := cat.items[lines[k].itemId];
      BudgetLine(ItemLine, lines[k].itemId, item.name, item.price, lines[k].quantity))
  }

  function Tasks(services: seq<ServiceId>, cat: Catalogue): seq<Task>
    requires forall s :: s in services ==> s in cat.services
  {
    seq(|services|, k requires 0 <= k < |services| => Task(services[k], cat.services[services[k]].name))
  }

  ghost function PayloadOf(c: Command, o: Order, b: Body, cat: Catalogue): Payload
    requires c in Sends(b) && Answerable(o, b, cat)
  {
    match c
    case GenerateBudget =>
      var customer := cat.customers[o.customerId];
      var lines := ServiceLines(o.services, cat) + ItemLines(o.items, cat);
      BudgetPayload(o.customerId, customer.name, customer.email, lines)
    case EnqueueRepair => RepairPayload(Tasks(o.services, cat))
    case RequestPayment | EnqueueDiagnosis => NoPayload
    case CancelExecution | CancelBudget => ReasonPayload(ReasonOf(b).value)
  }

  /** The outbox rows one message produces, all of one transaction. */
  ghost function MessagesOf(i: OrderId, o: Order, b: Body, cat: Catalogue, tx: nat): seq<Message>
    requires Answerable(o, b, cat)
  {
    seq(|Sends(b)|, k requires 0 <= k < |Sends(b)| =>
      Message(DestinationOf(Sends(b)[k]), Sends(b)[k], i, PayloadOf(Sends(b)[k], o, b, cat), tx))
  }

  // ----- the steps

  ghost predicate Legal(o: Order, b: Body, now: Time) {
    var c := ChangesOf(b, now);
    c.Some? && c.value.status.Some? ==> CanTransition(o.status, c.value.status.value)
  }

  /** A message for an order in the status it expects. Its rows are those of the transaction that finds `|db.outbox|`
      rows. */
  ghost function Effect(db: Db, i: OrderId, b: Body, now: Time, cat: Catalogue): Outcome
    requires i < |db.orders|
  {
    var o := db.orders[i];
    if !StockSuffices(db.items, o.items, StockEffect(b)) || !Answerable(o, b, cat) || !Legal(o, b, now) then Aborted
    else
      Guarded(
        db.(items := MoveStock(db.items, o.items, StockEffect(b)),
            orders := db.orders[i := After(o, b, now)],
            outbox := db.outbox + MessagesOf(i, o, b, cat, |db.outbox|)),
        Report(Applied, After(o, b, now).status != o.status, ReasonOf(b), Reported(b)))
  }

  ghost predicate Expected(db: Db, d: Delivery) {
    d.order < |db.orders| && Expects(d.body, db.orders[d.order].status)
  }

  ghost function Handle(db: Db, d: Delivery, now: Time, cat: Catalogue): Outcome {
    if d.id in db.processed then Committed(db, Report(Duplicate, false, None, false))
    else
      var seen := db.(processed := db.processed + {d.id});
      if !Expected(db, d) then Committed(seen, Report(Ignored, false, None, false))
      else Effect(seen, d.order, d.body, now, cat)
  }

  ghost function Open(db: Db, customerId: CustomerId, services: seq<ServiceId>, lines: seq<Line>): Outcome {
    if exists s :: s in services && s !in db.services then Aborted
    else if exists l :: l in lines && l.itemId !in db.items then Aborted
    else
      Guarded(
        db.(items := MoveStock(db.items, lines, Reserve),
            orders := db.orders + [Opened(customerId, services, lines)],
            outbox := db.outbox + [Message(ExecutionCommands, EnqueueDiagnosis, |db.orders|, NoPayload, |db.outbox|)]),
        DONE)
  }

  function Merged(lines: seq<Line>, id: ItemId, quantity: int): seq<Line> {
    if lines == [] then [Line(id, quantity)]
    else if lines[0].itemId == id then [Line(id, lines[0].quantity + quantity)] + lines[1..]
    else [lines[0]] + Merged(lines[1..], id, quantity)
  }

  function Without(lines: seq<Line>, id: ItemId): seq<Line> {
    if lines == [] then []
    else if lines[0].itemId == id then Without(lines[1..], id)
    else [lines[0]] + Without(lines[1..], id)
  }

  function Dropped(services: seq<ServiceId>, id: ServiceId): seq<ServiceId> {
    if services == [] then []
    else if services[0] == id then Dropped(services[1..], id)
    else [services[0]] + Dropped(services[1..], id)
  }

  /** Lines change only while the order is in diagnosis. */
  ghost predicate Editable(db: Db, i: OrderId) {
    i < |db.orders| && db.orders[i].status.Diagnosis?
  }

  ghost function Rewrite(db: Db, i: OrderId, c: Changes, items: map<ItemId, Item>): Outcome
    requires i < |db.orders|
  {
    Guarded(db.(items := items, orders := db.orders[i := Write(db.orders[i], c)]), DONE)
  }

  ghost function AddItem(db: Db, i: OrderId, id: ItemId, quantity: int): Outcome {
    if !Editable(db, i) || id !in db.items || !CanMove(db.items[id], quantity, Reserve) then Aborted
    else
      Rewrite(db, i, Changes(items := Some(Merged(db.orders[i].items, id, quantity))),
              db.items[id := Moved(db.items[id], quantity, Reserve)])
  }

  ghost function RemoveItem(db: Db, i: OrderId, id: ItemId): Outcome {
    if !Editable(db, i) || id !in db.items || !(exists l :: l in db.orders[i].items && l.itemId == id) then Aborted
    else
      Rewrite(db, i, Changes(items := Some(Without(db.orders[i].items, id))),
              db.items[id := Moved(db.items[id], Quantity(db.orders[i].items, id), Release)])
  }

  ghost function AddService(db: Db, i: OrderId, id: ServiceId): Outcome {
    if !Editable(db, i) || id !in db.services || id in db.orders[i].services then Aborted
    else Rewrite(db, i, Changes(services := Some(db.orders[i].services + [id])), db.items)
  }

  ghost function RemoveService(db: Db, i: OrderId, id: ServiceId): Outcome {
    if !Editable(db, i) || id !in db.orders[i].services then Aborted
    else Rewrite(db, i, Changes(services := Some(Dropped(db.orders[i].services, id))), db.items)
  }

  ghost function Deliver(db: Db, i: OrderId, now: Time): Outcome {
    if i >= |db.orders| || !CanTransition(db.orders[i].status, Delivered) then Aborted
    else
      var delivered := Changes(status := Some(Delivered), deliveredAt := Some(now));
      Guarded(db.(orders := db.orders[i := Write(db.orders[i], delivered)]),
              Report(Applied, true, None, false))
  }

  ghost function CreateItem(db: Db, id: ItemId, name: string, price: int, stock: int): Outcome {
    if price < 0 || stock < 0 || id in db.items then Aborted
    else Guarded(db.(items := db.items[id := Item(name, price, stock, 0)]), DONE)
  }

  ghost function UpdateItem(db: Db, id: ItemId, name: Option<string>, price: Option<int>, stock: Option<int>): Outcome {
    if id !in db.items then Aborted
    else
      var i := db.items[id];
      var item := Item(Or(name, i.name), Or(price, i.price), Or(stock, i.stock), i.reserved);
      Guarded(db.(items := db.items[id := item]), DONE)
  }

  ghost function DeleteItem(db: Db, id: ItemId): Outcome {
    if id !in db.items || db.items[id].reserved > 0 then Aborted
    else Guarded(db.(items := db.items - {id}), DONE)
  }

  /** Any change of the catalogue of services and of the customers that the foreign keys allow. */
  ghost function EditCatalogue(db: Db, services: map<ServiceId, Service>,
      customers: map<CustomerId, Customer>): Outcome {
    Guarded(db.(services := services, customers := customers), DONE)
  }

  datatype Op =
    | OpHandle(d: Delivery, now: Time, cat: Catalogue)
    | OpOpen(customerId: CustomerId, services: seq<ServiceId>, lines: seq<Line>)
    | OpAddItem(order: OrderId, item: ItemId, quantity: int)
    | OpRemoveItem(order: OrderId, item: ItemId)
    | OpAddService(order: OrderId, service: ServiceId)
    | OpRemoveService(order: OrderId, service: ServiceId)
    | OpDeliver(order: OrderId, now: Time)
    | OpCreateItem(item: ItemId, name: string, price: int, stock: int)
    | OpUpdateItem(item: ItemId, newName: Option<string>, newPrice: Option<int>, newStock: Option<int>)
    | OpDeleteItem(item: ItemId)
    | OpEditCatalogue(newServices: map<ServiceId, Service>, newCustomers: map<CustomerId, Customer>)

  ghost function Step(db: Db, op: Op): Outcome {
    match op
    case OpHandle(d, now, cat) => Handle(db, d, now, cat)
    case OpOpen(customerId, services, lines) => Open(db, customerId, services, lines)
    case OpAddItem(i, id, quantity) => AddItem(db, i, id, quantity)
    case OpRemoveItem(i, id) => RemoveItem(db, i, id)
    case OpAddService(i, id) => AddService(db, i, id)
    case OpRemoveService(i, id) => RemoveService(db, i, id)
    case OpDeliver(i, now) => Deliver(db, i, now)
    case OpCreateItem(id, name, price, stock) => CreateItem(db, id, name, price, stock)
    case OpUpdateItem(id, name, price, stock) => UpdateItem(db, id, name, price, stock)
    case OpDeleteItem(id) => DeleteItem(db, id)
    case OpEditCatalogue(services, customers) => EditCatalogue(db, services, customers)
  }

  /** The database after one attempt: an aborted unit of work changes nothing. */
  ghost function Next(db: Db, op: Op): Db {
    match Step(db, op)
    case Committed(after, _) => after
    case Aborted => db
  }

  ghost function Run(db: Db, ops: seq<Op>): Db
    decreases |ops|
  {
    if ops == [] then db else Run(Next(db, ops[0]), ops[1..])
  }

  function CatalogueOf(db: Db): Catalogue {
    Catalogue(db.customers, db.services, db.items)
  }

  lemma {:induction false} RunAppend(db: Db, a: seq<Op>, b: seq<Op>)
    ensures Run(db, a + b) == Run(Run(db, a), b)
    decreases |a|
  {
    if a == [] {
      assert a + b == b;
    } else {
      assert (a + b)[1..] == a[1..] + b;
      RunAppend(Next(db, a[0]), a[1..], b);
    }
  }

  lemma RunThen(ops: seq<Op>, op: Op)
    ensures Run(EMPTY, ops + [op]) == Next(Run(EMPTY, ops), op)
  {
    RunAppend(EMPTY, ops, [op]);
  }
}
