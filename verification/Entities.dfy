/** The entities of the OS Service and the vocabulary of its saga messages.
    A row's UUID is modelled by the number that names the row; a malformed UUID is a number no row has. */
module Entities {

  type OrderId = nat
  type ItemId = nat
  type ServiceId = nat
  type CustomerId = nat
  type MessageId = nat
  type Time = int

  datatype Option<+T> = None | Some(value: T)

  datatype Result<+T> = Success(value: T) | Failure(error: Error)

  /** What a use case throws. `Constraint` is a CHECK, UNIQUE or FOREIGN KEY violation raised by the database. */
  datatype Error = NotFound | Validation | Conflict | Constraint

  datatype Status =
    | Received | Diagnosis | WaitingApproval | Approved | Paid
    | Execution | Finished | Delivered | Rejected | Cancelled

  datatype Line = Line(itemId: ItemId, quantity: int)

  /** One row of the status history; the opening has no origin. */
  datatype Change = Change(from: Option<Status>, to: Status)

  /** A service order with the rows that belong to it: its lines and its status history. */
  datatype Order = Order(
    customerId: CustomerId,
    status: Status,
    services: seq<ServiceId>,
    items: seq<Line>,
    budgetTotal: Option<int>,
    startedAt: Option<Time>,
    finishedAt: Option<Time>,
    deliveredAt: Option<Time>,
    version: nat,
    history: seq<Change>)

  datatype Item = Item(name: string, price: int, stock: int, reserved: int)
  datatype Service = Service(name: string, price: int)
  datatype Customer = Customer(name: string, email: string, active: bool)

  /** What the reads of customers, services and items returned to one unit of work. */
  datatype Catalogue = Catalogue(
    customers: map<CustomerId, Customer>,
    services: map<ServiceId, Service>,
    items: map<ItemId, Item>)

  datatype Command = EnqueueDiagnosis | GenerateBudget | RequestPayment | EnqueueRepair | CancelExecution | CancelBudget
  datatype Destination = BillingCommands | ExecutionCommands
  datatype Reason = BudgetWasRejected | PaymentHasFailed | StepFailed

  datatype LineKind = ServiceLine | ItemLine
  datatype BudgetLine = BudgetLine(kind: LineKind, referenceId: nat, description: string, unitPrice: int, quantity: int)
  datatype Task = Task(serviceId: ServiceId, name: string)

  datatype Payload =
    | NoPayload
    | BudgetPayload(customerId: CustomerId, name: string, email: string, lines: seq<BudgetLine>)
    | RepairPayload(tasks: seq<Task>)
    | ReasonPayload(reason: Reason)

  /** A row of the outbox. `tx` names the transaction that wrote it, by the number of rows that were there before its
      own. */
  datatype Message = Message(destination: Destination, command: Command, order: OrderId, payload: Payload, tx: nat)

  datatype Reply =
    | DiagnosisStarted | DiagnosisCompleted
    | BudgetGenerated(total: Option<int>)  // None: the payload's total is not a finite number
    | BudgetApproved | BudgetRejected
    | PaymentConfirmed | PaymentFailed
    | RepairStarted | RepairCompleted
    | ExecutionCancelled | BudgetCancelled

  /** What a queue hands to the saga: a participant's reply, or a command back from a dead-letter queue. */
  datatype Body = ReplyOf(reply: Reply) | DeadCommand(command: Command)

  datatype Delivery = Delivery(id: MessageId, order: OrderId, body: Body)

  datatype Verdict = Applied | Duplicate | Ignored

  datatype Report = Report(verdict: Verdict, statusChanged: bool, compensation: Option<Reason>, stuck: bool)
}
