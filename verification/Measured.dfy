/** The decorator that counts what the orchestrator decided. */
module Measured {
  import opened Entities
  import opened Machine
  import opened ExactlyOnce
  import opened Orchestrator

  /** Counting one message is recording its result, when it committed. */
  lemma CountedOne(before: Db, op: Op, after: Db, r: Result<Report>, c: Counters)
    requires op.OpHandle? && Realized(Step(before, op), before, after, r)
    ensures Counted(before, [op], c) == if r.Success? then Recorded(c, r.value) else c
    ensures op.d.body.ReplyOf? && r.Success? ==> !r.value.stuck
  {
  }

  class MeasuredServiceOrderSaga {
    const inner: ServiceOrderSaga
    var rejected: nat
    var paymentFailed: nat
    var stepFailed: nat
    var stuck: nat
    var replies: seq<(Reply, Verdict)>

    constructor (inner: ServiceOrderSaga)
      ensures this.inner == inner && rejected == paymentFailed == stepFailed == stuck == 0 && replies == []
    {
      this.inner := inner;
      rejected, paymentFailed, stepFailed, stuck, replies := 0, 0, 0, 0, [];
    }

    /** The counters of the decorator, with the notifications of the orchestrator beside them. */
    function Tally(): Counters
      reads this, inner
    {
      Counters(rejected, paymentFailed, stepFailed, stuck, |inner.notified|)
    }

    method Handle(id: MessageId, order: OrderId, reply: Reply, now: Time, services: map<ServiceId, Service>,
        customers: map<CustomerId, Customer>)
      returns (r: Result<Report>)
      requires inner.db.Valid()
      modifies this, inner`notified, inner.db
      ensures inner.db.Valid()
      ensures var op := OpHandle(Delivery(id, order, ReplyOf(reply)), now,
        Catalogue(customers, services, old(inner.db.items)));
        && Realized(Step(old(inner.db.State()), op), old(inner.db.State()), inner.db.State(), r)
        && Tally() == Counted(old(inner.db.State()), [op], old(Tally()))
      ensures replies == old(replies) + if r.Success? then [(reply, r.value.verdict)] else []
    {
      ghost var op := OpHandle(Delivery(id, order, ReplyOf(reply)), now,
        Catalogue(customers, services, inner.db.items));
      r := inner.Handle(id, order, reply, now, services, customers);
      CountedOne(old(inner.db.State()), op, inner.db.State(), r, old(Tally()));
      if r.Failure? {
        return;
      }
      replies := replies + [(reply, r.value.verdict)];
      Record(r.value, old(Tally()));
    }

    method HandleFailedCommand(id: MessageId, order: OrderId, command: Command, now: Time,
        services: map<ServiceId, Service>, customers: map<CustomerId, Customer>)
      returns (r: Result<Report>)
      requires inner.db.Valid()
      modifies this, inner`notified, inner.db
      ensures inner.db.Valid()
      ensures var op := OpHandle(Delivery(id, order, DeadCommand(command)), now,
        Catalogue(customers, services, old(inner.db.items)));
        && Realized(Step(old(inner.db.State()), op), old(inner.db.State()), inner.db.State(), r)
        && Tally() == Counted(old(inner.db.State()), [op], old(Tally()))
      ensures replies == old(replies)
    {
      ghost var op := OpHandle(Delivery(id, order, DeadCommand(command)), now,
        Catalogue(customers, services, inner.db.items));
      r := inner.HandleFailedCommand(id, order, command, now, services, customers);
      CountedOne(old(inner.db.State()), op, inner.db.State(), r, old(Tally()));
      if r.Failure? {
        return;
      }
      if r.value.stuck {
        stuck := stuck + 1;
      }
      Record(r.value, old(Tally()));
    }

    /** Counts the compensation the result started, if any. */
    method Record(report: Report, ghost before: Counters)
      requires Tally() == before.(
        stuck := before.stuck + if report.stuck then 1 else 0,
        notified := before.notified + if report.statusChanged then 1 else 0)
      modifies this`rejected, this`paymentFailed, this`stepFailed
      ensures Tally() == Recorded(before, report)
    {
      match report.compensation {
        case Some(BudgetWasRejected) => rejected := rejected + 1;
        case Some(PaymentHasFailed) => paymentFailed := paymentFailed + 1;
        case Some(StepFailed) => stepFailed := stepFailed + 1;
        case None =>
      }
    }
  }
}
