/** When two outbox rows come from one transaction, and what the order table says about it. */
module Ties {
  import opened Entities
  import opened Machine
  import opened Stock
  import opened History
  import opened Commands
  import opened Reachable
  import opened Progress

  ghost predicate TieFree(outbox: seq<Message>) {
    forall j, k :: 0 <= j < k < |outbox| ==> outbox[j].tx != outbox[k].tx
  }

  /** The order was cancelled after its budget had been approved. */
  ghost predicate CancelledLate(db: Db, i: OrderId) {
    i < |db.orders| && db.orders[i].status.Cancelled? && Passed(db.orders[i].history, Approved)
  }

  ghost predicate NoneCancelledLate(db: Db) {
    forall i :: 0 <= i < |db.orders| ==> !CancelledLate(db, i)
  }

  /** Two rows of one transaction are neighbours that cancel one order, and every CancelBudget is the second of such
      two. */
  ghost predicate Paired(outbox: seq<Message>) {
    && (forall j, k :: 0 <= j < k < |outbox| && outbox[j].tx == outbox[k].tx ==>
          j + 1 == k && outbox[j].order == outbox[k].order && outbox[j].command.CancelExecution?
            && outbox[k].command.CancelBudget?)
    && (forall k :: 0 <= k < |outbox| && outbox[k].command.CancelBudget? ==> 0 < k && outbox[k - 1].tx == outbox[k].tx)
  }

  ghost predicate OneTransaction(ms: seq<Message>) {
    || ms == []
    || (|ms| == 1 && !ms[0].command.CancelBudget?)
    || (|ms| == 2 && ms[0].order == ms[1].order && ms[0].command.CancelExecution? && ms[1].command.CancelBudget?)
  }

  lemma AppendPaired(outbox: seq<Message>, ms: seq<Message>)
    requires Stamped(outbox) && Paired(outbox) && OneTransaction(ms)
    requires forall k :: 0 <= k < |ms| ==> ms[k].tx == |outbox|
    ensures Paired(outbox + ms)
  {
    var all := outbox + ms;
    forall k | 0 <= k < |all| && all[k].command.CancelBudget? ensures 0 < k && all[k - 1].tx == all[k].tx {
      if k >= |outbox| {
        assert all[k] == ms[k - |outbox|] && k - |outbox| == 1 && all[k - 1] == ms[0];
      }
    }
  }

  lemma MessagePaired(db: Db, d: Delivery, now: Time, cat: Catalogue)
    requires Stamped(db.outbox) && Paired(db.outbox) && Handle(db, d, now, cat).Committed?
    ensures Paired(Handle(db, d, now, cat).db.outbox)
  {
    if d.id !in db.processed && Expected(db, d) {
      AppendPaired(db.outbox, MessagesOf(d.order, db.orders[d.order], d.body, cat, |db.outbox|));
    }
  }

  lemma StepPaired(db: Db, op: Op)
    requires Stamped(db.outbox) && Paired(db.outbox)
    ensures Paired(Next(db, op).outbox)
  {
    if Step(db, op).Committed? {
      match op
      case OpHandle(d, now, cat) => MessagePaired(db, d, now, cat);
      case OpOpen(_, _, _) =>
        AppendPaired(db.outbox, [Message(ExecutionCommands, EnqueueDiagnosis, |db.orders|, NoPayload, |db.outbox|)]);
      case _ => OthersSendNothing(db, op);
    }
  }

  /** In every reachable outbox, two rows of one transaction are the two cancellations of one order. */
  lemma {:induction false} RunPaired(db: Db, ops: seq<Op>)
    requires Inv(db) && Paired(db.outbox)
    ensures Paired(Run(db, ops).outbox)
    decreases |ops|
  {
    if ops == [] {
    } else {
      StepPaired(db, ops[0]);
      StepKeepsInv(db, ops[0]);
      RunPaired(Next(db, ops[0]), ops[1..]);
    }
  }

  lemma {:induction false} RowIsSent(outbox: seq<Message>, k: nat)
    requires k < |outbox|
    ensures outbox[k].command in SentCommands(outbox, outbox[k].order)
  {
    var i := outbox[k].order;
    var sent := Sent(outbox, i);
    if k == 0 {
      assert sent[0] == SketchOf(outbox[0]);
      assert SentCommands(outbox, i)[0] == outbox[0].command;
    } else {
      RowIsSent(outbox[1..], k - 1);
      var rest := SentCommands(outbox[1..], i);
      var a :| 0 <= a < |rest| && rest[a] == outbox[k].command;
      assert sent == SentBy(outbox[0], i) + Sent(outbox[1..], i);
      assert SentCommands(outbox, i)[a + |SentBy(outbox[0], i)|] == rest[a];
    }
  }

  lemma SentIsRow(outbox: seq<Message>, i: OrderId, c: Command) returns (k: nat)
    requires c in SentCommands(outbox, i)
    ensures k < |outbox| && outbox[k].order == i && outbox[k].command == c
  {
    var a :| 0 <= a < |SentCommands(outbox, i)| && SentCommands(outbox, i)[a] == c;
    k := SentFrom(outbox, i, a);
  }

  /** In every reachable state, no two outbox rows come from one transaction exactly when no order was cancelled after
      its approval. */
  lemma TieFreeExactly(ops: seq<Op>)
    ensures var db := Run(EMPTY, ops);
      TieFree(db.outbox) <==> NoneCancelledLate(db)
  {
    var db := Run(EMPTY, ops);
    EmptyInv();
    RunKeepsInv(EMPTY, ops);
    RunPaired(EMPTY, ops);
    if !TieFree(db.outbox) {
      var j, k :| 0 <= j < k < |db.outbox| && db.outbox[j].tx == db.outbox[k].tx;
      var i := db.outbox[k].order;
      RowIsSent(db.outbox, k);
      assert i < |db.orders|;
      CommandsFollowHistory(ops, i);
      assert CancelledLate(db, i);
    }
    if i :| 0 <= i < |db.orders| && CancelledLate(db, i) {
      CommandsFollowHistory(ops, i);
      var k := SentIsRow(db.outbox, i, CancelBudget);
      assert db.outbox[k - 1].tx == db.outbox[k].tx;
    }
  }

  // ----- a tie that happens

  /** One order without lines, of an active customer, after messages 0 to `n` - 1. */
  ghost predicate Stage(db: Db, s: Status, n: nat) {
    && Inv(db)
    && Alone(db, s)
    && (forall id :: id in db.processed ==> id < n)
  }

  ghost predicate Alone(db: Db, s: Status) {
    && |db.orders| == 1 && db.orders[0].status == s && db.orders[0].services == [] && db.orders[0].items == []
    && db.orders[0].customerId == 0 && 0 in db.customers && db.customers[0].active
  }

  lemma AloneMoves(db: Db, s: Status, n: nat, reply: Reply)
    requires Constraints(db) && Reservations(db) && Alone(db, s) && n !in db.processed
    requires Expects(ReplyOf(reply), s) && !reply.BudgetGenerated?
    ensures var after := Next(db, OpHandle(Delivery(n, 0, ReplyOf(reply)), 0, CatalogueOf(db)));
      && Alone(after, After(db.orders[0], ReplyOf(reply), 0).status)
      && after.processed == db.processed + {n}
  {
    EffectApplies(db, Delivery(n, 0, ReplyOf(reply)), 0, CatalogueOf(db));
  }

  lemma StageMoves(db: Db, s: Status, n: nat, reply: Reply)
    requires Stage(db, s, n) && Expects(ReplyOf(reply), s) && !reply.BudgetGenerated?
    ensures var after := Next(db, OpHandle(Delivery(n, 0, ReplyOf(reply)), 0, CatalogueOf(db)));
      Stage(after, After(db.orders[0], ReplyOf(reply), 0).status, n + 1)
  {
    StepKeepsInv(db, OpHandle(Delivery(n, 0, ReplyOf(reply)), 0, CatalogueOf(db)));
    AloneMoves(db, s, n, reply);
  }

  const CUSTOMERS: map<CustomerId, Customer> := map[0 := Customer("", "", true)]

  lemma Registered()
    ensures Next(EMPTY, OpEditCatalogue(map[], CUSTOMERS)) == EMPTY.(customers := CUSTOMERS)
  {
    assert Constraints(EMPTY.(services := map[], customers := CUSTOMERS));
  }

  lemma OpenedAlone(db: Db)
    requires db == EMPTY.(customers := CUSTOMERS)
    ensures Alone(Next(db, OpOpen(0, [], [])), Received) && Next(db, OpOpen(0, [], [])).processed == {}
  {
    var o := Opened(0, [], []);
    var after := db.(items := MoveStock(db.items, [], Reserve), orders := db.orders + [o],
                     outbox := db.outbox + [Message(ExecutionCommands, EnqueueDiagnosis, |db.orders|, NoPayload,
                       |db.outbox|)]);
    assert after.orders == [o] && after.items == map[];
    assert OrderConstraints(o, after);
    assert Open(db, 0, [], []) == Guarded(after, DONE);
  }

  lemma StageOpens()
    ensures Stage(Run(EMPTY, [OpEditCatalogue(map[], CUSTOMERS), OpOpen(0, [], [])]), Received, 0)
  {
    var edit, open := OpEditCatalogue(map[], CUSTOMERS), OpOpen(0, [], []);
    RunKeepsInvFromEmpty([edit, open]);
    Registered();
    OpenedAlone(EMPTY.(customers := CUSTOMERS));
    RunBoth(edit, open);
  }

  lemma RunBoth(a: Op, b: Op)
    ensures Run(EMPTY, [a, b]) == Next(Next(EMPTY, a), b)
  {
    RunThen([], a);
    RunThen([a], b);
    assert [] + [a] == [a] && [a] + [b] == [a, b];
  }

  lemma RunKeepsInvFromEmpty(ops: seq<Op>)
    ensures Inv(Run(EMPTY, ops))
  {
    EmptyInv();
    RunKeepsInv(EMPTY, ops);
  }

  lemma StageThen(ops: seq<Op>, s: Status, n: nat, reply: Reply) returns (more: seq<Op>)
    requires Stage(Run(EMPTY, ops), s, n) && Expects(ReplyOf(reply), s) && !reply.BudgetGenerated?
    ensures var db, after := Run(EMPTY, ops), Run(EMPTY, more);
      Stage(after, After(db.orders[0], ReplyOf(reply), 0).status, n + 1)
  {
    var db := Run(EMPTY, ops);
    StageMoves(db, s, n, reply);
    var op := OpHandle(Delivery(n, 0, ReplyOf(reply)), 0, CatalogueOf(db));
    RunThen(ops, op);
    more := ops + [op];
  }

  /** Wherever an approved order is, the failure of its payment leaves two rows of one transaction. */
  lemma PaymentFailureTies(ops: seq<Op>, d: Delivery, now: Time)
    requires var db := Run(EMPTY, ops); d.id !in db.processed && Expected(db, d) && d.body == ReplyOf(PaymentFailed)
    ensures var db := Run(EMPTY, ops); !TieFree(Run(EMPTY, ops + [OpHandle(d, now, CatalogueOf(db))]).outbox)
  {
    var db := Run(EMPTY, ops);
    var op := OpHandle(d, now, CatalogueOf(db));
    RunThen(ops, op);
    RunKeepsInvFromEmpty(ops);
    NeverStuck(ops, d, now);
    CancelsLate(db, d, now);
    TieFreeExactly(ops + [op]);
  }

  lemma CancelsLate(db: Db, d: Delivery, now: Time)
    requires Histories(db) && d.id !in db.processed && Expected(db, d) && d.body == ReplyOf(PaymentFailed)
    requires Handle(db, d, now, CatalogueOf(db)).Committed?
    ensures CancelledLate(Next(db, OpHandle(d, now, CatalogueOf(db))), d.order)
  {
    var o := db.orders[d.order];
    var h := Write(o, Changes(status := Some(Cancelled))).history;
    assert h[|o.history| - 1].to == Approved;
    assert Passed(h, Approved);
  }

  /** And there is such a run: an order is opened, diagnosed and approved, and then its payment fails. */
  lemma ReachableTie() returns (ops: seq<Op>)
    ensures !TieFree(Run(EMPTY, ops).outbox)
  {
    StageOpens();
    ops := [OpEditCatalogue(map[], CUSTOMERS), OpOpen(0, [], [])];
    ops := StageThen(ops, Received, 0, DiagnosisStarted);
    ops := StageThen(ops, Diagnosis, 1, DiagnosisCompleted);
    ops := StageThen(ops, WaitingApproval, 2, BudgetApproved);
    var d := Delivery(3, 0, ReplyOf(PaymentFailed));
    PaymentFailureTies(ops, d, 0);
    ops := ops + [OpHandle(d, 0, CatalogueOf(Run(EMPTY, ops)))];
  }
}
