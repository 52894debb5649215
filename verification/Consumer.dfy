/** The queue pollers: several of them receive batches from a FIFO queue, handle a message, delete it afterwards, and
    may die at any point; what was not deleted is delivered again, and after too many receives it is dead-lettered. */
module Consumer {
  import opened Entities
  import opened Machine
  import opened Reachable
  import opened ExactlyOnce

  /** The rest of a received batch, and whether its first message was already handled. */
  datatype Batch = Batch(rest: seq<nat>, handled: bool)

  /** A message is its position in the queue. `log` is every handling that committed, in order, repeats included;
      `dead` says of each dead-lettered message how long the log was then. A deleted or dead message is no longer
      delivered. */
  datatype Queue = Queue(
    db: Db,
    messages: seq<Delivery>,
    deleted: set<nat>,
    dead: map<nat, nat>,
    log: seq<nat>,
    batches: map<nat, Batch>)

  datatype Move =
    | Work(op: Op)
    | Enqueue(d: Delivery)
    | Receive(p: nat, batch: seq<nat>)
    | Handle(p: nat, now: Time, cat: Catalogue)
    | Delete(p: nat)
    | Stop(p: nat)   // the batch ends, its next message is malformed or fails, or the process dies
    | Bury(j: nat)   // the last attempt was used up

  /** An earlier message of the same order. */
  ghost predicate Ahead(s: Queue, j: nat, k: nat) {
    j < k < |s.messages| && s.messages[j].order == s.messages[k].order
  }

  ghost predicate Deliverable(s: Queue, j: nat) {
    j < |s.messages| && j !in s.deleted && j !in s.dead
  }

  /** What a FIFO queue may deliver: of every group, its oldest messages, none left out. A message another poller still
      handles may be among them, because its visibility timeout can end at any time. */
  ghost predicate FifoBatch(s: Queue, batch: seq<nat>) {
    && (forall a :: 0 <= a < |batch| ==> Deliverable(s, batch[a]))
    && (forall a, b :: 0 <= a < b < |batch| ==> batch[a] != batch[b])
    && (forall a, j :: 0 <= a < |batch| && Ahead(s, j, batch[a]) && Deliverable(s, j) ==> j in batch[..a])
  }

  ghost predicate Handles(s: Queue, m: Move) {
    m.Handle? && m.p in s.batches && s.batches[m.p].rest != [] && !s.batches[m.p].handled
    && s.batches[m.p].rest[0] < |s.messages|
  }

  ghost function OpOf(s: Queue, m: Move): Op
    requires Handles(s, m)
  {
    OpHandle(s.messages[s.batches[m.p].rest[0]], m.now, m.cat)
  }

  ghost function Advanced(s: Queue, m: Move): Queue {
    match m
    case Work(op) => s.(db := Next(s.db, op))
    case Enqueue(d) => s.(messages := s.messages + [d])
    case Receive(p, batch) =>
      if p !in s.batches && FifoBatch(s, batch) then s.(batches := s.batches[p := Batch(batch, false)]) else s
    case Handle(p, _, _) =>
      if !Handles(s, m) then s
      else
        (match Step(s.db, OpOf(s, m))
         case Committed(after, _) => Logged(s, p, after)
         case Aborted => s.(batches := s.batches - {p}))
    case Delete(p) =>
      if p in s.batches && s.batches[p].rest != [] && s.batches[p].handled
      then s.(deleted := s.deleted + {s.batches[p].rest[0]},
              batches := s.batches[p := Batch(s.batches[p].rest[1..], false)])
      else s
    case Stop(p) => s.(batches := s.batches - {p})
    case Bury(j) => if Deliverable(s, j) then s.(dead := s.dead[j := |s.log|]) else s
  }

  ghost function RunFrom(s: Queue, moves: seq<Move>): Queue {
    if moves == [] then s else Advanced(RunFrom(s, moves[..|moves| - 1]), moves[|moves| - 1])
  }

  const IDLE: Queue := Queue(EMPTY, [], {}, map[], [], map[])

  // ----- invariant

  /** Everything ahead of a received message was handled, was dead-lettered, or comes before it in the batch. */
  ghost predicate BatchOk(s: Queue, b: Batch) {
    && (forall a :: 0 <= a < |b.rest| ==> b.rest[a] < |s.messages|)
    && (forall a, j :: 0 <= a < |b.rest| && Ahead(s, j, b.rest[a]) ==> j in s.log || j in s.dead || j in b.rest[..a])
    && (b.handled ==> b.rest != [] && b.rest[0] in s.log)
  }

  ghost predicate HandledInOrder(s: Queue) {
    forall p, j :: 0 <= p < |s.log| && Ahead(s, j, s.log[p]) ==> j in s.log[..p] || (j in s.dead && s.dead[j] <= p)
  }

  ghost predicate QueueInv(s: Queue) {
    && Inv(s.db)
    && (forall j :: j in s.deleted ==> j in s.log)
    && (forall p :: 0 <= p < |s.log| ==> s.log[p] < |s.messages| && s.messages[s.log[p]].id in s.db.processed)
    && (forall j :: j in s.dead ==> j < |s.messages| && s.dead[j] <= |s.log|)
    && HandledInOrder(s)
    && (forall p :: p in s.batches ==> BatchOk(s, s.batches[p]))
  }

  lemma ProcessedGrows(db: Db, op: Op)
    ensures db.processed <= Next(db, op).processed
    ensures op.OpHandle? && Step(db, op).Committed? ==> op.d.id in Next(db, op).processed
  {
  }

  lemma InvNext(db: Db, op: Op)
    requires Inv(db)
    ensures Inv(Next(db, op))
  {
    StepKeepsInv(db, op);
  }

  lemma WorkedKeepsInv(s: Queue, after: Db)
    requires QueueInv(s) && Inv(after) && s.db.processed <= after.processed
    ensures QueueInv(s.(db := after))
  {
    var s' := s.(db := after);
    forall p | p in s'.batches ensures BatchOk(s', s'.batches[p]) {
      LogKeepsBatches(s, s', s.batches[p]);
    }
    assert forall j: nat, k: nat :: Ahead(s', j, k) <==> Ahead(s, j, k);
  }

  lemma WorkKeepsInv(s: Queue, op: Op)
    requires QueueInv(s)
    ensures QueueInv(Advanced(s, Work(op)))
  {
    InvNext(s.db, op);
    ProcessedGrows(s.db, op);
    WorkedKeepsInv(s, Next(s.db, op));
  }

  lemma EnqueueKeepsInv(s: Queue, d: Delivery)
    requires QueueInv(s)
    ensures QueueInv(Advanced(s, Enqueue(d)))
  {
    var s' := Advanced(s, Enqueue(d));
    assert forall j: nat, k: nat :: k < |s.messages| ==> (Ahead(s', j, k) <==> Ahead(s, j, k));
    forall p | p in s'.batches ensures BatchOk(s', s'.batches[p]) {
      assert BatchOk(s, s.batches[p]);
    }
  }

  lemma ReceiveKeepsInv(s: Queue, p: nat, batch: seq<nat>)
    requires QueueInv(s)
    ensures QueueInv(Advanced(s, Receive(p, batch)))
  {
    var s' := Advanced(s, Receive(p, batch));
    if s' != s {
      forall a, j | 0 <= a < |batch| && Ahead(s, j, batch[a]) ensures j in s.log || j in s.dead || j in batch[..a] {
        assert Deliverable(s, j) || j in s.deleted || j in s.dead;
      }
      assert BatchOk(s', Batch(batch, false));
      forall q | q in s'.batches ensures BatchOk(s', s'.batches[q]) {
        if q != p {
          assert BatchOk(s, s.batches[q]);
        }
      }
    }
  }

  lemma LogKeepsBatches(s: Queue, s': Queue, b: Batch)
    requires BatchOk(s, b) && s'.messages == s.messages && s.log <= s'.log && s'.dead == s.dead
    ensures BatchOk(s', b)
  {
  }

  /** The log stays in order when the first message of a batch is handled. */
  lemma LogStaysInOrder(s: Queue, s': Queue, b: Batch)
    requires HandledInOrder(s) && BatchOk(s, b) && b.rest != []
    requires s'.messages == s.messages && s'.dead == s.dead && s'.log == s.log + [b.rest[0]]
    requires forall j :: j in s.dead ==> s.dead[j] <= |s.log|
    ensures HandledInOrder(s')
  {
    assert b.rest[..0] == [];
    forall p, j | 0 <= p < |s'.log| && Ahead(s', j, s'.log[p])
      ensures j in s'.log[..p] || (j in s'.dead && s'.dead[j] <= p)
    {
      assert Ahead(s, j, s'.log[p]);
      if p == |s.log| {
        assert s'.log[..p] == s.log;
      } else {
        assert s'.log[..p] == s.log[..p];
      }
    }
  }

  lemma LogStaysRecorded(s: Queue, s': Queue, k: nat)
    requires forall p :: 0 <= p < |s.log| ==> s.log[p] < |s.messages| && s.messages[s.log[p]].id in s.db.processed
    requires s'.messages == s.messages && s'.log == s.log + [k] && s.db.processed <= s'.db.processed
    requires k < |s.messages| && s.messages[k].id in s'.db.processed
    ensures forall p :: 0 <= p < |s'.log| ==> s'.log[p] < |s'.messages| && s'.messages[s'.log[p]].id in s'.db.processed
  {
  }

  lemma HandledBatches(s: Queue, s': Queue, p: nat)
    requires forall q :: q in s.batches ==> BatchOk(s, s.batches[q])
    requires p in s.batches && s.batches[p].rest != []
    requires s'.messages == s.messages && s'.dead == s.dead && s'.log == s.log + [s.batches[p].rest[0]]
    requires s'.batches == s.batches[p := s.batches[p].(handled := true)]
    ensures forall q :: q in s'.batches ==> BatchOk(s', s'.batches[q])
  {
    assert s'.log[|s.log|] == s.batches[p].rest[0];
    forall q | q in s'.batches ensures BatchOk(s', s'.batches[q]) {
      LogKeepsBatches(s, s', s.batches[q]);
    }
  }

  ghost function Logged(s: Queue, p: nat, after: Db): Queue
    requires p in s.batches && s.batches[p].rest != []
  {
    s.(db := after, log := s.log + [s.batches[p].rest[0]], batches := s.batches[p := s.batches[p].(handled := true)])
  }

  lemma LoggedKeepsInv(s: Queue, p: nat, after: Db)
    requires QueueInv(s) && p in s.batches && s.batches[p].rest != []
    requires Inv(after) && s.db.processed <= after.processed
    requires s.batches[p].rest[0] < |s.messages| && s.messages[s.batches[p].rest[0]].id in after.processed
    ensures QueueInv(Logged(s, p, after))
  {
    var s' := Logged(s, p, after);
    LogStaysInOrder(s, s', s.batches[p]);
    LogStaysRecorded(s, s', s.batches[p].rest[0]);
    HandledBatches(s, s', p);
  }

  lemma HandleOutcome(s: Queue, m: Move)
    requires Handles(s, m)
    ensures Advanced(s, m) ==
      if Step(s.db, OpOf(s, m)).Committed? then Logged(s, m.p, Next(s.db, OpOf(s, m)))
      else s.(batches := s.batches - {m.p})
  {
  }

  lemma HandledMessageRecorded(s: Queue, m: Move)
    requires Handles(s, m) && Step(s.db, OpOf(s, m)).Committed?
    ensures s.db.processed <= Next(s.db, OpOf(s, m)).processed
    ensures s.messages[s.batches[m.p].rest[0]].id in Next(s.db, OpOf(s, m)).processed
  {
  }

  lemma StoppedKeepsInv(s: Queue, p: nat)
    requires QueueInv(s)
    ensures QueueInv(s.(batches := s.batches - {p}))
  {
  }

  lemma HandleKeepsInv(s: Queue, m: Move)
    requires QueueInv(s) && m.Handle?
    ensures QueueInv(Advanced(s, m))
  {
    if Handles(s, m) {
      HandleOutcome(s, m);
      if Step(s.db, OpOf(s, m)).Committed? {
        InvNext(s.db, OpOf(s, m));
        HandledMessageRecorded(s, m);
        LoggedKeepsInv(s, m.p, Next(s.db, OpOf(s, m)));
      } else {
        StoppedKeepsInv(s, m.p);
      }
    }
  }

  lemma DeleteKeepsInv(s: Queue, p: nat)
    requires QueueInv(s)
    ensures QueueInv(Advanced(s, Delete(p)))
  {
    var s' := Advanced(s, Delete(p));
    if s' != s {
      var b := s.batches[p];
      var rest := b.rest[1..];
      forall a, j | 0 <= a < |rest| && Ahead(s, j, rest[a]) ensures j in s.log || j in s.dead || j in rest[..a] {
        assert rest[a] == b.rest[a + 1];
        assert b.rest[..a + 1] == [b.rest[0]] + rest[..a];
      }
      assert BatchOk(s', Batch(rest, false));
      forall q | q in s'.batches ensures BatchOk(s', s'.batches[q]) {
        if q != p {
          LogKeepsBatches(s, s', s.batches[q]);
        }
      }
    }
  }

  lemma BuryKeepsInv(s: Queue, j: nat)
    requires QueueInv(s)
    ensures QueueInv(Advanced(s, Bury(j)))
  {
    var s' := Advanced(s, Bury(j));
    forall q | q in s'.batches ensures BatchOk(s', s'.batches[q]) {
      assert BatchOk(s, s.batches[q]);
    }
  }

  lemma MoveKeepsInv(s: Queue, m: Move)
    requires QueueInv(s)
    ensures QueueInv(Advanced(s, m))
  {
    match m
    case Work(op) => WorkKeepsInv(s, op);
    case Enqueue(d) => EnqueueKeepsInv(s, d);
    case Receive(p, batch) => ReceiveKeepsInv(s, p, batch);
    case Handle(_, _, _) => HandleKeepsInv(s, m);
    case Delete(p) => DeleteKeepsInv(s, p);
    case Stop(_) =>
    case Bury(j) => BuryKeepsInv(s, j);
  }

  lemma {:induction false} RunKeepsInv(moves: seq<Move>)
    ensures QueueInv(RunFrom(IDLE, moves))
  {
    if moves == [] {
      EmptyInv();
    } else {
      RunKeepsInv(moves[..|moves| - 1]);
      MoveKeepsInv(RunFrom(IDLE, moves[..|moves| - 1]), moves[|moves| - 1]);
    }
  }

  // ----- what every run gives

  /** A deleted message was always handled, and its id was recorded with its effect. */
  lemma DeletedWasHandled(moves: seq<Move>, j: nat)
    requires j in RunFrom(IDLE, moves).deleted
    ensures var s := RunFrom(IDLE, moves);
      j in s.log && j < |s.messages| && s.messages[j].id in s.db.processed
  {
    RunKeepsInv(moves);
  }

  /** When a message of an order is handled, every earlier message of that order was handled before it, unless it had
      already been dead-lettered. */
  lemma OrderHandledInSequence(moves: seq<Move>, p: nat, j: nat)
    requires var s := RunFrom(IDLE, moves);
      p < |s.log| && s.log[p] < |s.messages| && j < s.log[p] && s.messages[j].order == s.messages[s.log[p]].order
    ensures var s := RunFrom(IDLE, moves);
      j in s.log[..p] || (j in s.dead && s.dead[j] <= p)
  {
    RunKeepsInv(moves);
    assert Ahead(RunFrom(IDLE, moves), j, RunFrom(IDLE, moves).log[p]);
  }

  // ----- and its effect on the orders

  /** The operations that committed over a run, deliveries included. */
  ghost function Trace(moves: seq<Move>): seq<Op> {
    if moves == [] then []
    else
      var s, m := RunFrom(IDLE, moves[..|moves| - 1]), moves[|moves| - 1];
      Trace(moves[..|moves| - 1]) +
      if m.Work? && Step(s.db, m.op).Committed? then [m.op]
      else if Handles(s, m) && Step(s.db, OpOf(s, m)).Committed? then [OpOf(s, m)]
      else []
  }

  ghost predicate AllCommit(db: Db, ops: seq<Op>)
    decreases |ops|
  {
    ops == [] || (Step(db, ops[0]).Committed? && AllCommit(Next(db, ops[0]), ops[1..]))
  }

  lemma {:induction false} AllCommitAppend(db: Db, ops: seq<Op>, op: Op)
    requires AllCommit(db, ops) && Step(Run(db, ops), op).Committed?
    ensures AllCommit(db, ops + [op])
    decreases |ops|
  {
    if ops == [] {
    } else {
      assert (ops + [op])[1..] == ops[1..] + [op];
      AllCommitAppend(Next(db, ops[0]), ops[1..], op);
    }
  }

  lemma {:induction false} TraceReaches(moves: seq<Move>)
    ensures Run(EMPTY, Trace(moves)) == RunFrom(IDLE, moves).db && AllCommit(EMPTY, Trace(moves))
  {
    if moves == [] {
    } else {
      var before, m := moves[..|moves| - 1], moves[|moves| - 1];
      TraceReaches(before);
      var s := RunFrom(IDLE, before);
      if Trace(moves) != Trace(before) {
        var op := if m.Work? then m.op else OpOf(s, m);
        assert Trace(moves) == Trace(before) + [op];
        AllCommitAppend(EMPTY, Trace(before), op);
        RunAppend(EMPTY, Trace(before), [op]);
      }
    }
  }

  lemma {:induction false} RunOfFirstDeliveries(db: Db, ops: seq<Op>)
    requires AllCommit(db, ops)
    ensures Run(db, FirstDeliveries(ops, db.processed)) == Run(db, ops)
    decreases |ops|
  {
    if ops == [] {
    } else {
      StepRecordsMessage(db, ops[0]);
      var after := Next(db, ops[0]);
      RunOfFirstDeliveries(after, ops[1..]);
      if !(ops[0].OpHandle? && ops[0].d.id in db.processed) {
        assert FirstDeliveries(ops, db.processed)[1..] == FirstDeliveries(ops[1..], after.processed);
      }
    }
  }

  /** However often messages come back, the database is the one the first committed handling of each produces. */
  lemma RedeliveryIsHarmless(moves: seq<Move>)
    ensures RunFrom(IDLE, moves).db == Run(EMPTY, FirstDeliveries(Trace(moves), {}))
    ensures NoRepeats(FirstDeliveries(Trace(moves), {}))
  {
    TraceReaches(moves);
    RunOfFirstDeliveries(EMPTY, Trace(moves));
    FirstDeliveriesDistinct(Trace(moves), {});
  }

  // ----- and nothing keeps a message from being handled

  /** What one poller does continues what all of them did before. */
  lemma {:induction false} RunContinues(s: Queue, before: seq<Move>, moves: seq<Move>)
    ensures RunFrom(RunFrom(s, before), moves) == RunFrom(s, before + moves)
  {
    if moves == [] {
      assert before + moves == before;
    } else {
      assert (before + moves)[..|before + moves| - 1] == before + moves[..|moves| - 1];
      RunContinues(s, before, moves[..|moves| - 1]);
    }
  }

  lemma RunNext(s: Queue, moves: seq<Move>, m: Move)
    ensures RunFrom(s, moves + [m]) == Advanced(RunFrom(s, moves), m)
  {
    assert (moves + [m])[..|moves|] == moves;
  }

  /** The state with other dead messages. */
  ghost function WithDead(s: Queue, dead: map<nat, nat>): Queue {
    s.(dead := dead)
  }

  /** Messages of a group can be dead-lettered until one is the oldest left. */
  lemma MakeOldest(s: Queue, j: nat) returns (more: seq<Move>, dead: map<nat, nat>)
    requires Deliverable(s, j)
    ensures RunFrom(s, more) == WithDead(s, dead)
    ensures j !in dead && forall i :: Ahead(s, i, j) ==> i in s.deleted || i in dead
  {
    more, dead := [], s.dead;
    var k := 0;
    while k < j
      invariant 0 <= k <= j && RunFrom(s, more) == WithDead(s, dead) && j !in dead
      invariant forall i :: 0 <= i < k && Ahead(s, i, j) ==> i in s.deleted || i in dead
      invariant forall i :: i in s.dead ==> i in dead
    {
      if Deliverable(WithDead(s, dead), k) {
        RunNext(s, more, Bury(k));
        more, dead := more + [Bury(k)], dead[k := |s.log|];
      }
      k := k + 1;
    }
  }

  /** One poller that is started, handles one message and deletes it. */
  function HandleOne(j: nat, now: Time, cat: Catalogue): seq<Move> {
    [Stop(0), Receive(0, [j]), Handle(0, now, cat), Delete(0)]
  }

  lemma HandlesOne(s: Queue, j: nat, now: Time, cat: Catalogue)
    requires Deliverable(s, j) && (forall i :: Ahead(s, i, j) ==> !Deliverable(s, i))
    requires Step(s.db, OpHandle(s.messages[j], now, cat)).Committed?
    ensures var after := Advanced(Advanced(Advanced(Advanced(s, Stop(0)), Receive(0, [j])), Handle(0, now, cat)),
      Delete(0));
      && after.db == Next(s.db, OpHandle(s.messages[j], now, cat)) && after.messages == s.messages
      && after.log == s.log + [j] && after.deleted == s.deleted + {j}
  {
    var stopped := Advanced(s, Stop(0));
    assert forall i :: Ahead(stopped, i, j) && Deliverable(stopped, i) ==> Ahead(s, i, j) && Deliverable(s, i);
    assert FifoBatch(stopped, [j]);
    var received := Advanced(stopped, Receive(0, [j]));
    assert received == stopped.(batches := stopped.batches[0 := Batch([j], false)]);
    HandleOutcome(received, Handle(0, now, cat));
  }

  lemma RunsHandleOne(s: Queue, j: nat, now: Time, cat: Catalogue)
    ensures RunFrom(s, HandleOne(j, now, cat)) ==
      Advanced(Advanced(Advanced(Advanced(s, Stop(0)), Receive(0, [j])), Handle(0, now, cat)), Delete(0))
  {
    var a, b, c, d := Stop(0), Receive(0, [j]), Handle(0, now, cat), Delete(0);
    assert [] + [a] == [a] && [a] + [b] == [a, b] && [a, b] + [c] == [a, b, c]
      && [a, b, c] + [d] == HandleOne(j, now, cat);
    RunNext(s, [], a);
    RunNext(s, [a], b);
    RunNext(s, [a, b], c);
    RunNext(s, [a, b, c], d);
  }

  /** From every state of every run, a message that is queued now can be received, handled and deleted, if its handling
      commits; its effect is then the only one. */
  lemma CanBeHandled(moves: seq<Move>, d: Delivery, now: Time, cat: Catalogue) returns (more: seq<Move>)
    requires Step(RunFrom(IDLE, moves).db, OpHandle(d, now, cat)).Committed?
    ensures var s, later := RunFrom(IDLE, moves), RunFrom(IDLE, moves + [Enqueue(d)] + more);
      var j := |s.messages|;
      && later.messages == s.messages + [d]
      && later.db == Next(s.db, OpHandle(d, now, cat))
      && later.log == s.log + [j] && later.deleted == s.deleted + {j}
  {
    var s := RunFrom(IDLE, moves);
    var j := |s.messages|;
    RunKeepsInv(moves);
    RunNext(IDLE, moves, Enqueue(d));
    var queued := Advanced(s, Enqueue(d));
    NewIsDeliverable(s, d);
    var buried, dead := MakeOldest(queued, j);
    HandlesOne(WithDead(queued, dead), j, now, cat);
    RunsHandleOne(WithDead(queued, dead), j, now, cat);
    more := buried + HandleOne(j, now, cat);
    RunContinues(queued, buried, HandleOne(j, now, cat));
    RunContinues(IDLE, moves + [Enqueue(d)], more);
  }

  lemma NewIsDeliverable(s: Queue, d: Delivery)
    requires QueueInv(s)
    ensures Deliverable(Advanced(s, Enqueue(d)), |s.messages|)
  {
  }
}
