/** Versioned writers as they really run: a transaction reads the order, later reads the catalogue, later still commits,
    and any number of others commit in between. Every such run ends in a database the atomic machine also reaches. */
module SplitPhase {
  import opened Entities
  import opened StateMachine
  import opened Machine
  import opened Stock
  import opened Reachable

  /** A transaction in progress. A quiet one will write nothing but the id of its message: it found its order missing
      or in another status, or its message has no effect. */
  datatype Worker =
    | Quiet(d: Delivery)
    | Handling(d: Delivery, snapshot: Order, cat: Option<Catalogue>)
    | Delivering(order: OrderId, read: Order)

  datatype Split = Split(db: Db, workers: map<nat, Worker>)

  datatype Move =
    | Whole(op: Op)                      // a use case that runs as one step
    | BeginHandle(w: nat, d: Delivery)   // records the message id and reads the order
    | ReadCatalogue(w: nat, cat: Catalogue)  // whatever the reads return, each at its own time
    | CommitHandle(w: nat, now: Time)
    | BeginDelivery(w: nat, order: OrderId)
    | CommitDelivery(w: nat, now: Time)
    | Abort(w: nat)                      // a crash or any other failure before the commit

  ghost predicate Holds(worker: Worker, id: MessageId) {
    !worker.Delivering? && worker.d.id == id
  }

  /** The unique index keeps a second transaction from recording an id that is being recorded. */
  ghost predicate Held(s: Split, id: MessageId) {
    exists w :: w in s.workers && Holds(s.workers[w], id)
  }

  ghost predicate HasEffect(db: Db, d: Delivery) {
    Expected(db, d) && ChangesOf(d.body, 0).Some?
  }

  /** The commit of a message that read `snapshot`: guards and payloads come from what was read, writes go to what is
      there. */
  ghost function CommitStale(db: Db, d: Delivery, snapshot: Order, now: Time, cat: Catalogue): Outcome {
    if d.order >= |db.orders| || db.orders[d.order].version != snapshot.version then Aborted
    else if !StockSuffices(db.items, snapshot.items, StockEffect(d.body)) || !Answerable(snapshot, d.body, cat)
         || !Legal(snapshot, d.body, now) then Aborted
    else
      Guarded(
        db.(processed := db.processed + {d.id},
            items := MoveStock(db.items, snapshot.items, StockEffect(d.body)),
            orders := db.orders[d.order := After(db.orders[d.order], d.body, now)],
            outbox := db.outbox + MessagesOf(d.order, snapshot, d.body, cat, |db.outbox|)),
        Report(Applied, After(snapshot, d.body, now).status != snapshot.status, ReasonOf(d.body), Reported(d.body)))
  }

  ghost function DeliverStale(db: Db, i: OrderId, read: Order, now: Time): Outcome {
    if i >= |db.orders| || !CanTransition(read.status, Delivered) || db.orders[i].version != read.version then Aborted
    else
      var delivered := Changes(status := Some(Delivered), deliveredAt := Some(now));
      Guarded(db.(orders := db.orders[i := Write(db.orders[i], delivered)]),
              Report(Applied, true, None, false))
  }

  ghost function Recording(db: Db, ids: set<MessageId>): Db {
    db.(processed := db.processed + ids)
  }

  ghost function CommittedDb(db: Db, out: Outcome): Db {
    match out
    case Committed(after, _) => after
    case Aborted => db
  }

  /** A move that is not enabled changes nothing. */
  ghost function Advanced(s: Split, m: Move): Split {
    match m
    case Whole(op) =>
      if op.OpHandle? && Held(s, op.d.id) then s else s.(db := Next(s.db, op))
    case BeginHandle(w, d) =>
      if w in s.workers || Held(s, d.id) || d.id in s.db.processed then s
      else if HasEffect(s.db, d) then s.(workers := s.workers[w := Handling(d, s.db.orders[d.order], None)])
      else s.(workers := s.workers[w := Quiet(d)])
    case ReadCatalogue(w, cat) =>
      if w in s.workers && s.workers[w].Handling?
      then s.(workers := s.workers[w := s.workers[w].(cat := Some(cat))])
      else s
    case CommitHandle(w, now) =>
      if w !in s.workers || s.workers[w].Delivering? then s
      else
        var worker := s.workers[w];
        var done := s.(workers := s.workers - {w});
        if worker.Quiet? then done.(db := Recording(s.db, {worker.d.id}))
        else if worker.cat.Some?
        then done.(db := CommittedDb(s.db, CommitStale(s.db, worker.d, worker.snapshot, now, worker.cat.value)))
        else s
    case BeginDelivery(w, i) =>
      if w in s.workers || i >= |s.db.orders| then s
      else s.(workers := s.workers[w := Delivering(i, s.db.orders[i])])
    case CommitDelivery(w, now) =>
      if w in s.workers && s.workers[w].Delivering?
      then Split(CommittedDb(s.db, DeliverStale(s.db, s.workers[w].order, s.workers[w].read, now)), s.workers - {w})
      else s
    case Abort(w) => s.(workers := s.workers - {w})
  }

  ghost function RunSplit(moves: seq<Move>): Split {
    if moves == [] then Split(EMPTY, map[])
    else Advanced(RunSplit(moves[..|moves| - 1]), moves[|moves| - 1])
  }

  // ----- a version determines one snapshot

  ghost predicate Current(db: Db, i: OrderId, read: Order) {
    && i < |db.orders|
    && read.version <= db.orders[i].version
    && (read.version == db.orders[i].version ==> read == db.orders[i])
  }

  ghost predicate WorkerOk(db: Db, worker: Worker) {
    match worker
    case Quiet(d) => d.id !in db.processed
    case Handling(d, snapshot, _) =>
      && d.id !in db.processed && Current(db, d.order, snapshot)
      && Expects(d.body, snapshot.status) && ChangesOf(d.body, 0).Some?
    case Delivering(i, read) => Current(db, i, read)
  }

  ghost predicate SplitInv(s: Split) {
    && Inv(s.db)
    && (forall w :: w in s.workers ==> WorkerOk(s.db, s.workers[w]))
    && (forall v, w, id :: v in s.workers && w in s.workers && Holds(s.workers[v], id) && Holds(s.workers[w], id) ==>
         v == w)
  }

  /** Every write of an order raises its version. */
  lemma VersionsRise(db: Db, op: Op, i: OrderId)
    requires i < |db.orders|
    ensures i < |Next(db, op).orders|
    ensures Next(db, op).orders[i] == db.orders[i] || Next(db, op).orders[i].version > db.orders[i].version
  {
  }

  lemma WorkerSurvives(db: Db, op: Op, worker: Worker)
    requires WorkerOk(db, worker)
    requires op.OpHandle? ==> !Holds(worker, op.d.id)
    ensures WorkerOk(Next(db, op), worker)
  {
    match worker
    case Quiet(_) => OthersUnrecorded(db, op, worker.d.id);
    case Handling(d, _, _) => OthersUnrecorded(db, op, d.id); VersionsRise(db, op, d.order);
    case Delivering(i, _) => VersionsRise(db, op, i);
  }

  lemma OthersUnrecorded(db: Db, op: Op, id: MessageId)
    requires id !in db.processed && (op.OpHandle? ==> op.d.id != id)
    ensures id !in Next(db, op).processed
  {
  }

  // ----- commits act on the state just before them

  /** A versioned commit either finds another version and changes nothing, or is exactly the atomic step on the
      current state. */
  lemma CommitIsAtomic(db: Db, d: Delivery, snapshot: Order, now: Time, cat: Catalogue)
    requires WorkerOk(db, Handling(d, snapshot, Some(cat)))
    ensures var out := CommitStale(db, d, snapshot, now, cat);
      if snapshot.version == db.orders[d.order].version
      then snapshot == db.orders[d.order] && out == Handle(db, d, now, cat)
      else out.Aborted?
  {
  }

  lemma DeliveryIsAtomic(db: Db, i: OrderId, read: Order, now: Time)
    requires Current(db, i, read)
    ensures var out := DeliverStale(db, i, read, now);
      if read.version == db.orders[i].version then read == db.orders[i] && out == Deliver(db, i, now) else out.Aborted?
  {
  }

  /** The atomic step a move makes on the database, if it makes one now. */
  ghost function OpOf(s: Split, m: Move): Option<Op> {
    match m
    case Whole(op) => if op.OpHandle? && Held(s, op.d.id) then None else Some(op)
    case CommitHandle(w, now) =>
      if w in s.workers && s.workers[w].Handling? && s.workers[w].cat.Some?
         && s.workers[w].d.order < |s.db.orders|
         && s.workers[w].snapshot.version == s.db.orders[s.workers[w].d.order].version
      then Some(OpHandle(s.workers[w].d, now, s.workers[w].cat.value)) else None
    case CommitDelivery(w, now) =>
      if w in s.workers && s.workers[w].Delivering?
         && s.workers[w].order < |s.db.orders| && s.workers[w].read.version == s.db.orders[s.workers[w].order].version
      then Some(OpDeliver(s.workers[w].order, now)) else None
    case _ => None
  }

  ghost predicate RecordsQuietly(s: Split, m: Move) {
    m.CommitHandle? && m.w in s.workers && s.workers[m.w].Quiet?
  }

  lemma StaleHandleOnDb(db: Db, d: Delivery, snapshot: Order, now: Time, cat: Catalogue)
    requires WorkerOk(db, Handling(d, snapshot, Some(cat)))
    ensures CommittedDb(db, CommitStale(db, d, snapshot, now, cat)) ==
      if db.orders[d.order].version == snapshot.version then Next(db, OpHandle(d, now, cat)) else db
  {
    CommitIsAtomic(db, d, snapshot, now, cat);
  }

  lemma StaleDeliveryOnDb(db: Db, i: OrderId, read: Order, now: Time)
    requires Current(db, i, read)
    ensures CommittedDb(db, DeliverStale(db, i, read, now)) ==
      if db.orders[i].version == read.version then Next(db, OpDeliver(i, now)) else db
  {
    DeliveryIsAtomic(db, i, read, now);
  }

  lemma CommitOnDb(s: Split, m: Move)
    requires m.CommitHandle? || m.CommitDelivery?
    requires m.w in s.workers ==> WorkerOk(s.db, s.workers[m.w])
    ensures Advanced(s, m).db ==
      if OpOf(s, m).Some? then Next(s.db, OpOf(s, m).value)
      else if RecordsQuietly(s, m) then Recording(s.db, {s.workers[m.w].d.id})
      else s.db
  {
    if m.w in s.workers {
      match s.workers[m.w]
      case Quiet(_) =>
      case Handling(d, snapshot, cat) =>
        if m.CommitHandle? && cat.Some? {
          StaleHandleOnDb(s.db, d, snapshot, m.now, cat.value);
        }
      case Delivering(i, read) =>
        if m.CommitDelivery? {
          StaleDeliveryOnDb(s.db, i, read, m.now);
        }
    }
  }

  /** What a move does to the database: an atomic step, the record of one quiet message, or nothing. */
  lemma MoveOnDb(s: Split, m: Move)
    requires SplitInv(s)
    ensures Advanced(s, m).db ==
      if OpOf(s, m).Some? then Next(s.db, OpOf(s, m).value)
      else if RecordsQuietly(s, m) then Recording(s.db, {s.workers[m.w].d.id})
      else s.db
  {
    match m
    case CommitHandle(_, _) => CommitOnDb(s, m);
    case CommitDelivery(_, _) => CommitOnDb(s, m);
    case _ =>
  }

  /** An atomic step made now delivers no message that a remaining worker holds. */
  lemma OthersKeepTheirIds(s: Split, m: Move, w: nat)
    requires SplitInv(s) && OpOf(s, m).Some? && OpOf(s, m).value.OpHandle?
    requires w in s.workers && w in Advanced(s, m).workers
    ensures !Holds(s.workers[w], OpOf(s, m).value.d.id)
  {
    if m.CommitHandle? {
      assert Holds(s.workers[m.w], OpOf(s, m).value.d.id);
    }
  }

  lemma ProcessedOnly(db: Db, id: MessageId)
    requires Inv(db)
    ensures Inv(db.(processed := db.processed + {id}))
  {
  }

  lemma WorkersAfter(s: Split, m: Move, w: nat)
    requires w in Advanced(s, m).workers && w in s.workers
    ensures Advanced(s, m).workers[w] == s.workers[w]
         || (s.workers[w].Handling? && Advanced(s, m).workers[w].Handling?
             && Advanced(s, m).workers[w].d == s.workers[w].d
             && Advanced(s, m).workers[w].snapshot == s.workers[w].snapshot)
  {
  }

  lemma NewWorkerOk(s: Split, m: Move, w: nat)
    requires SplitInv(s) && w in Advanced(s, m).workers && w !in s.workers
    ensures Advanced(s, m).db == s.db && WorkerOk(s.db, Advanced(s, m).workers[w])
  {
  }

  lemma OldWorkerOk(s: Split, m: Move, w: nat)
    requires SplitInv(s) && w in Advanced(s, m).workers && w in s.workers
    ensures WorkerOk(Advanced(s, m).db, s.workers[w])
  {
    MoveOnDb(s, m);
    assert WorkerOk(s.db, s.workers[w]);
    if OpOf(s, m).Some? {
      if OpOf(s, m).value.OpHandle? {
        OthersKeepTheirIds(s, m, w);
      }
      WorkerSurvives(s.db, OpOf(s, m).value, s.workers[w]);
    } else if RecordsQuietly(s, m) {
      assert Holds(s.workers[m.w], s.workers[m.w].d.id);
      assert !Holds(s.workers[w], s.workers[m.w].d.id);
    }
  }

  lemma MoveKeepsWorkers(s: Split, m: Move, w: nat)
    requires SplitInv(s) && w in Advanced(s, m).workers
    ensures WorkerOk(Advanced(s, m).db, Advanced(s, m).workers[w])
  {
    if w in s.workers {
      OldWorkerOk(s, m, w);
      WorkersAfter(s, m, w);
    } else {
      NewWorkerOk(s, m, w);
    }
  }

  lemma MoveKeepsDbInv(s: Split, m: Move)
    requires SplitInv(s)
    ensures Inv(Advanced(s, m).db)
  {
    MoveOnDb(s, m);
    if OpOf(s, m).Some? {
      StepKeepsInv(s.db, OpOf(s, m).value);
    } else if RecordsQuietly(s, m) {
      ProcessedOnly(s.db, s.workers[m.w].d.id);
    }
  }

  lemma MoveKeepsHolders(s: Split, m: Move, v: nat, w: nat, id: MessageId)
    requires SplitInv(s) && v in Advanced(s, m).workers && w in Advanced(s, m).workers
    requires Holds(Advanced(s, m).workers[v], id) && Holds(Advanced(s, m).workers[w], id)
    ensures v == w
  {
  }

  lemma MoveKeepsInv(s: Split, m: Move)
    requires SplitInv(s)
    ensures SplitInv(Advanced(s, m))
  {
    var s' := Advanced(s, m);
    MoveKeepsDbInv(s, m);
    forall w | w in s'.workers ensures WorkerOk(s'.db, s'.workers[w]) {
      MoveKeepsWorkers(s, m, w);
    }
    forall v, w, id | v in s'.workers && w in s'.workers && Holds(s'.workers[v], id) && Holds(s'.workers[w], id)
      ensures v == w
    {
      MoveKeepsHolders(s, m, v, w, id);
    }
  }

  lemma {:induction false} RunKeepsSplitInv(moves: seq<Move>)
    ensures SplitInv(RunSplit(moves))
  {
    if moves == [] {
      EmptyInv();
    } else {
      RunKeepsSplitInv(moves[..|moves| - 1]);
      MoveKeepsInv(RunSplit(moves[..|moves| - 1]), moves[|moves| - 1]);
    }
  }

  // ----- refinement

  ghost predicate QuietIds(s: Split, ids: set<MessageId>) {
    forall id :: id in ids ==> exists w :: w in s.workers && s.workers[w].Quiet? && s.workers[w].d.id == id
  }

  lemma ConstraintsIgnoreRecord(db: Db, ids: set<MessageId>)
    ensures Constraints(Recording(db, ids)) <==> Constraints(db)
  {
  }

  lemma GuardedIgnoresRecord(db: Db, report: Report, ids: set<MessageId>)
    ensures Guarded(Recording(db, ids), report) ==
      WithRecord(Guarded(db, report), ids)
  {
  }

  /** The outcome of a step on a database with more messages recorded. */
  ghost function WithRecord(out: Outcome, ids: set<MessageId>): Outcome {
    match out
    case Committed(after, report) => Committed(Recording(after, ids), report)
    case Aborted => Aborted
  }

  lemma LineEditIgnoresRecord(db: Db, op: Op, ids: set<MessageId>)
    requires op.OpAddItem? || op.OpRemoveItem? || op.OpAddService? || op.OpRemoveService?
    ensures Step(Recording(db, ids), op) == WithRecord(Step(db, op), ids)
  {
    if Editable(db, op.order) {
      var o := db.orders[op.order];
      match op
      case OpAddItem(i, id, quantity) =>
        if id in db.items {
          RewriteIgnoresRecord(db, i, Changes(items := Some(Merged(o.items, id, quantity))),
                               db.items[id := Moved(db.items[id], quantity, Reserve)], ids);
        }
      case OpRemoveItem(i, id) =>
        if id in db.items {
          RewriteIgnoresRecord(db, i, Changes(items := Some(Without(o.items, id))),
                               db.items[id := Moved(db.items[id], Quantity(o.items, id), Release)], ids);
        }
      case OpAddService(i, id) =>
        RewriteIgnoresRecord(db, i, Changes(services := Some(o.services + [id])), db.items, ids);
      case OpRemoveService(i, id) =>
        RewriteIgnoresRecord(db, i, Changes(services := Some(Dropped(o.services, id))), db.items, ids);
    }
  }

  lemma CatalogueIgnoresRecord(db: Db, op: Op, ids: set<MessageId>)
    requires op.OpCreateItem? || op.OpUpdateItem? || op.OpDeleteItem? || op.OpEditCatalogue?
    ensures Step(Recording(db, ids), op) == WithRecord(Step(db, op), ids)
  {
    match op
    case OpCreateItem(id, name, price, stock) =>
      GuardedIgnoresRecord(db.(items := db.items[id := Item(name, price, stock, 0)]), DONE, ids);
    case OpUpdateItem(id, name, price, stock) =>
      if id in db.items {
        var i := db.items[id];
        var item := Item(Or(name, i.name), Or(price, i.price), Or(stock, i.stock), i.reserved);
        GuardedIgnoresRecord(db.(items := db.items[id := item]), DONE, ids);
      }
    case OpDeleteItem(id) => GuardedIgnoresRecord(db.(items := db.items - {id}), DONE, ids);
    case OpEditCatalogue(services, customers) =>
      GuardedIgnoresRecord(db.(services := services, customers := customers), DONE, ids);
  }

  lemma DeliverIgnoresRecord(db: Db, i: OrderId, now: Time, ids: set<MessageId>)
    ensures Deliver(Recording(db, ids), i, now) == WithRecord(Deliver(db, i, now), ids)
  {
  }

  lemma EffectIgnoresRecord(db: Db, i: OrderId, b: Body, now: Time, cat: Catalogue, ids: set<MessageId>)
    requires i < |db.orders|
    ensures Effect(Recording(db, ids), i, b, now, cat) == WithRecord(Effect(db, i, b, now, cat), ids)
  {
  }

  lemma HandleIgnoresOthersIds(db: Db, d: Delivery, now: Time, cat: Catalogue, ids: set<MessageId>)
    requires d.id !in ids
    ensures Handle(Recording(db, ids), d, now, cat) == WithRecord(Handle(db, d, now, cat), ids)
  {
    if d.id !in db.processed {
      assert Recording(Recording(db, {d.id}), ids) == Recording(Recording(db, ids), {d.id}) by {
        assert db.processed + {d.id} + ids == db.processed + ids + {d.id};
      }
      if Expected(db, d) {
        EffectIgnoresRecord(Recording(db, {d.id}), d.order, d.body, now, cat, ids);
      }
    }
  }

  /** A step reads the record of processed messages only at its own id. */
  lemma StepIgnoresOthersIds(db: Db, op: Op, ids: set<MessageId>)
    requires op.OpHandle? ==> op.d.id !in ids
    ensures Step(Recording(db, ids), op) == WithRecord(Step(db, op), ids)
    ensures Next(Recording(db, ids), op) == Recording(Next(db, op), ids)
  {
    match op
    case OpHandle(d, now, cat) => HandleIgnoresOthersIds(db, d, now, cat, ids);
    case OpOpen(customerId, services, lines) => OpenIgnoresRecord(db, customerId, services, lines, ids);
    case OpDeliver(i, now) => DeliverIgnoresRecord(db, i, now, ids);
    case OpCreateItem(_, _, _, _) => CatalogueIgnoresRecord(db, op, ids);
    case OpUpdateItem(_, _, _, _) => CatalogueIgnoresRecord(db, op, ids);
    case OpDeleteItem(_) => CatalogueIgnoresRecord(db, op, ids);
    case OpEditCatalogue(_, _) => CatalogueIgnoresRecord(db, op, ids);
    case _ => LineEditIgnoresRecord(db, op, ids);
  }

  lemma RewriteIgnoresRecord(db: Db, i: OrderId, c: Changes, items: map<ItemId, Item>, ids: set<MessageId>)
    requires i < |db.orders|
    ensures Rewrite(Recording(db, ids), i, c, items) ==
      WithRecord(Rewrite(db, i, c, items), ids)
  {
  }

  lemma OpenIgnoresRecord(db: Db, customerId: CustomerId, services: seq<ServiceId>, lines: seq<Line>,
      ids: set<MessageId>)
    ensures Open(Recording(db, ids), customerId, services, lines) ==
      WithRecord(Open(db, customerId, services, lines), ids)
  {
  }

  /** A message that finds nothing to do is recorded by the atomic machine at the moment it read. */
  lemma QuietHandle(db: Db, d: Delivery, now: Time, cat: Catalogue)
    requires Constraints(db) && d.id !in db.processed && !HasEffect(db, d)
    ensures Next(db, OpHandle(d, now, cat)) == Recording(db, {d.id})
  {
    if Expected(db, d) {
      ConstraintsIgnoreRecord(db, {d.id});
      assert MoveStock(db.items, db.orders[d.order].items, Keep) == db.items;
      assert db.orders[d.order := db.orders[d.order]] == db.orders;
    }
  }

  /** A quiet message that is in `ids` is recorded when it begins, one that is not never is. */
  lemma BeginsQuiet(s: Split, w: nat, d: Delivery, ids: set<MessageId>)
    requires SplitInv(s) && Advanced(s, BeginHandle(w, d)).workers == s.workers[w := Quiet(d)]
    requires w !in s.workers && !HasEffect(s.db, d) && d.id !in s.db.processed
    requires QuietIds(Advanced(s, BeginHandle(w, d)), ids) && d.id in ids
    ensures QuietIds(s, ids - {d.id})
    ensures Next(Recording(s.db, ids - {d.id}), OpHandle(d, 0, CatalogueOf(s.db))) == Recording(s.db, ids)
  {
    StepIgnoresOthersIds(s.db, OpHandle(d, 0, CatalogueOf(s.db)), ids - {d.id});
    QuietHandle(s.db, d, 0, CatalogueOf(s.db));
    assert s.db.processed + {d.id} + (ids - {d.id}) == s.db.processed + ids;
    var s' := Advanced(s, BeginHandle(w, d));
    forall id | id in ids - {d.id}
      ensures exists v :: v in s.workers && s.workers[v].Quiet? && s.workers[v].d.id == id
    {
      var v :| v in s'.workers && s'.workers[v].Quiet? && s'.workers[v].d.id == id;
      assert v in s.workers;
    }
  }

  lemma StaysQuiet(s: Split, m: Move, ids: set<MessageId>)
    requires QuietIds(Advanced(s, m), ids)
    requires !(m.BeginHandle? && Begins(s, m.w, m.d) && m.d.id in ids)
    ensures QuietIds(s, ids)
  {
  }

  ghost predicate Begins(s: Split, w: nat, d: Delivery) {
    w !in s.workers && !Held(s, d.id) && d.id !in s.db.processed && !HasEffect(s.db, d)
  }

  /** For every run in split phases, and for any choice of quiet messages still to commit, some run of the atomic
      machine ends in the same database with those messages recorded. */
  lemma {:induction false} SplitRefinesWith(moves: seq<Move>, ids: set<MessageId>) returns (ops: seq<Op>)
    requires QuietIds(RunSplit(moves), ids)
    ensures Run(EMPTY, ops) == Recording(RunSplit(moves).db, ids)
    decreases |moves|
  {
    if moves == [] {
      ops := [];
      assert ids == {};
      return;
    }
    var before, m := moves[..|moves| - 1], moves[|moves| - 1];
    var s := RunSplit(before);
    RunKeepsSplitInv(before);
    MoveOnDb(s, m);
    if m.BeginHandle? && Begins(s, m.w, m.d) && m.d.id in ids {
      BeginsQuiet(s, m.w, m.d, ids);
      ops := SplitRefinesWith(before, ids - {m.d.id});
      RunThen(ops, OpHandle(m.d, 0, CatalogueOf(s.db)));
      ops := ops + [OpHandle(m.d, 0, CatalogueOf(s.db))];
      return;
    }
    StaysQuiet(s, m, ids);
    if OpOf(s, m).Some? {
      NotDelivered(s, m, ids);
      StepIgnoresOthersIds(s.db, OpOf(s, m).value, ids);
      ops := SplitRefinesWith(before, ids);
      RunThen(ops, OpOf(s, m).value);
      ops := ops + [OpOf(s, m).value];
    } else if RecordsQuietly(s, m) {
      var id := s.workers[m.w].d.id;
      ops := SplitRefinesWith(before, ids + {id});
      assert s.db.processed + (ids + {id}) == s.db.processed + {id} + ids;
    } else {
      ops := SplitRefinesWith(before, ids);
    }
  }

  lemma NotDelivered(s: Split, m: Move, ids: set<MessageId>)
    requires SplitInv(s) && QuietIds(Advanced(s, m), ids) && OpOf(s, m).Some?
    ensures OpOf(s, m).value.OpHandle? ==> OpOf(s, m).value.d.id !in ids
  {
    var op := OpOf(s, m).value;
    if op.OpHandle? && op.d.id in ids {
      var s' := Advanced(s, m);
      var v :| v in s'.workers && s'.workers[v].Quiet? && s'.workers[v].d.id == op.d.id;
      OthersKeepTheirIds(s, m, v);
      assert false;
    }
  }

  /** Split-phase runs refine the atomic machine. */
  lemma SplitRefinesAtomic(moves: seq<Move>) returns (ops: seq<Op>)
    ensures Run(EMPTY, ops) == RunSplit(moves).db
  {
    ops := SplitRefinesWith(moves, {});
    assert RunSplit(moves).db.processed + {} == RunSplit(moves).db.processed;
  }

  /** Conservation of stock survives any interleaving of versioned writers. */
  lemma SplitRunsConserveStock(moves: seq<Move>, id: ItemId) returns (ops: seq<Op>)
    ensures var db := RunSplit(moves).db;
      && (id in db.items ==>
            && db.items[id].reserved == Total(db.orders, HeldBy(id))
            && 0 <= db.items[id].reserved <= db.items[id].stock)
      && Run(EMPTY, ops) == db
      && StockOf(db, id) == SuppliedOver(EMPTY, ops, id) - Total(db.orders, UsedBy(id))
  {
    ops := SplitRefinesAtomic(moves);
    ReservationsConserved(ops, id);
    StockLedger(ops, id);
  }

  // ----- and the atomic machine is one of its runs

  lemma NoOneLeft(workers: map<nat, Worker>, w: nat, worker: Worker)
    requires w !in workers
    ensures workers[w := worker] - {w} == workers
  {
  }

  lemma EffectAlone(s: Split, w: nat, d: Delivery, now: Time, cat: Catalogue)
    requires w !in s.workers && !Held(s, d.id) && d.id !in s.db.processed && HasEffect(s.db, d)
    ensures Advanced(Advanced(Advanced(s, BeginHandle(w, d)), ReadCatalogue(w, cat)), CommitHandle(w, now)) ==
      s.(db := Next(s.db, OpHandle(d, now, cat)))
  {
    var snapshot := s.db.orders[d.order];
    var read := s.(workers := s.workers[w := Handling(d, snapshot, Some(cat))]);
    assert Advanced(Advanced(s, BeginHandle(w, d)), ReadCatalogue(w, cat)) == read by {
      assert s.workers[w := Handling(d, snapshot, None)][w := Handling(d, snapshot, Some(cat))] == read.workers;
    }
    StaleHandleOnDb(s.db, d, snapshot, now, cat);
    NoOneLeft(s.workers, w, Handling(d, snapshot, Some(cat)));
  }

  lemma QuietAlone(s: Split, w: nat, d: Delivery, now: Time, cat: Catalogue)
    requires Constraints(s.db) && w !in s.workers && !Held(s, d.id) && d.id !in s.db.processed && !HasEffect(s.db, d)
    ensures Advanced(Advanced(Advanced(s, BeginHandle(w, d)), ReadCatalogue(w, cat)), CommitHandle(w, now)) ==
      s.(db := Next(s.db, OpHandle(d, now, cat)))
  {
    QuietHandle(s.db, d, now, cat);
    NoOneLeft(s.workers, w, Quiet(d));
  }

  /** Begin, read and commit in a row are the atomic step, whatever the other workers hold. */
  lemma AloneIsAtomic(s: Split, w: nat, d: Delivery, now: Time, cat: Catalogue)
    requires SplitInv(s) && w !in s.workers && !Held(s, d.id)
    ensures Advanced(Advanced(Advanced(s, BeginHandle(w, d)), ReadCatalogue(w, cat)), CommitHandle(w, now)) ==
      s.(db := Next(s.db, OpHandle(d, now, cat)))
  {
    if d.id in s.db.processed {
      assert Advanced(s, BeginHandle(w, d)) == s;
    } else if HasEffect(s.db, d) {
      EffectAlone(s, w, d, now, cat);
    } else {
      QuietAlone(s, w, d, now, cat);
    }
  }

  /** And begin and commit in a row are the delivery. */
  lemma DeliveryAlone(s: Split, w: nat, i: OrderId, now: Time)
    requires w !in s.workers && i < |s.db.orders|
    ensures Advanced(Advanced(s, BeginDelivery(w, i)), CommitDelivery(w, now)) ==
      s.(db := Next(s.db, OpDeliver(i, now)))
  {
    StaleDeliveryOnDb(s.db, i, s.db.orders[i], now);
    NoOneLeft(s.workers, w, Delivering(i, s.db.orders[i]));
  }

  /** Every run of the atomic machine is a split run. */
  lemma {:induction false} AtomicIsSplit(ops: seq<Op>)
    ensures RunSplit(seq(|ops|, k requires 0 <= k < |ops| => Whole(ops[k]))) == Split(Run(EMPTY, ops), map[])
  {
    var moves := seq(|ops|, k requires 0 <= k < |ops| => Whole(ops[k]));
    if ops == [] {
    } else {
      var before, op := ops[..|ops| - 1], ops[|ops| - 1];
      AtomicIsSplit(before);
      assert moves[..|moves| - 1] == seq(|before|, k requires 0 <= k < |before| => Whole(before[k]));
      assert ops == before + [op];
      RunThen(before, op);
    }
  }
}
