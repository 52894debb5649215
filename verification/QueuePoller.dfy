/** One poll of a queue: handle each message of the batch in turn, delete it once the handler is done, and stop at the
    first failure. */
module QueuePoller {
  import opened Entities
  import opened Machine
  import opened Relay
  import opened Consumer
  import opened Orchestrator

  /** What becomes of a received message apart from its handler: its body may not parse, and its deletion may fail. */
  datatype Fate = Fine | Malformed | DeleteFails

  /** The queue while a poller has the rest of a batch in hand. */
  ghost function Holding(q: Queue, rest: seq<nat>, handled: bool): Queue {
    q.(batches := map[0 := Batch(rest, handled)])
  }

  lemma ReceivedFirst(q: Queue, batch: seq<nat>)
    requires q.batches == map[] && FifoBatch(q, batch)
    ensures Consumer.RunFrom(q, [Consumer.Receive(0, batch)]) == Holding(q, batch, false)
  {
  }

  lemma StoppedNext(start: Queue, moves: seq<Consumer.Move>, q: Queue, rest: seq<nat>, handled: bool)
    requires Consumer.RunFrom(start, moves) == Holding(q, rest, handled) && q.batches == map[]
    ensures Consumer.RunFrom(start, moves + [Consumer.Stop(0)]) == q
  {
  }

  lemma DeletedNext(start: Queue, moves: seq<Consumer.Move>, q: Queue, rest: seq<nat>)
    requires Consumer.RunFrom(start, moves) == Holding(q, rest, true) && rest != []
    ensures Consumer.RunFrom(start, moves + [Consumer.Delete(0)]) ==
      Holding(q.(deleted := q.deleted + {rest[0]}), rest[1..], false)
  {
  }

  lemma HandledNext(start: Queue, moves: seq<Consumer.Move>, q: Queue, rest: seq<nat>, now: Time, cat: Catalogue)
    requires Consumer.RunFrom(start, moves) == Holding(q, rest, false) && q.batches == map[]
    requires rest != [] && rest[0] < |q.messages|
    ensures var out := Step(q.db, OpHandle(q.messages[rest[0]], now, cat));
      Consumer.RunFrom(start, moves + [Consumer.Handle(0, now, cat)]) ==
        if out.Committed? then Holding(q.(db := out.db, log := q.log + [rest[0]]), rest, true) else q
  {
  }

  class SqsQueuePoller {
    const saga: ServiceOrderSaga
    var messages: seq<Delivery>
    var deleted: set<nat>
    var dead: map<nat, nat>
    ghost var log: seq<nat>

    constructor (saga: ServiceOrderSaga)
      ensures this.saga == saga && messages == [] && deleted == {} && dead == map[] && log == []
    {
      this.saga, messages, deleted, dead, log := saga, [], {}, map[], [];
    }

    /** The queue and the database, with nothing in flight here. */
    ghost function State(): Queue
      reads this, saga.db
    {
      Queue(saga.db.State(), messages, deleted, dead, log, map[])
    }

    /** Hands one message to the orchestrator and deletes it afterwards; says whether both went through. */
    method Handle(j: nat, fate: Fate, now: Time, services: map<ServiceId, Service>,
        customers: map<CustomerId, Customer>)
      returns (ok: bool)
      requires saga.db.Valid() && j < |messages|
      modifies this`deleted, this`log, saga`notified, saga.db
      ensures saga.db.Valid()
      ensures var out := Step(old(saga.db.State()),
        OpHandle(messages[j], now, Catalogue(customers, services, old(saga.db.items))));
        && (ok <==> fate.Fine? && out.Committed?)
        && saga.db.State() == (if fate.Malformed? || out.Aborted? then old(saga.db.State()) else out.db)
        && log == old(log) + (if fate.Malformed? || out.Aborted? then [] else [j])
      ensures deleted == if ok then old(deleted) + {j} else old(deleted)
    {
      if fate.Malformed? {
        return false;
      }
      var d := messages[j];
      var r: Result<Report>;
      match d.body {
        case ReplyOf(reply) => r := saga.Handle(d.id, d.order, reply, now, services, customers);
        case DeadCommand(command) => r := saga.HandleFailedCommand(d.id, d.order, command, now, services, customers);
      }
      if r.Failure? {
        return false;
      }
      log := log + [j];
      if fate.DeleteFails? {
        return false;
      }
      deleted := deleted + {j};
      ok := true;
    }

    /** The same as moves of the queue protocol, continuing those of the poll so far. */
    method HandleFirst(rest: seq<nat>, fate: Fate, now: Time, services: map<ServiceId, Service>,
        customers: map<CustomerId, Customer>,
        ghost start: Queue, ghost before: seq<Consumer.Move>)
      returns (ok: bool, ghost moves: seq<Consumer.Move>)
      requires saga.db.Valid() && rest != [] && rest[0] < |messages|
      requires Consumer.RunFrom(start, before) == Holding(State(), rest, false)
      modifies this`deleted, this`log, saga`notified, saga.db
      ensures saga.db.Valid()
      ensures Consumer.RunFrom(start, moves) == if ok then Holding(State(), rest[1..], false) else State()
      ensures ok ==> fate.Fine? && log == old(log) + [rest[0]] && deleted == old(deleted) + {rest[0]}
      ensures !ok ==> deleted == old(deleted) && (log == old(log) || (fate.DeleteFails? && log == old(log) + [rest[0]]))
    {
      ghost var q, cat := State(), Catalogue(customers, services, saga.db.items);
      ok := Handle(rest[0], fate, now, services, customers);
      if fate.Malformed? {
        StoppedNext(start, before, q, rest, false);
        return ok, before + [Consumer.Stop(0)];
      }
      HandledNext(start, before, q, rest, now, cat);
      moves := before + [Consumer.Handle(0, now, cat)];
      ghost var out := Step(q.db, OpHandle(q.messages[rest[0]], now, cat));
      if ok {
        DeletedNext(start, moves, q.(db := out.db, log := log), rest);
        moves := moves + [Consumer.Delete(0)];
      } else if out.Committed? {
        StoppedNext(start, moves, State(), rest, true);
        moves := moves + [Consumer.Stop(0)];
      }
    }

    /** Handles the messages of a batch in turn, until one fails. */
    method HandleBatch(batch: seq<nat>, fates: seq<Fate>, now: Time, services: map<ServiceId, Service>,
        customers: map<CustomerId, Customer>,
        ghost start: Queue, ghost before: seq<Consumer.Move>)
      returns (handled: nat, ghost moves: seq<Consumer.Move>)
      requires saga.db.Valid() && |fates| == |batch| && (forall a :: 0 <= a < |batch| ==> batch[a] < |messages|)
      requires Consumer.RunFrom(start, before) == Holding(State(), batch, false)
      modifies this`deleted, this`log, saga`notified, saga.db
      ensures saga.db.Valid()
      ensures Consumer.RunFrom(start, moves) == State()
      ensures handled <= |batch| && deleted == old(deleted) + Elements(batch[..handled])
      ensures log == old(log) + batch[..handled]
        || (handled < |batch| && fates[handled].DeleteFails? && log == old(log) + batch[..handled + 1])
      ensures forall fate :: fate in fates[..handled] ==> fate.Fine?
    {
      handled, moves := 0, before;
      while handled < |batch|
        invariant 0 <= handled <= |batch|
        invariant saga.db.Valid()
        invariant Consumer.RunFrom(start, moves) == Holding(State(), batch[handled..], false)
        invariant deleted == old(deleted) + Elements(batch[..handled])
        invariant log == old(log) + batch[..handled]
        invariant forall fate :: fate in fates[..handled] ==> fate.Fine?
      {
        TakeOne(batch, handled, old(log), old(deleted));
        assert fates[..handled + 1] == fates[..handled] + [fates[handled]];
        var ok;
        ok, moves := HandleFirst(batch[handled..], fates[handled], now, services, customers, start, moves);
        if !ok {
          return;
        }
        handled := handled + 1;
      }
      assert batch[handled..] == [];
      StoppedNext(start, moves, State(), [], false);
      moves := moves + [Consumer.Stop(0)];
    }

    /** Receives one batch and handles it. The first `handled` messages were handled and deleted; at most one more was
        handled, its deletion having failed. The whole poll is a run of the queue protocol. */
    method PollOnce(batch: seq<nat>, fates: seq<Fate>, now: Time, services: map<ServiceId, Service>,
        customers: map<CustomerId, Customer>)
      returns (handled: nat, ghost moves: seq<Consumer.Move>)
      requires saga.db.Valid() && FifoBatch(State(), batch) && |fates| == |batch|
      modifies this`deleted, this`log, saga`notified, saga.db
      ensures saga.db.Valid()
      ensures State() == Consumer.RunFrom(old(State()), moves)
      ensures handled <= |batch| && deleted == old(deleted) + Elements(batch[..handled])
      ensures log == old(log) + batch[..handled]
        || (handled < |batch| && fates[handled].DeleteFails? && log == old(log) + batch[..handled + 1])
      ensures forall fate :: fate in fates[..handled] ==> fate.Fine?
    {
      ghost var start := State();
      ReceivedFirst(start, batch);
      handled, moves := HandleBatch(batch, fates, now, services, customers, start, [Consumer.Receive(0, batch)]);
    }
  }
}
