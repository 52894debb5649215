/** One cycle of a relay: fetch, then send and mark each message in turn, stopping at the first failed send. */
module OutboxRelay {
  import opened Entities
  import opened Machine
  import opened Commands
  import opened Relay

  class OutboxStore {
    const clock: Clock
    var messages: seq<Message>
    var published: set<nat>

    constructor (clock: Clock, messages: seq<Message>)
      ensures this.clock == clock && this.messages == messages && published == {}
    {
      this.clock, this.messages, published := clock, messages, {};
    }

    /** The oldest row that is neither published nor in `batch`, if there is one. */
    method NextPending(batch: seq<nat>) returns (next: Option<nat>)
      ensures next.None? ==> forall j :: 0 <= j < |messages| ==> j in published || j in batch
      ensures next.Some? ==>
        && next.value < |messages| && next.value !in published && next.value !in batch
        && (forall j :: 0 <= j < |messages| && j !in published && j !in batch ==>
              CreatedAt(clock, messages[next.value]) <= CreatedAt(clock, messages[j]))
    {
      next := None;
      var k := 0;
      while k < |messages|
        invariant 0 <= k <= |messages|
        invariant next.None? ==> forall j :: 0 <= j < k ==> j in published || j in batch
        invariant next.Some? ==>
          && next.value < |messages| && next.value !in published && next.value !in batch
          && (forall j :: 0 <= j < k && j !in published && j !in batch ==>
                CreatedAt(clock, messages[next.value]) <= CreatedAt(clock, messages[j]))
      {
        if k !in published && k !in batch &&
           (next.None? || CreatedAt(clock, messages[k]) < CreatedAt(clock, messages[next.value])) {
          next := Some(k);
        }
        k := k + 1;
      }
    }

    /** The oldest unpublished rows, at most `limit` of them. */
    method FindPending(limit: nat) returns (batch: seq<nat>)
      ensures PendingBatch(clock, messages, published, batch) && |batch| <= limit
      ensures |batch| < limit ==> forall j :: 0 <= j < |messages| && j !in published ==> j in batch
    {
      batch := [];
      while |batch| < limit
        invariant |batch| <= limit && PendingBatch(clock, messages, published, batch)
      {
        var next := NextPending(batch);
        if next.None? {
          return;
        }
        batch := batch + [next.value];
      }
    }

    method CountPending() returns (count: nat)
      ensures count == |set j | 0 <= j < |messages| && j !in published|
    {
      count := 0;
      var k := 0;
      assert (set j | 0 <= j < 0 && j !in published) == {};
      while k < |messages|
        invariant 0 <= k <= |messages|
        invariant count == |set j | 0 <= j < k && j !in published|
      {
        ghost var before := set j | 0 <= j < k && j !in published;
        if k !in published {
          count := count + 1;
          assert (set j | 0 <= j < k + 1 && j !in published) == before + {k};
        } else {
          assert (set j | 0 <= j < k + 1 && j !in published) == before;
        }
        k := k + 1;
      }
    }

    method MarkPublished(k: nat)
      modifies this`published
      ensures published == old(published) + {k}
    {
      published := published + {k};
    }
  }

  /** The queue client, with every send that reached a queue. */
  class MessageSender {
    var sent: seq<nat>

    constructor ()
      ensures sent == []
    {
      sent := [];
    }

    method Send(k: nat)
      modifies this
      ensures sent == old(sent) + [k]
    {
      sent := sent + [k];
    }
  }

  /** The protocol's moves of one cycle that sends and marks `n` messages. */
  function CycleMoves(batch: seq<nat>, n: nat): seq<Move> {
    [Fetch(0, batch)] + Rounds(0, n) + [Stop(0)]
  }

  /** A cycle run alone is the protocol's moves, in order. */
  lemma CycleIsRun(clock: Clock, db: Db, published: set<nat>, sent: seq<nat>, batch: seq<nat>, n: nat)
    requires PendingBatch(clock, db.outbox, published, batch) && n <= |batch|
    ensures RunFrom(Relays(clock, db, published, sent, map[]), CycleMoves(batch, n)) ==
      Relays(clock, db, published + Elements(batch[..n]), sent + batch[..n], map[])
  {
    var s := Relays(clock, db, published, sent, map[]);
    var fetched := Advanced(s, Fetch(0, batch));
    RunConcat(s, [Fetch(0, batch)] + Rounds(0, n), [Stop(0)]);
    RunConcat(s, [Fetch(0, batch)], Rounds(0, n));
    RunOne(s, Fetch(0, batch));
    RoundsSendAndMark(fetched, 0, n);
    var done := RunFrom(fetched, Rounds(0, n));
    RunOne(done, Stop(0));
    assert done.cycles - {0} == map[];
  }

  class PublishPendingMessages {
    const outbox: OutboxStore
    const sender: MessageSender

    constructor (outbox: OutboxStore, sender: MessageSender)
      ensures this.outbox == outbox && this.sender == sender
    {
      this.outbox, this.sender := outbox, sender;
    }

    /** Publishes up to `batchSize` messages, oldest first. The first `working` sends reach their queue and the next one
        throws, which ends the cycle with None. */
    method Execute(batchSize: nat, working: nat, ghost db: Db) returns (r: Option<nat>, ghost pending: seq<nat>)
      requires db.outbox == outbox.messages
      modifies outbox`published, sender
      ensures PendingBatch(outbox.clock, outbox.messages, old(outbox.published), pending) && |pending| <= batchSize
      ensures |pending| < batchSize ==> forall j :: 0 <= j < |outbox.messages| && j !in old(outbox.published) ==>
        j in pending
      ensures r == if working < |pending| then None else Some(|pending|)
      ensures var n := if working < |pending| then working else |pending|;
        Relays(outbox.clock, db, outbox.published, sender.sent, map[]) ==
          RunFrom(Relays(outbox.clock, db, old(outbox.published), old(sender.sent), map[]), CycleMoves(pending, n))
    {
      var batch := outbox.FindPending(batchSize);
      pending := batch;
      var k := 0;
      while k < |batch|
        invariant 0 <= k <= |batch| && k <= working
        invariant sender.sent == old(sender.sent) + batch[..k]
        invariant outbox.published == old(outbox.published) + Elements(batch[..k])
      {
        if k == working {
          CycleIsRun(outbox.clock, db, old(outbox.published), old(sender.sent), batch, k);
          return None, batch;
        }
        sender.Send(batch[k]);
        outbox.MarkPublished(batch[k]);
        assert batch[..k + 1] == batch[..k] + [batch[k]];
        k := k + 1;
      }
      CycleIsRun(outbox.clock, db, old(outbox.published), old(sender.sent), batch, k);
      r := Some(|batch|);
    }
  }
}
