/** The outbox relays: any number of them fetch, send and mark, and any of them may die between two of those steps,
    while the service goes on writing messages. */
module Relay {
  import opened Entities
  import opened Machine
  import opened Commands
  import opened Reachable
  import opened Ties

  /** A relay in the middle of a cycle: the positions it still has to publish, and whether the first was already sent.
      */
  datatype Cycle = Cycle(pending: seq<nat>, headSent: bool)

  /** `published` are the marked rows; `sent` is every send that reached a queue, in order, repeats included. Nothing
      is assumed of `clock`: transactions may begin at the same time, or commit in another order than they began. */
  datatype Relays = Relays(clock: Clock, db: Db, published: set<nat>, sent: seq<nat>, cycles: map<nat, Cycle>)

  datatype Move =
    | Work(op: Op)
    | Fetch(r: nat, batch: seq<nat>)
    | Send(r: nat)
    | Mark(r: nat)
    | Stop(r: nat)  // the cycle ends, a send fails, or the process dies

  /** What the database may answer for the oldest unpublished rows: sorted by creation time, ties in any order, and
      nothing older left out. */
  ghost predicate PendingBatch(clock: Clock, outbox: seq<Message>, published: set<nat>, batch: seq<nat>) {
    && (forall a :: 0 <= a < |batch| ==> batch[a] < |outbox| && batch[a] !in published)
    && (forall a, b :: 0 <= a < b < |batch| ==> batch[a] != batch[b])
    && (forall a, b :: 0 <= a < b < |batch| ==>
         CreatedAt(clock, outbox[batch[a]]) <= CreatedAt(clock, outbox[batch[b]]))
    && (forall j, a :: 0 <= j < |outbox| && j !in published && j !in batch && 0 <= a < |batch| ==>
          CreatedAt(clock, outbox[batch[a]]) <= CreatedAt(clock, outbox[j]))
  }

  ghost function Advanced(s: Relays, m: Move): Relays {
    match m
    case Work(op) => s.(db := Next(s.db, op))
    case Fetch(r, batch) =>
      if r !in s.cycles && PendingBatch(s.clock, s.db.outbox, s.published, batch)
      then s.(cycles := s.cycles[r := Cycle(batch, false)])
      else s
    case Send(r) =>
      if r in s.cycles && s.cycles[r].pending != [] && !s.cycles[r].headSent
      then s.(sent := s.sent + [s.cycles[r].pending[0]], cycles := s.cycles[r := s.cycles[r].(headSent := true)])
      else s
    case Mark(r) =>
      if r in s.cycles && s.cycles[r].pending != [] && s.cycles[r].headSent
      then s.(published := s.published + {s.cycles[r].pending[0]},
              cycles := s.cycles[r := Cycle(s.cycles[r].pending[1..], false)])
      else s
    case Stop(r) => s.(cycles := s.cycles - {r})
  }

  ghost function RunFrom(s: Relays, moves: seq<Move>): Relays {
    if moves == [] then s else Advanced(RunFrom(s, moves[..|moves| - 1]), moves[|moves| - 1])
  }

  /** Nothing published, sent or in flight yet. */
  ghost function Idle(clock: Clock, db: Db): Relays {
    Relays(clock, db, {}, [], map[])
  }

  // ----- invariant

  /** Stored before `k`, and by a transaction that began before. */
  ghost predicate Older(s: Relays, j: nat, k: nat) {
    j < k < |s.db.outbox| && CreatedAt(s.clock, s.db.outbox[j]) < CreatedAt(s.clock, s.db.outbox[k])
  }

  /** Everything older than a pending row was sent, or comes before it in the batch. */
  ghost predicate CycleOk(s: Relays, c: Cycle) {
    && (forall a :: 0 <= a < |c.pending| ==> c.pending[a] < |s.db.outbox|)
    && (forall a, j :: 0 <= a < |c.pending| && Older(s, j, c.pending[a]) ==> j in s.sent || j in c.pending[..a])
    && (c.headSent ==> c.pending != [] && c.pending[0] in s.sent)
  }

  ghost predicate SentInOrder(s: Relays) {
    && (forall p :: 0 <= p < |s.sent| ==> s.sent[p] < |s.db.outbox|)
    && (forall p, j :: 0 <= p < |s.sent| && Older(s, j, s.sent[p]) ==> j in s.sent[..p])
  }

  ghost predicate RelayInv(s: Relays) {
    && Inv(s.db)
    && (forall j :: j in s.published ==> j in s.sent)
    && SentInOrder(s)
    && (forall r :: r in s.cycles ==> CycleOk(s, s.cycles[r]))
  }

  lemma WorkKeepsInv(s: Relays, op: Op)
    requires RelayInv(s)
    ensures RelayInv(Advanced(s, Work(op)))
  {
    StepKeepsInv(s.db, op);
    GrownKeepsInv(s, Next(s.db, op));
  }

  /** New rows are older than no row there was. */
  lemma GrownKeepsInv(s: Relays, after: Db)
    requires RelayInv(s) && Inv(after) && s.db.outbox <= after.outbox
    ensures RelayInv(s.(db := after))
  {
    var s' := s.(db := after);
    assert forall j: nat, k: nat :: k < |s.db.outbox| && Older(s', j, k) ==> Older(s, j, k);
    forall r | r in s'.cycles ensures CycleOk(s', s'.cycles[r]) {
      assert CycleOk(s, s.cycles[r]);
    }
  }

  lemma FetchedOk(s: Relays, batch: seq<nat>)
    requires PendingBatch(s.clock, s.db.outbox, s.published, batch) && (forall j :: j in s.published ==> j in s.sent)
    ensures CycleOk(s, Cycle(batch, false))
  {
    forall a, j | 0 <= a < |batch| && Older(s, j, batch[a]) ensures j in s.sent || j in batch[..a] {
      if j !in s.published {
        assert j in batch;
        var b :| 0 <= b < |batch| && batch[b] == j;
        assert b < a;
        assert batch[..a][b] == j;
      }
    }
  }

  lemma FetchKeepsInv(s: Relays, r: nat, batch: seq<nat>)
    requires RelayInv(s)
    ensures RelayInv(Advanced(s, Fetch(r, batch)))
  {
    if r !in s.cycles && PendingBatch(s.clock, s.db.outbox, s.published, batch) {
      FetchedOk(s, batch);
      CyclesKeepInv(s, s.cycles[r := Cycle(batch, false)]);
    }
  }

  lemma CyclesKeepInv(s: Relays, cycles: map<nat, Cycle>)
    requires RelayInv(s) && forall r :: r in cycles ==> CycleOk(s, cycles[r])
    ensures RelayInv(s.(cycles := cycles))
  {
    var s' := s.(cycles := cycles);
    assert forall j: nat, k: nat :: Older(s', j, k) <==> Older(s, j, k);
    forall r | r in cycles ensures CycleOk(s', cycles[r]) {
      assert CycleOk(s, cycles[r]);
    }
  }

  lemma SendKeepsInv(s: Relays, r: nat)
    requires RelayInv(s)
    ensures RelayInv(Advanced(s, Send(r)))
  {
    var s' := Advanced(s, Send(r));
    if s' != s {
      var c := s.cycles[r];
      assert c.pending[..0] == [];
      assert s'.sent[|s.sent|] == c.pending[0];
      forall p, j | 0 <= p < |s'.sent| && Older(s, j, s'.sent[p]) ensures j in s'.sent[..p] {
        assert s'.sent[..p] == if p == |s.sent| then s.sent else s.sent[..p];
      }
      forall q | q in s'.cycles ensures CycleOk(s', s'.cycles[q]) {
        assert CycleOk(s, s.cycles[q]);
      }
    }
  }

  lemma MarkedOk(s: Relays, c: Cycle)
    requires CycleOk(s, c) && c.headSent
    ensures CycleOk(s, Cycle(c.pending[1..], false))
  {
    var rest := c.pending[1..];
    forall a, j | 0 <= a < |rest| && Older(s, j, rest[a]) ensures j in s.sent || j in rest[..a] {
      assert rest[a] == c.pending[a + 1];
      assert c.pending[..a + 1] == [c.pending[0]] + rest[..a];
    }
  }

  lemma PublishedKeepsInv(s: Relays, k: nat)
    requires RelayInv(s) && k in s.sent
    ensures RelayInv(s.(published := s.published + {k}))
  {
    var s' := s.(published := s.published + {k});
    assert forall j: nat, k: nat :: Older(s', j, k) <==> Older(s, j, k);
    forall r | r in s'.cycles ensures CycleOk(s', s'.cycles[r]) {
      assert CycleOk(s, s.cycles[r]);
    }
  }

  lemma MarkKeepsInv(s: Relays, r: nat)
    requires RelayInv(s)
    ensures RelayInv(Advanced(s, Mark(r)))
  {
    if r in s.cycles && s.cycles[r].headSent {
      var c := s.cycles[r];
      assert CycleOk(s, c);
      MarkedOk(s, c);
      CyclesKeepInv(s, s.cycles[r := Cycle(c.pending[1..], false)]);
      PublishedKeepsInv(s.(cycles := s.cycles[r := Cycle(c.pending[1..], false)]), c.pending[0]);
    }
  }

  lemma MoveKeepsInv(s: Relays, m: Move)
    requires RelayInv(s)
    ensures RelayInv(Advanced(s, m))
  {
    match m
    case Work(op) => WorkKeepsInv(s, op);
    case Fetch(r, batch) => FetchKeepsInv(s, r, batch);
    case Send(r) => SendKeepsInv(s, r);
    case Mark(r) => MarkKeepsInv(s, r);
    case Stop(_) =>
  }

  lemma {:induction false} RunKeepsInv(s: Relays, moves: seq<Move>)
    requires RelayInv(s)
    ensures RelayInv(RunFrom(s, moves))
  {
    if moves == [] {
    } else {
      RunKeepsInv(s, moves[..|moves| - 1]);
      MoveKeepsInv(RunFrom(s, moves[..|moves| - 1]), moves[|moves| - 1]);
    }
  }

  lemma IdleInv(clock: Clock)
    ensures RelayInv(Idle(clock, EMPTY))
  {
    EmptyInv();
  }

  /** The use cases that ran among the relays' moves, in order. */
  function Works(moves: seq<Move>): seq<Op> {
    if moves == [] then []
    else Works(moves[..|moves| - 1]) + if moves[|moves| - 1].Work? then [moves[|moves| - 1].op] else []
  }

  /** Relays never disturb the database: it is what the use cases alone make of it. */
  lemma {:induction false} RelaysDisturbNothing(s: Relays, moves: seq<Move>)
    ensures RunFrom(s, moves).db == Run(s.db, Works(moves))
  {
    if moves == [] {
    } else {
      var before, m := moves[..|moves| - 1], moves[|moves| - 1];
      RelaysDisturbNothing(s, before);
      if m.Work? {
        RunAppend(s.db, Works(before), [m.op]);
      } else {
        assert Works(moves) == Works(before);
      }
    }
  }

  // ----- nothing overtakes

  /** With any number of relays crashing anywhere, a row is never sent before one that was stored before it by a
      transaction that began before; of one order's messages to one destination this leaves only transactions that
      began together or committed in another order than they began. */
  lemma NeverOvertakes(clock: Clock, moves: seq<Move>, p: nat, j: nat)
    requires var s := RunFrom(Idle(clock, EMPTY), moves); p < |s.sent| && j < |s.db.outbox|
    ensures var s := RunFrom(Idle(clock, EMPTY), moves);
      var k := s.sent[p];
      && k < |s.db.outbox|
      && (Older(s, j, k) ==> j in s.sent[..p])
      && (j < k && SameTarget(s.db.outbox[j], s.db.outbox[k]) ==>
            s.db.outbox[j].tx < s.db.outbox[k].tx && (TimesRise(clock, s.db.outbox) ==> j in s.sent[..p]))
  {
    IdleInv(clock);
    RunKeepsInv(Idle(clock, EMPTY), moves);
    RunKeepsClock(Idle(clock, EMPTY), moves);
  }

  /** Transactions began at different times, in the order in which they committed. */
  ghost predicate TimesRise(clock: Clock, outbox: seq<Message>) {
    forall j, k :: 0 <= j < k < |outbox| && outbox[j].tx < outbox[k].tx ==>
      CreatedAt(clock, outbox[j]) < CreatedAt(clock, outbox[k])
  }

  lemma {:induction false} RunKeepsClock(s: Relays, moves: seq<Move>)
    ensures RunFrom(s, moves).clock == s.clock
  {
    if moves == [] {
    } else {
      RunKeepsClock(s, moves[..|moves| - 1]);
    }
  }

  /** Whenever `k` is listed, `j` was published or is listed before it. */
  ghost predicate ListedAfter(published: set<nat>, batch: seq<nat>, j: nat, k: nat) {
    forall b :: 0 <= b < |batch| && batch[b] == k ==> j in published || j in batch[..b]
  }

  /** No sort of pending rows by creation time, however ties are broken, lists `k` before a pending `j`. */
  ghost predicate SortKeeps(clock: Clock, outbox: seq<Message>, j: nat, k: nat) {
    forall published, batch :: PendingBatch(clock, outbox, published, batch) ==> ListedAfter(published, batch, j, k)
  }

  /** Of one order's messages to one destination, every sort of the pending rows by creation time, however ties are
      broken, keeps the commit order exactly when the transaction that wrote the first began before the other; and it
      is another transaction. */
  lemma AnySortKeepsOrder(ops: seq<Op>, clock: Clock, j: nat, k: nat)
    requires var outbox := Run(EMPTY, ops).outbox;
      j < k < |outbox| && SameTarget(outbox[j], outbox[k])
    ensures var outbox := Run(EMPTY, ops).outbox;
      && outbox[j].tx < outbox[k].tx
      && (SortKeeps(clock, outbox, j, k) <==> CreatedAt(clock, outbox[j]) < CreatedAt(clock, outbox[k]))
  {
    RunKeepsInvFromEmpty(ops);
    SortKeepsOrder(clock, Run(EMPTY, ops).outbox, j, k);
  }

  lemma SortKeepsOrder(clock: Clock, outbox: seq<Message>, j: nat, k: nat)
    requires j < k < |outbox|
    ensures SortKeeps(clock, outbox, j, k) <==> CreatedAt(clock, outbox[j]) < CreatedAt(clock, outbox[k])
  {
    if CreatedAt(clock, outbox[j]) < CreatedAt(clock, outbox[k]) {
      forall published, batch | PendingBatch(clock, outbox, published, batch)
        ensures ListedAfter(published, batch, j, k)
      {
        forall b | 0 <= b < |batch| && batch[b] == k ensures j in published || j in batch[..b] {
          if j !in published {
            assert j in batch;
            var a :| 0 <= a < |batch| && batch[a] == j;
            assert a < b && batch[..b][a] == j;
          }
        }
      }
    } else {
      var batch := [k, j];
      var published := set i | 0 <= i < |outbox| && i !in batch;
      assert PendingBatch(clock, outbox, published, batch);
      assert batch[0] == k && batch[..0] == [];
      assert !ListedAfter(published, batch, j, k);
    }
  }

  // ----- nothing is lost

  ghost function Unpublished(s: Relays): set<nat> {
    set k | 0 <= k < |s.db.outbox| && k !in s.published
  }

  /** An unpublished row that no other is older than; one is the whole answer to a fetch of one row. */
  lemma OldestPending(s: Relays) returns (k: nat)
    requires Unpublished(s) != {}
    ensures k in Unpublished(s) && PendingBatch(s.clock, s.db.outbox, s.published, [k])
  {
    k :| k in Unpublished(s);
    var n := 0;
    while n < |s.db.outbox|
      invariant 0 <= n <= |s.db.outbox| && k in Unpublished(s)
      invariant forall j :: 0 <= j < n && j !in s.published ==>
        CreatedAt(s.clock, s.db.outbox[k]) <= CreatedAt(s.clock, s.db.outbox[j])
    {
      if n !in s.published && CreatedAt(s.clock, s.db.outbox[n]) < CreatedAt(s.clock, s.db.outbox[k]) {
        k := n;
      }
      n := n + 1;
    }
  }

  /** One relay, restarted, that publishes one row. */
  function PublishOne(k: nat): seq<Move> {
    [Stop(0), Fetch(0, [k]), Send(0), Mark(0)]
  }

  lemma PublishesOne(s: Relays, k: nat)
    requires PendingBatch(s.clock, s.db.outbox, s.published, [k])
    ensures var after := RunFrom(s, PublishOne(k));
      after.clock == s.clock && after.db == s.db && after.published == s.published + {k} && after.sent == s.sent + [k]
  {
    var stopped := Advanced(s, Stop(0));
    assert PublishOne(k) == [Stop(0), Fetch(0, [k])] + [Send(0), Mark(0)];
    assert [] + [Stop(0), Fetch(0, [k])] == [Stop(0), Fetch(0, [k])];
    RunTwo(s, [Stop(0), Fetch(0, [k])], Send(0), Mark(0));
    RunTwo(s, [], Stop(0), Fetch(0, [k]));
    SendsAndMarks(stopped, k);
  }

  lemma SendsAndMarks(s: Relays, k: nat)
    requires 0 !in s.cycles && PendingBatch(s.clock, s.db.outbox, s.published, [k])
    ensures var after := Advanced(Advanced(Advanced(s, Fetch(0, [k])), Send(0)), Mark(0));
      after.clock == s.clock && after.db == s.db && after.published == s.published + {k} && after.sent == s.sent + [k]
  {
  }

  lemma {:induction false} Publishing(s: Relays, j: nat) returns (more: seq<Move>)
    requires j < |s.db.outbox| && (j in s.published ==> j in s.sent)
    ensures RunFrom(s, more).db == s.db && j in RunFrom(s, more).sent
    decreases |Unpublished(s)|
  {
    more := [];
    if j !in s.sent {
      assert j in Unpublished(s);
      var k := OldestPending(s);
      more := PublishOne(k);
      PublishesOne(s, k);
      var after := RunFrom(s, more);
      assert after.sent[|s.sent|] == k;
      if k != j {
        assert Unpublished(after) == Unpublished(s) - {k};
        var rest := Publishing(after, j);
        RunConcat(s, more, rest);
        more := more + rest;
      }
    }
  }

  /** With any number of relays crashing anywhere, a published row was sent, and an unsent one is never out of reach:
      from every state of every run, some further moves of the relays send it. */
  lemma NothingLost(clock: Clock, moves: seq<Move>, j: nat) returns (more: seq<Move>)
    requires j < |RunFrom(Idle(clock, EMPTY), moves).db.outbox|
    ensures var s, later := RunFrom(Idle(clock, EMPTY), moves), RunFrom(Idle(clock, EMPTY), moves + more);
      && (j in s.published ==> j in s.sent)
      && later.db == s.db && j in later.sent
  {
    IdleInv(clock);
    RunKeepsInv(Idle(clock, EMPTY), moves);
    var s := RunFrom(Idle(clock, EMPTY), moves);
    more := Publishing(s, j);
    RunConcat(Idle(clock, EMPTY), moves, more);
  }

  /** Whatever happens next, rows stay where they are in the outbox and what was sent stays sent. */
  lemma {:induction false} RowsStay(s: Relays, moves: seq<Move>)
    requires RelayInv(s)
    ensures s.db.outbox <= RunFrom(s, moves).db.outbox && s.sent <= RunFrom(s, moves).sent
  {
    if moves == [] {
    } else {
      var before, m := moves[..|moves| - 1], moves[|moves| - 1];
      RowsStay(s, before);
      RunKeepsInv(s, before);
      if m.Work? {
        StepKeepsInv(RunFrom(s, before).db, m.op);
      }
    }
  }

  // ----- a prefix of the outbox

  /** The first occurrences of the sent messages are the outbox from its start. */
  ghost predicate PrefixSent(s: Relays) {
    forall p, j :: 0 <= p < |s.sent| && 0 <= j < s.sent[p] ==> j in s.sent[..p]
  }

  function Elements(s: seq<nat>): set<nat> {
    set j | j in s
  }

  /** The moves of one relay that sends and marks the first `n` rows of its batch. */
  function Rounds(r: nat, n: nat): seq<Move> {
    if n == 0 then [] else Rounds(r, n - 1) + [Send(r), Mark(r)]
  }

  lemma {:induction false} RunConcat(s: Relays, a: seq<Move>, b: seq<Move>)
    ensures RunFrom(s, a + b) == RunFrom(RunFrom(s, a), b)
  {
    if b == [] {
      assert a + b == a;
    } else {
      assert (a + b)[..|a + b| - 1] == a + b[..|b| - 1];
      RunConcat(s, a, b[..|b| - 1]);
    }
  }

  lemma RunOne(s: Relays, m: Move)
    ensures RunFrom(s, [m]) == Advanced(s, m)
  {
  }

  lemma TakeOne(batch: seq<nat>, k: nat, sent: seq<nat>, done: set<nat>)
    requires k < |batch|
    ensures batch[k..] != [] && batch[k..][0] == batch[k] && batch[k..][1..] == batch[k + 1..]
    ensures sent + batch[..k] + [batch[k]] == sent + batch[..k + 1]
    ensures done + Elements(batch[..k]) + {batch[k]} == done + Elements(batch[..k + 1])
  {
  }

  /** A relay that has sent and marked the first `n` rows of its batch. */
  function SentAndMarked(s: Relays, r: nat, n: nat): Relays
    requires r in s.cycles && n <= |s.cycles[r].pending|
  {
    var batch := s.cycles[r].pending;
    s.(published := s.published + Elements(batch[..n]),
       sent := s.sent + batch[..n],
       cycles := s.cycles[r := Cycle(batch[n..], false)])
  }

  lemma OneMore(s: Relays, r: nat, n: nat)
    requires r in s.cycles && n < |s.cycles[r].pending|
    ensures Advanced(Advanced(SentAndMarked(s, r, n), Send(r)), Mark(r)) == SentAndMarked(s, r, n + 1)
  {
    TakeOne(s.cycles[r].pending, n, s.sent, s.published);
  }

  lemma RunTwo(s: Relays, before: seq<Move>, a: Move, b: Move)
    ensures RunFrom(s, before + [a, b]) == Advanced(Advanced(RunFrom(s, before), a), b)
  {
    assert before + [a, b] == before + [a] + [b];
    RunConcat(s, before + [a], [b]);
    RunConcat(s, before, [a]);
    RunOne(RunFrom(s, before + [a]), b);
    RunOne(RunFrom(s, before), a);
  }

  lemma NoRounds(s: Relays, r: nat)
    requires r in s.cycles && !s.cycles[r].headSent
    ensures SentAndMarked(s, r, 0) == s
  {
    var batch := s.cycles[r].pending;
    assert batch[..0] == [] && batch[0..] == batch;
    assert Elements([]) == {};
  }

  /** What `n` rounds of a relay do: its first `n` rows sent and marked, in order. */
  lemma {:induction false} RoundsSendAndMark(s: Relays, r: nat, n: nat)
    requires r in s.cycles && !s.cycles[r].headSent && n <= |s.cycles[r].pending|
    ensures RunFrom(s, Rounds(r, n)) == SentAndMarked(s, r, n)
  {
    if n == 0 {
      NoRounds(s, r);
    } else {
      RoundsSendAndMark(s, r, n - 1);
      OneMoreRound(s, r, n - 1);
    }
  }

  lemma OneMoreRound(s: Relays, r: nat, n: nat)
    requires r in s.cycles && n < |s.cycles[r].pending| && RunFrom(s, Rounds(r, n)) == SentAndMarked(s, r, n)
    ensures RunFrom(s, Rounds(r, n + 1)) == SentAndMarked(s, r, n + 1)
  {
    RunTwo(s, Rounds(r, n), Send(r), Mark(r));
    OneMore(s, r, n);
  }

  // ----- a cycle among others

  /** The moves of one relay in a run of all. */
  function Own(moves: seq<Move>, r: nat): seq<Move> {
    if moves == [] then []
    else
      var m := moves[|moves| - 1];
      Own(moves[..|moves| - 1], r) + if !m.Work? && m.r == r then [m] else []
  }

  /** Send and mark in turn, `k` moves in all. */
  function Turns(r: nat, k: nat): seq<Move> {
    if k == 0 then [] else Turns(r, k - 1) + [if k % 2 == 1 then Send(r) else Mark(r)]
  }

  ghost predicate TurnsDone(s: Relays, r: nat, batch: seq<nat>, k: nat)
    requires k <= 2 * |batch|
  {
    && r in s.cycles && s.cycles[r] == Cycle(batch[k / 2..], k % 2 == 1)
    && (forall a :: 0 <= a < k / 2 ==> batch[a] in s.published)
    && (forall a :: 0 <= a < (k + 1) / 2 ==> batch[a] in s.sent)
  }

  lemma OthersLeaveTurns(s: Relays, r: nat, batch: seq<nat>, k: nat, m: Move)
    requires k <= 2 * |batch| && TurnsDone(s, r, batch, k) && (m.Work? || m.r != r)
    ensures TurnsDone(Advanced(s, m), r, batch, k)
  {
  }

  lemma TurnTaken(s: Relays, r: nat, batch: seq<nat>, k: nat)
    requires k < 2 * |batch| && TurnsDone(s, r, batch, k)
    ensures TurnsDone(Advanced(s, if k % 2 == 0 then Send(r) else Mark(r)), r, batch, k + 1)
  {
    assert batch[k / 2..][0] == batch[k / 2] && batch[k / 2..][1..] == batch[k / 2 + 1..];
    if k % 2 == 0 {
      assert (s.sent + [batch[k / 2]])[|s.sent|] == batch[k / 2];
    }
  }

  /** A relay that fetched a batch sends and marks its rows in turn, whatever the other relays and the service do in
      between. */
  lemma {:induction false} CycleAmongOthers(s: Relays, r: nat, batch: seq<nat>, moves: seq<Move>, k: nat)
    requires r in s.cycles && s.cycles[r] == Cycle(batch, false)
    requires k <= 2 * |batch| && Own(moves, r) == Turns(r, k)
    ensures TurnsDone(RunFrom(s, moves), r, batch, k)
  {
    if moves == [] {
      assert k == 0 && batch[0..] == batch;
    } else {
      var before, m := moves[..|moves| - 1], moves[|moves| - 1];
      if m.Work? || m.r != r {
        assert Own(moves, r) == Own(before, r);
        CycleAmongOthers(s, r, batch, before, k);
        OthersLeaveTurns(RunFrom(s, before), r, batch, k, m);
      } else {
        LastTurn(moves, r, k);
        CycleAmongOthers(s, r, batch, before, k - 1);
        TurnTaken(RunFrom(s, before), r, batch, k - 1);
      }
    }
  }

  lemma LastTurn(moves: seq<Move>, r: nat, k: nat)
    requires moves != [] && Own(moves, r) == Turns(r, k)
    requires var m := moves[|moves| - 1]; !m.Work? && m.r == r
    ensures k > 0 && Own(moves[..|moves| - 1], r) == Turns(r, k - 1)
    ensures moves[|moves| - 1] == if k % 2 == 1 then Send(r) else Mark(r)
  {
    var before, m := moves[..|moves| - 1], moves[|moves| - 1];
    TurnsLength(r, k);
    assert Own(moves, r) == Own(before, r) + [m];
    assert Own(before, r) == Own(moves, r)[..k - 1] && m == Own(moves, r)[k - 1];
  }

  lemma {:induction false} TurnsLength(r: nat, k: nat)
    ensures |Turns(r, k)| == k
  {
    if k == 0 {
    } else {
      TurnsLength(r, k - 1);
    }
  }

  /** Every row was created after all that were stored before it. */
  ghost predicate Rising(clock: Clock, outbox: seq<Message>) {
    forall j, k :: 0 <= j < k < |outbox| ==> CreatedAt(clock, outbox[j]) < CreatedAt(clock, outbox[k])
  }

  lemma RisingSendsPrefix(s: Relays)
    requires RelayInv(s) && Rising(s.clock, s.db.outbox)
    ensures PrefixSent(s)
  {
    forall p, j | 0 <= p < |s.sent| && 0 <= j < s.sent[p] ensures j in s.sent[..p] {
      assert Older(s, j, s.sent[p]);
    }
  }

  /** The oldest of the rows from one on. */
  lemma Oldest(clock: Clock, outbox: seq<Message>, from: nat) returns (k: nat)
    requires from < |outbox|
    ensures from <= k < |outbox|
    ensures forall l :: from <= l < |outbox| ==> CreatedAt(clock, outbox[k]) <= CreatedAt(clock, outbox[l])
  {
    k := from;
    var n := from;
    while n < |outbox|
      invariant from <= n <= |outbox| && from <= k < |outbox|
      invariant forall l :: from <= l < n ==> CreatedAt(clock, outbox[k]) <= CreatedAt(clock, outbox[l])
    {
      if CreatedAt(clock, outbox[n]) < CreatedAt(clock, outbox[k]) {
        k := n;
      }
      n := n + 1;
    }
  }

  /** Unless creation times rise along the outbox, some row `k` may be listed right after the first `n` rows instead of
      row `n`. */
  lemma Inversion(clock: Clock, outbox: seq<Message>) returns (n: nat, k: nat)
    requires !Rising(clock, outbox)
    ensures n < k < |outbox|
    ensures forall j, l :: 0 <= j < n && j < l < |outbox| ==> CreatedAt(clock, outbox[j]) < CreatedAt(clock, outbox[l])
    ensures forall l :: n <= l < |outbox| ==> CreatedAt(clock, outbox[k]) <= CreatedAt(clock, outbox[l])
  {
    n := 0;
    while n + 1 < |outbox|
      invariant n <= |outbox|
      invariant forall j, l :: 0 <= j < n && j < l < |outbox| ==>
        CreatedAt(clock, outbox[j]) < CreatedAt(clock, outbox[l])
    {
      k := Oldest(clock, outbox, n + 1);
      if CreatedAt(clock, outbox[k]) <= CreatedAt(clock, outbox[n]) {
        return;
      }
      n := n + 1;
    }
    assert false;
  }

  lemma InvertedBatch(clock: Clock, outbox: seq<Message>, n: nat, k: nat)
    requires n < k < |outbox|
    requires forall j, l :: 0 <= j < n && j < l < |outbox| ==> CreatedAt(clock, outbox[j]) < CreatedAt(clock, outbox[l])
    requires forall l :: n <= l < |outbox| ==> CreatedAt(clock, outbox[k]) <= CreatedAt(clock, outbox[l])
    ensures PendingBatch(clock, outbox, {}, seq(n + 1, a => if a == n then k else a))
  {
    var batch := seq(n + 1, a => if a == n then k else a);
    forall j | 0 <= j < n ensures j in batch {
      assert batch[j] == j;
    }
  }

  /** Unless creation times rise along the outbox, one relay may send a row and die before one that was stored
      earlier. */
  lemma InversionBreaksPrefix(clock: Clock, db: Db) returns (moves: seq<Move>)
    requires !Rising(clock, db.outbox)
    ensures RunFrom(Idle(clock, db), moves).db == db && !PrefixSent(RunFrom(Idle(clock, db), moves))
  {
    var n, k := Inversion(clock, db.outbox);
    InvertedBatch(clock, db.outbox, n, k);
    var batch := seq(n + 1, a => if a == n then k else a);
    moves := [Fetch(0, batch)] + Rounds(0, n + 1);
    CycleSendsAll(Idle(clock, db), batch);
    assert RunFrom(Idle(clock, db), moves).sent == batch;
    InvertedSends(batch, n, k);
  }

  lemma CycleSendsAll(s: Relays, batch: seq<nat>)
    requires s.cycles == map[] && PendingBatch(s.clock, s.db.outbox, s.published, batch)
    ensures var after := RunFrom(s, [Fetch(0, batch)] + Rounds(0, |batch|));
      after.db == s.db && after.sent == s.sent + batch
  {
    RunConcat(s, [Fetch(0, batch)], Rounds(0, |batch|));
    RunOne(s, Fetch(0, batch));
    RoundsSendAndMark(Advanced(s, Fetch(0, batch)), 0, |batch|);
    assert batch[..|batch|] == batch;
  }

  lemma InvertedSends(sent: seq<nat>, n: nat, k: nat)
    requires n < k && |sent| == n + 1 && (forall a :: 0 <= a < n ==> sent[a] == a) && sent[n] == k
    ensures n < sent[n] && n !in sent[..n]
  {
  }

  /** Creation times rise along a reachable outbox exactly when transactions began at different times, in the order in
      which they committed, and no order was cancelled after its approval. */
  lemma RisingExactly(ops: seq<Op>, clock: Clock)
    ensures var db := Run(EMPTY, ops);
      Rising(clock, db.outbox) <==>
        TimesRise(clock, db.outbox) && NoneCancelledLate(db)
  {
    RunKeepsInvFromEmpty(ops);
    TieFreeExactly(ops);
    TiesNeverRise(clock, Run(EMPTY, ops).outbox);
  }

  lemma TiesNeverRise(clock: Clock, outbox: seq<Message>)
    requires Stamped(outbox)
    ensures Rising(clock, outbox) <==> TimesRise(clock, outbox) && TieFree(outbox)
  {
    if Rising(clock, outbox) {
      forall j, k | 0 <= j < k < |outbox| ensures outbox[j].tx != outbox[k].tx {
        assert CreatedAt(clock, outbox[j]) < CreatedAt(clock, outbox[k]);
      }
    }
  }

  /** Whatever any relays send of the outbox as it is, crashes included, it is a prefix of it. */
  ghost predicate AlwaysPrefix(clock: Clock, db: Db) {
    forall moves :: RunFrom(Idle(clock, db), moves).db == db ==> PrefixSent(RunFrom(Idle(clock, db), moves))
  }

  /** Whatever the relays may send of a reachable outbox is a prefix of it, in order, exactly when transactions began at
      different times, in the order in which they committed, and no order was cancelled after its approval. */
  lemma PrefixExactly(ops: seq<Op>, clock: Clock)
    ensures var db := Run(EMPTY, ops);
      AlwaysPrefix(clock, db) <==>
        TimesRise(clock, db.outbox) && NoneCancelledLate(db)
  {
    RunKeepsInvFromEmpty(ops);
    RisingExactly(ops, clock);
    PrefixWhenRising(Run(EMPTY, ops), clock);
  }

  lemma PrefixWhenRising(db: Db, clock: Clock)
    requires Inv(db)
    ensures AlwaysPrefix(clock, db) <==> Rising(clock, db.outbox)
  {
    if Rising(clock, db.outbox) {
      forall moves | RunFrom(Idle(clock, db), moves).db == db ensures PrefixSent(RunFrom(Idle(clock, db), moves)) {
        RunKeepsInv(Idle(clock, db), moves);
        RunKeepsClock(Idle(clock, db), moves);
        RisingSendsPrefix(RunFrom(Idle(clock, db), moves));
      }
    } else {
      var moves := InversionBreaksPrefix(clock, db);
    }
  }

  /** On every run, with the service writing and any relay dying in between, the rows sent so far are the outbox from
      its start, as long as its creation times rise. */
  lemma SentIsPrefix(clock: Clock, moves: seq<Move>)
    requires Rising(clock, RunFrom(Idle(clock, EMPTY), moves).db.outbox)
    ensures PrefixSent(RunFrom(Idle(clock, EMPTY), moves))
  {
    IdleInv(clock);
    RunKeepsInv(Idle(clock, EMPTY), moves);
    RunKeepsClock(Idle(clock, EMPTY), moves);
    RisingSendsPrefix(RunFrom(Idle(clock, EMPTY), moves));
  }

  /** Whatever the clock, there is a reachable outbox of which a relay may send a later row first. */
  lemma PrefixFails(clock: Clock) returns (ops: seq<Op>, moves: seq<Move>)
    ensures var db := Run(EMPTY, ops);
      RunFrom(Idle(clock, db), moves).db == db && !PrefixSent(RunFrom(Idle(clock, db), moves))
  {
    ops := ReachableTie();
    RunKeepsInvFromEmpty(ops);
    TiesNeverRise(clock, Run(EMPTY, ops).outbox);
    moves := InversionBreaksPrefix(clock, Run(EMPTY, ops));
  }
}
