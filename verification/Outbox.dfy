/**
 The transactional outbox: messages committed with the business data, published at once by the hot path and
 again by sweeping workers until their rows are gone, over all interleavings and failures.
 */
module Outbox {
  import opened Types

  type MsgId = nat
  type WorkerId = nat

  datatype Message = Message(id: MsgId, key: Symbol, payload: nat, createdAt: int, retries: nat)

  type Table = map<MsgId, Message>

  const CHANNEL_CAPACITY: nat := 5000
  const FLUSH_SIZE: nat := 200

  /** What becomes of one publication: acknowledged, arrived without an acknowledgement, or not arrived. */
  datatype Fate = Acked | Unacked | Failed

  // Statements on the outbox table

  /** Old enough and held by nobody. */
  predicate Due(t: Table, held: set<MsgId>, threshold: int, id: MsgId) {
    id in t && id !in held && t[id].createdAt <= threshold
  }

  /**
   A batch FOR UPDATE SKIP LOCKED may return: due rows, oldest first. What is left out is no older than what is
   taken, and only a full batch leaves anything out.
   */
  ghost predicate Fetchable(t: Table, held: set<MsgId>, ids: seq<MsgId>, batchSize: nat, threshold: int) {
    && |ids| <= batchSize
    && (forall id :: id in ids ==> Due(t, held, threshold, id))
    && (forall id :: Due(t, held, threshold, id) && id !in ids ==>
          |ids| == batchSize && forall x :: x in ids && x in t ==> t[x].createdAt <= t[id].createdAt)
    && (forall i, j | 0 <= i < j < |ids| ::
          ids[i] != ids[j] && ids[i] in t && ids[j] in t && t[ids[i]].createdAt <= t[ids[j]].createdAt)
  }

  function Elements(ids: seq<MsgId>): set<MsgId> {
    set id | id in ids
  }

  function Retried(t: Table, id: MsgId): Table {
    if id in t then t[id := t[id].(retries := t[id].retries + 1)] else t
  }

  function RetriedAll(t: Table, ids: seq<MsgId>): Table
    decreases ids
  {
    if ids == [] then t else Retried(RetriedAll(t, ids[..|ids| - 1]), ids[|ids| - 1])
  }

  // What a sweep makes of its batch

  function Reached(ids: seq<MsgId>, fate: MsgId -> Fate): seq<MsgId> {
    if ids == [] then []
    else Reached(ids[..|ids| - 1], fate) + if fate(ids[|ids| - 1]).Failed? then [] else [ids[|ids| - 1]]
  }

  function Successful(ids: seq<MsgId>, fate: MsgId -> Fate): seq<MsgId> {
    if ids == [] then []
    else Successful(ids[..|ids| - 1], fate) + if fate(ids[|ids| - 1]).Acked? then [ids[|ids| - 1]] else []
  }

  function Unsuccessful(ids: seq<MsgId>, fate: MsgId -> Fate): seq<MsgId> {
    if ids == [] then []
    else Unsuccessful(ids[..|ids| - 1], fate) + if fate(ids[|ids| - 1]).Acked? then [] else [ids[|ids| - 1]]
  }

  lemma {:induction false} OneMore(ids: seq<MsgId>, fate: MsgId -> Fate, k: nat)
    requires k < |ids|
    ensures Reached(ids[..k + 1], fate) == Reached(ids[..k], fate) + Arrived(ids[k], fate(ids[k]))
    ensures Successful(ids[..k + 1], fate) ==
            if fate(ids[k]).Acked? then Successful(ids[..k], fate) + [ids[k]] else Successful(ids[..k], fate)
    ensures Unsuccessful(ids[..k + 1], fate) ==
            if fate(ids[k]).Acked? then Unsuccessful(ids[..k], fate) else Unsuccessful(ids[..k], fate) + [ids[k]]
  {
    assert ids[..k + 1][..k] == ids[..k];
    var none: seq<MsgId> := [];
    assert Successful(ids[..k], fate) + none == Successful(ids[..k], fate);
    assert Unsuccessful(ids[..k], fate) + none == Unsuccessful(ids[..k], fate);
  }

  lemma {:induction false} RetriedMore(t: Table, ids: seq<MsgId>, id: MsgId)
    ensures RetriedAll(t, ids + [id]) == Retried(RetriedAll(t, ids), id)
  {
    assert (ids + [id])[..|ids|] == ids;
  }

  function Arrived(id: MsgId, fate: Fate): seq<MsgId> {
    if fate.Failed? then [] else [id]
  }

  /** The log and the table once these messages have been sent. */
  ghost predicate Sent(ids: seq<MsgId>, fate: MsgId -> Fate, log: seq<MsgId>, t: Table, after: seq<MsgId>, now: Table) {
    after == log + Reached(ids, fate) && now == RetriedAll(t, Unsuccessful(ids, fate))
  }

  lemma {:induction false} SentMore(ids: seq<MsgId>, fate: MsgId -> Fate, k: nat, log: seq<MsgId>, t: Table,
                                    after: seq<MsgId>, now: Table)
    requires k < |ids| && Sent(ids[..k], fate, log, t, after, now)
    ensures Sent(ids[..k + 1], fate, log, t, after + Arrived(ids[k], fate(ids[k])),
                 if fate(ids[k]).Acked? then now else Retried(now, ids[k]))
    ensures Successful(ids[..k + 1], fate) ==
            if fate(ids[k]).Acked? then Successful(ids[..k], fate) + [ids[k]] else Successful(ids[..k], fate)
  {
    OneMore(ids, fate, k);
    RetriedMore(t, Unsuccessful(ids[..k], fate), ids[k]);
    Regrouped(log, Reached(ids[..k], fate), Arrived(ids[k], fate(ids[k])));
  }

  lemma {:induction false} Regrouped(a: seq<MsgId>, b: seq<MsgId>, c: seq<MsgId>)
    ensures a + b + c == a + (b + c)
  {
  }

  /** The failure of this message cannot be counted either, which ends the sweep. */
  predicate Breaks(id: MsgId, fate: MsgId -> Fate, countOk: MsgId -> bool) {
    !fate(id).Acked? && !countOk(id)
  }

  /** A sweep gets through its batch, or ends right after the first message that breaks it. */
  ghost predicate EndsAfter(ids: seq<MsgId>, sent: nat, fate: MsgId -> Fate, countOk: MsgId -> bool) {
    && sent <= |ids|
    && (forall i | 0 <= i < sent - 1 :: !Breaks(ids[i], fate, countOk))
    && (sent < |ids| ==> sent > 0 && Breaks(ids[sent - 1], fate, countOk))
  }

  ghost predicate Broken(ids: seq<MsgId>, sent: nat, fate: MsgId -> Fate, countOk: MsgId -> bool) {
    0 < sent <= |ids| && Breaks(ids[sent - 1], fate, countOk)
  }

  class OutboxRepository {
    var table: Table

    constructor ()
      ensures table == map[]
    {
      table := map[];
    }

    method Insert(msg: Message)
      requires msg.id !in table
      modifies this
      ensures table == old(table)[msg.id := msg]
    {
      table := table[msg.id := msg];
    }

    method IncrementRetry(id: MsgId)
      modifies this
      ensures table == Retried(old(table), id)
    {
      if id in table {
        table := table[id := table[id].(retries := table[id].retries + 1)];
      }
    }

    method MarkPublishedBatch(ids: seq<MsgId>)
      modifies this
      ensures table == old(table) - Elements(ids)
    {
      for i := 0 to |ids|
        invariant table == old(table) - Elements(ids[..i])
      {
        assert ids[..i + 1] == ids[..i] + [ids[i]];
        table := table - {ids[i]};
      }
      assert ids[..|ids|] == ids;
    }

    /** Oldest rows first; what the sweep has locked nobody else gets. */
    method FetchPending(batchSize: nat, threshold: int, held: set<MsgId>) returns (ids: seq<MsgId>)
      ensures Fetchable(table, held, ids, batchSize, threshold)
      ensures forall id :: id in ids ==> id in table && id !in held && table[id].createdAt <= threshold
      ensures forall id :: id in table && id !in held && table[id].createdAt <= threshold && id !in ids ==>
                |ids| == batchSize && forall x :: x in ids && x in table ==> table[x].createdAt <= table[id].createdAt
    {
      ids := [];
      var todo := set id | id in table && Due(table, held, threshold, id);
      while todo != {} && |ids| < batchSize
        invariant |ids| <= batchSize
        invariant forall id :: Due(table, held, threshold, id) <==> id in ids || id in todo
        invariant forall id :: id in todo ==> id !in ids
        invariant forall i, j | 0 <= i < j < |ids| :: ids[i] != ids[j] && Ordered(ids[i], ids[j])
        invariant forall id, x :: id in todo && x in ids ==> Ordered(x, id)
        decreases |todo|
      {
        var id := Oldest(todo);
        ids := ids + [id];
        todo := todo - {id};
      }
    }

    predicate Ordered(x: MsgId, y: MsgId)
      reads this
    {
      x in table && y in table && table[x].createdAt <= table[y].createdAt
    }

    method Oldest(todo: set<MsgId>) returns (id: MsgId)
      requires todo != {} && todo <= table.Keys
      ensures id in todo && forall x :: x in todo ==> table[id].createdAt <= table[x].createdAt
    {
      id :| id in todo;
      var rest := todo - {id};
      while rest != {}
        invariant rest <= todo && id in todo
        invariant forall x :: x in todo && x !in rest ==> table[id].createdAt <= table[x].createdAt
        decreases |rest|
      {
        var x :| x in rest;
        if table[x].createdAt < table[id].createdAt {
          id := x;
        }
        rest := rest - {x};
      }
    }
  }

  class Publisher {
    var log: seq<MsgId>

    constructor ()
      ensures log == []
    {
      log := [];
    }

    method PublishRaw(id: MsgId, fate: MsgId -> Fate) returns (ok: bool)
      modifies this
      ensures ok == fate(id).Acked?
      ensures log == old(log) + if fate(id).Failed? then [] else [id]
    {
      if !fate(id).Failed? {
        log := log + [id];
      }
      ok := fate(id).Acked?;
    }
  }

  class Worker {
    const repo: OutboxRepository
    const publisher: Publisher
    const batchSize: nat

    constructor (repo: OutboxRepository, publisher: Publisher, batchSize: nat)
      ensures this.repo == repo && this.publisher == publisher && this.batchSize == batchSize
    {
      this.repo, this.publisher, this.batchSize := repo, publisher, batchSize;
    }

    /** Publish one message; a failure is counted in its row, unless that fails too. */
    method PublishOne(id: MsgId, fate: MsgId -> Fate, countOk: MsgId -> bool) returns (published: bool, ok: bool)
      modifies repo, publisher
      ensures published == fate(id).Acked? && ok == !Breaks(id, fate, countOk)
      ensures publisher.log == old(publisher.log) + Arrived(id, fate(id))
      ensures repo.table == if published || !ok then old(repo.table) else Retried(old(repo.table), id)
    {
      published := publisher.PublishRaw(id, fate);
      ok := published || countOk(id);
      if !published && ok {
        repo.IncrementRetry(id);
      }
    }

    /** Publish a batch; a failed message does not stop the others as long as it can be counted. */
    method PublishBatch(msgs: seq<MsgId>, fate: MsgId -> Fate, countOk: MsgId -> bool)
        returns (successfulIDs: seq<MsgId>, ok: bool, ghost sent: nat)
      modifies repo, publisher
      ensures EndsAfter(msgs, sent, fate, countOk) && ok == !Broken(msgs, sent, fate, countOk)
      ensures publisher.log == old(publisher.log) + Reached(msgs[..sent], fate)
      ensures ok ==> sent == |msgs| && successfulIDs == Successful(msgs, fate)
                     && repo.table == RetriedAll(old(repo.table), Unsuccessful(msgs, fate))
    {
      successfulIDs, ok, sent := [], true, 0;
      for i := 0 to |msgs|
        invariant ok && sent == i && successfulIDs == Successful(msgs[..i], fate)
        invariant forall k | 0 <= k < i :: !Breaks(msgs[k], fate, countOk)
        invariant Sent(msgs[..i], fate, old(publisher.log), old(repo.table), publisher.log, repo.table)
      {
        SentMore(msgs, fate, i, old(publisher.log), old(repo.table), publisher.log, repo.table);
        sent := i + 1;
        var published: bool;
        published, ok := PublishOne(msgs[i], fate, countOk);
        if !ok {
          return;
        }
        if !published {
          continue;
        }
        successfulIDs := successfulIDs + [msgs[i]];
      }
      assert msgs[..|msgs|] == msgs;
    }

    /**
     One sweep: publish the batch, count the failures, delete the successes. `countOk` and `markOk` are the fates
     of the statements that count and delete; when one fails, the table is rolled back, but what was sent is sent.
     */
    method Process(threshold: int, held: set<MsgId>, fate: MsgId -> Fate, countOk: MsgId -> bool, markOk: bool)
        returns (ghost ids: seq<MsgId>, ghost sent: nat)
      modifies repo, publisher
      ensures Fetchable(old(repo.table), held, ids, batchSize, threshold) && EndsAfter(ids, sent, fate, countOk)
      ensures publisher.log == old(publisher.log) + Reached(ids[..sent], fate)
      ensures repo.table == if !Broken(ids, sent, fate, countOk) && (markOk || Successful(ids, fate) == [])
                            then RetriedAll(old(repo.table), Unsuccessful(ids, fate)) - Elements(Successful(ids, fate))
                            else old(repo.table)
    {
      var saved := repo.table;
      var msgs := repo.FetchPending(batchSize, threshold, held);
      ids := msgs;
      var successfulIDs, ok;
      successfulIDs, ok, sent := PublishBatch(msgs, fate, countOk);
      if !ok {
        repo.table := saved;
        return;
      }
      if |successfulIDs| == 0 {
        return;
      }
      if markOk {
        repo.MarkPublishedBatch(successfulIDs);
      } else {
        repo.table := saved;
      }
    }
  }

  /** The order service's end: ids published by the hot path wait in a bounded channel to be deleted in batches. */
  class HotPath {
    const repo: OutboxRepository
    var channel: seq<MsgId>
    var batch: seq<MsgId>

    constructor (repo: OutboxRepository)
      ensures this.repo == repo && channel == [] && batch == []
    {
      this.repo := repo;
      channel, batch := [], [];
    }

    /** A full channel drops the id; a sweep will find the row. */
    method Offer(id: MsgId)
      modifies this
      ensures batch == old(batch)
      ensures channel == if |old(channel)| < CHANNEL_CAPACITY then old(channel) + [id] else old(channel)
    {
      if |channel| < CHANNEL_CAPACITY {
        channel := channel + [id];
      }
    }

    /** The batch is forgotten whether or not its delete succeeds. */
    method FlushBatch(deleteOk: bool)
      modifies this, repo
      ensures channel == old(channel) && batch == []
      ensures repo.table == if deleteOk then old(repo.table) - Elements(old(batch)) else old(repo.table)
    {
      if |batch| == 0 {
        return;
      }
      if deleteOk {
        repo.MarkPublishedBatch(batch);
      }
      batch := [];
    }

    /** One receive of the background loop. */
    method Receive(deleteOk: bool)
      requires channel != []
      modifies this, repo
      ensures channel == old(channel)[1..]
      ensures var b := old(batch) + [old(channel)[0]];
              if |b| < FLUSH_SIZE then batch == b && repo.table == old(repo.table)
              else batch == [] && repo.table == if deleteOk then old(repo.table) - Elements(b) else old(repo.table)
    {
      batch := batch + [channel[0]];
      channel := channel[1..];
      if |batch| >= FLUSH_SIZE {
        FlushBatch(deleteOk);
      }
    }
  }

  // What a sweep leaves in the table

  ghost predicate NoRepeats(ids: seq<MsgId>) {
    forall i, j | 0 <= i < j < |ids| :: ids[i] != ids[j]
  }

  lemma {:induction false} RetriedOnce(t: Table, ids: seq<MsgId>, id: MsgId)
    requires NoRepeats(ids) && id in t
    ensures id in RetriedAll(t, ids)
    ensures RetriedAll(t, ids)[id] == t[id].(retries := t[id].retries + if id in ids then 1 else 0)
    decreases ids
  {
    if ids != [] {
      var init, last := ids[..|ids| - 1], ids[|ids| - 1];
      RetriedOnce(t, init, id);
      assert ids == init + [last];
      if last == id {
        assert id !in init;
      }
    }
  }

  lemma {:induction false} Sorted(ids: seq<MsgId>, fate: MsgId -> Fate, id: MsgId)
    requires NoRepeats(ids)
    ensures id in Successful(ids, fate) <==> id in ids && fate(id).Acked?
    ensures id in Unsuccessful(ids, fate) <==> id in ids && !fate(id).Acked?
    ensures NoRepeats(Unsuccessful(ids, fate))
    decreases ids
  {
    if ids != [] {
      var init, last := ids[..|ids| - 1], ids[|ids| - 1];
      assert ids == init + [last] && NoRepeats(init);
      Sorted(init, fate, id);
      Sorted(init, fate, last);
      assert last !in init;
    }
  }

  /**
   A finished sweep keeps of its batch exactly the messages that were not acknowledged, each counted once more, and
   leaves all other rows alone.
   */
  lemma {:induction false} FailuresCounted(t: Table, ids: seq<MsgId>, fate: MsgId -> Fate, id: MsgId)
    requires NoRepeats(ids) && id in t
    ensures var after := RetriedAll(t, Unsuccessful(ids, fate)) - Elements(Successful(ids, fate));
            && (id in after <==> id !in ids || !fate(id).Acked?)
            && (id in after ==> after[id] == t[id].(retries := t[id].retries + if id in ids then 1 else 0))
  {
    Sorted(ids, fate, id);
    RetriedOnce(t, Unsuccessful(ids, fate), id);
  }

  // All processes together

  /** A sweep in progress: its locked batch, how far it is, and what it will delete or count. */
  datatype Sweep = Sweep(ids: seq<MsgId>, next: nat, successful: seq<MsgId>, unsuccessful: seq<MsgId>)

  /**
   `committed` is everything ever written with a business transaction, `hot` the publications the hot path has
   under way, `sent` those acknowledged but not yet offered to the channel.
   */
  datatype State = State(committed: set<MsgId>, table: Table, log: seq<MsgId>, hot: set<MsgId>, sent: set<MsgId>,
                         channel: seq<MsgId>, batch: seq<MsgId>, sweeps: map<WorkerId, Sweep>)

  const START: State := State({}, map[], [], {}, {}, [], [], map[])

  datatype Action =
    | Commit(msgs: map<MsgId, Message>)
    | HotPublish(id: MsgId, fate: Fate)
    | Offer(id: MsgId)
    | Receive
    | Flush(ok: bool)
    | Fetch(w: WorkerId, ids: seq<MsgId>, batchSize: nat, threshold: int)
    | Publish(w: WorkerId, fate: Fate)
    | Finish(w: WorkerId)
    | Rollback(w: WorkerId)
    | Restart

  ghost predicate Held(s: State, id: MsgId) {
    exists w :: w in s.sweeps && id in s.sweeps[w].ids
  }

  function HeldBy(s: State): set<MsgId> {
    set w, id | w in s.sweeps && id in s.sweeps[w].ids :: id
  }

  /** A delete waits for the rows other transactions hold; a failed one gives up. */
  ghost predicate Enabled(s: State, a: Action) {
    match a
    case Commit(msgs) => forall id :: id in msgs ==> id !in s.committed
    case HotPublish(id, _) => id in s.hot
    case Offer(id) => id in s.sent
    case Receive => s.channel != [] && |s.batch| < FLUSH_SIZE
    case Flush(ok) => ok ==> forall id :: id in s.batch ==> !Held(s, id)
    case Fetch(w, ids, batchSize, threshold) =>
      w !in s.sweeps && Fetchable(s.table, HeldBy(s), ids, batchSize, threshold)
    case Publish(w, _) => w in s.sweeps && s.sweeps[w].next < |s.sweeps[w].ids|
    case Finish(w) => w in s.sweeps && s.sweeps[w].next == |s.sweeps[w].ids|
    case Rollback(w) => w in s.sweeps
    case Restart => true
  }

  /** A sweep after its next message. */
  function Advanced(p: Sweep, fate: Fate): Sweep
    requires p.next < |p.ids|
  {
    var id := p.ids[p.next];
    if fate.Acked? then p.(next := p.next + 1, successful := p.successful + [id])
    else p.(next := p.next + 1, unsuccessful := p.unsuccessful + [id])
  }

  ghost function Step(s: State, a: Action): State
    requires Enabled(s, a)
  {
    match a
    case Commit(msgs) => s.(committed := s.committed + msgs.Keys, table := s.table + msgs, hot := s.hot + msgs.Keys)
    case HotPublish(id, fate) =>
      s.(hot := s.hot - {id}, log := s.log + Arrived(id, fate), sent := if fate.Acked? then s.sent + {id} else s.sent)
    case Offer(id) =>
      s.(sent := s.sent - {id}, channel := if |s.channel| < CHANNEL_CAPACITY then s.channel + [id] else s.channel)
    case Receive => s.(channel := s.channel[1..], batch := s.batch + [s.channel[0]])
    case Flush(ok) => s.(batch := [], table := if ok then s.table - Elements(s.batch) else s.table)
    case Fetch(w, ids, _, _) => s.(sweeps := s.sweeps[w := Sweep(ids, 0, [], [])])
    case Publish(w, fate) =>
      var p := s.sweeps[w];
      s.(log := s.log + Arrived(p.ids[p.next], fate), sweeps := s.sweeps[w := Advanced(p, fate)])
    case Finish(w) =>
      s.(table := RetriedAll(s.table, s.sweeps[w].unsuccessful) - Elements(s.sweeps[w].successful),
         sweeps := s.sweeps - {w})
    case Rollback(w) => s.(sweeps := s.sweeps - {w})
    case Restart => s.(hot := {}, sent := {}, channel := [], batch := [])
  }

  ghost predicate Legal(s: State, run: seq<Action>)
    decreases run
  {
    run == [] || (Enabled(s, run[0]) && Legal(Step(s, run[0]), run[1..]))
  }

  ghost function End(s: State, run: seq<Action>): State
    requires Legal(s, run)
    decreases run
  {
    if run == [] then s else End(Step(s, run[0]), run[1..])
  }

  /** Everything on its way to be deleted has arrived in the log. */
  ghost predicate Published(s: State) {
    && (forall id :: id in s.sent || id in s.channel || id in s.batch ==> id in s.log)
    && (forall w, id :: w in s.sweeps && id in s.sweeps[w].successful ==> id in s.log)
  }

  /** Sweeps hold existing rows, and no row twice. */
  ghost predicate Disjoint(s: State) {
    && (forall w, id :: w in s.sweeps && id in s.sweeps[w].ids ==> id in s.table)
    && (forall v, w, id :: v in s.sweeps && w in s.sweeps && id in s.sweeps[v].ids && id in s.sweeps[w].ids ==> v == w)
  }

  ghost predicate SweepOk(p: Sweep) {
    && p.next <= |p.ids| && (forall i, j | 0 <= i < j < |p.ids| :: p.ids[i] != p.ids[j])
    && (forall id :: id in p.successful ==> id in p.ids[..p.next])
  }

  ghost predicate Inv(s: State) {
    && (forall id :: id in s.committed ==> id in s.table || id in s.log)
    && s.table.Keys <= s.committed
    && Published(s) && Disjoint(s)
    && (forall w :: w in s.sweeps ==> SweepOk(s.sweeps[w]))
    && |s.channel| <= CHANNEL_CAPACITY && |s.batch| <= FLUSH_SIZE
  }

  lemma {:induction false} RetriedKeys(t: Table, ids: seq<MsgId>)
    ensures RetriedAll(t, ids).Keys == t.Keys
    decreases ids
  {
    if ids != [] {
      RetriedKeys(t, ids[..|ids| - 1]);
    }
  }

  lemma {:induction false} StepInv(s: State, a: Action)
    requires Inv(s) && Enabled(s, a)
    ensures Inv(Step(s, a))
  {
    match a
    case Publish(w, fate) => PublishInv(s, w, fate);
    case Finish(w) => FinishInv(s, w);
    case Fetch(w, ids, batchSize, threshold) => FetchInv(s, w, ids, batchSize, threshold);
    case Flush(ok) => FlushInv(s, ok);
    case _ => QueueInv(s, a);
  }

  lemma {:induction false} QueueInv(s: State, a: Action)
    requires Inv(s) && Enabled(s, a) && !a.Publish? && !a.Finish? && !a.Fetch? && !a.Flush?
    ensures Inv(Step(s, a))
  {
  }

  lemma {:induction false} FlushInv(s: State, ok: bool)
    requires Inv(s) && Enabled(s, Flush(ok))
    ensures Inv(Step(s, Flush(ok)))
  {
    assert forall w, id :: w in s.sweeps && id in s.sweeps[w].ids ==> Held(s, id);
  }

  lemma {:induction false} FetchInv(s: State, w: WorkerId, ids: seq<MsgId>, batchSize: nat, threshold: int)
    requires Inv(s) && Enabled(s, Fetch(w, ids, batchSize, threshold))
    ensures Inv(Step(s, Fetch(w, ids, batchSize, threshold)))
  {
    assert forall v, id :: v in s.sweeps && id in s.sweeps[v].ids ==> id in HeldBy(s);
  }

  lemma {:induction false} PublishInv(s: State, w: WorkerId, fate: Fate)
    requires Inv(s) && Enabled(s, Publish(w, fate))
    ensures Inv(Step(s, Publish(w, fate)))
  {
    var p := s.sweeps[w];
    assert SweepOk(p) && p.ids[..p.next + 1] == p.ids[..p.next] + [p.ids[p.next]];
  }

  lemma {:induction false} FinishInv(s: State, w: WorkerId)
    requires Inv(s) && Enabled(s, Finish(w))
    ensures Inv(Step(s, Finish(w)))
  {
    var p, next := s.sweeps[w], Step(s, Finish(w));
    RetriedKeys(s.table, p.unsuccessful);
    assert SweepOk(p) && p.ids[..p.next] == p.ids;
    forall v, id | v in next.sweeps && id in next.sweeps[v].ids ensures id in next.table {
      assert v in s.sweeps && id in s.table && id !in p.ids;
    }
  }

  lemma {:induction false} RunInv(s: State, run: seq<Action>)
    requires Inv(s) && Legal(s, run)
    ensures Inv(End(s, run))
    decreases run
  {
    if run != [] {
      StepInv(s, run[0]);
      RunInv(Step(s, run[0]), run[1..]);
    }
  }

  /** At least once: after any run, every committed message is still in the table or already in the log. */
  lemma {:induction false} NothingLost(run: seq<Action>, id: MsgId)
    requires Legal(START, run) && id in End(START, run).committed
    ensures id in End(START, run).table || id in End(START, run).log
  {
    RunInv(START, run);
  }

  /** A row disappears only after its message has arrived in the log, and the log never forgets. */
  lemma {:induction false} DeletedIsPublished(s: State, a: Action, id: MsgId)
    requires Inv(s) && Enabled(s, a)
    ensures id in s.table && id !in Step(s, a).table ==> id in s.log
    ensures id in s.log ==> id in Step(s, a).log
    ensures id in s.committed ==> id in Step(s, a).committed
  {
    if a.Finish? {
      RetriedKeys(s.table, s.sweeps[a.w].unsuccessful);
    }
  }

  /** Concurrent sweeps never work on the same message. */
  lemma {:induction false} BatchesDisjoint(run: seq<Action>, v: WorkerId, w: WorkerId, id: MsgId)
    requires Legal(START, run)
    requires var s := End(START, run); v in s.sweeps && w in s.sweeps && id in s.sweeps[v].ids && id in s.sweeps[w].ids
    ensures v == w
  {
    RunInv(START, run);
  }

  // Sweeps alone deliver exactly once

  /** Only sweeps publish, every arrival is acknowledged, and no sweep is rolled back. */
  predicate Clean(a: Action) {
    !a.HotPublish? && !a.Rollback? && (a.Publish? ==> !a.fate.Unacked?)
  }

  ghost predicate Once(s: State) {
    && (forall i, j | 0 <= i < j < |s.log| :: s.log[i] != s.log[j])
    && (forall id :: id in s.log ==> id in s.committed)
    && (forall id :: id in s.log && id in s.table ==> exists w :: w in s.sweeps && id in s.sweeps[w].successful)
  }

  lemma {:induction false} NotYetLogged(s: State, w: WorkerId)
    requires Inv(s) && Once(s) && w in s.sweeps && s.sweeps[w].next < |s.sweeps[w].ids|
    ensures s.sweeps[w].ids[s.sweeps[w].next] !in s.log
  {
    var id := s.sweeps[w].ids[s.sweeps[w].next];
    assert id in s.sweeps[w].ids && id in s.table;
    forall v | v in s.sweeps ensures id !in s.sweeps[v].successful {
      assert SweepOk(s.sweeps[v]);
    }
  }

  lemma {:induction false} CleanPublish(s: State, w: WorkerId, fate: Fate)
    requires Inv(s) && Once(s) && Enabled(s, Publish(w, fate)) && !fate.Unacked?
    ensures Once(Step(s, Publish(w, fate)))
  {
    var p, next := s.sweeps[w], Step(s, Publish(w, fate));
    var id := p.ids[p.next];
    assert SweepOk(p) && id in p.ids && id in s.table;
    NotYetLogged(s, w);
    forall x | x in next.log && x in next.table ensures exists v :: v in next.sweeps && x in next.sweeps[v].successful {
      if x in s.log {
        var v :| v in s.sweeps && x in s.sweeps[v].successful;
        assert v in next.sweeps && x in next.sweeps[v].successful;
      } else {
        assert x == id && x in next.sweeps[w].successful;
      }
    }
  }

  lemma {:induction false} CleanOther(s: State, a: Action)
    requires Inv(s) && Once(s) && Enabled(s, a) && Clean(a) && !a.Publish?
    ensures Once(Step(s, a))
  {
    var next := Step(s, a);
    if a.Finish? {
      RetriedKeys(s.table, s.sweeps[a.w].unsuccessful);
    }
    forall x | x in next.log && x in next.table ensures exists v :: v in next.sweeps && x in next.sweeps[v].successful {
      assert x in s.log && x in s.table;
      var v :| v in s.sweeps && x in s.sweeps[v].successful;
      assert v in next.sweeps && x in next.sweeps[v].successful;
    }
  }

  lemma {:induction false} CleanRun(s: State, run: seq<Action>)
    requires Inv(s) && Once(s) && Legal(s, run) && forall a :: a in run ==> Clean(a)
    ensures Once(End(s, run))
    decreases run
  {
    if run != [] {
      assert run[0] in run;
      StepInv(s, run[0]);
      if run[0].Publish? {
        CleanPublish(s, run[0].w, run[0].fate);
      } else {
        CleanOther(s, run[0]);
      }
      CleanRun(Step(s, run[0]), run[1..]);
    }
  }

  /** Without the hot path, lost acknowledgements and rollbacks, concurrent sweeps publish each message at most once. */
  lemma {:induction false} SweptOnce(run: seq<Action>)
    requires Legal(START, run) && forall a :: a in run ==> Clean(a)
    ensures var log := End(START, run).log; forall i, j | 0 <= i < j < |log| :: log[i] != log[j]
  {
    CleanRun(START, run);
  }

  // A sweep of the code is a run of these steps

  function Publishing(w: WorkerId, ids: seq<MsgId>, fate: MsgId -> Fate): seq<Action> {
    if ids == [] then [] else [Publish(w, fate(ids[0]))] + Publishing(w, ids[1..], fate)
  }

  /** The state after a sweep has gone through the first `k` messages of its batch. */
  function Swept(s: State, w: WorkerId, ids: seq<MsgId>, fate: MsgId -> Fate, k: nat): State
    requires k <= |ids|
  {
    s.(log := s.log + Reached(ids[..k], fate), sweeps := s.sweeps[w := SweepAt(ids, fate, k)])
  }

  function SweepAt(ids: seq<MsgId>, fate: MsgId -> Fate, k: nat): Sweep
    requires k <= |ids|
  {
    Sweep(ids, k, Successful(ids[..k], fate), Unsuccessful(ids[..k], fate))
  }

  lemma {:induction false} SweptNext(s: State, w: WorkerId, ids: seq<MsgId>, fate: MsgId -> Fate, k: nat)
    requires k < |ids|
    ensures Enabled(Swept(s, w, ids, fate, k), Publish(w, fate(ids[k])))
    ensures Step(Swept(s, w, ids, fate, k), Publish(w, fate(ids[k]))) == Swept(s, w, ids, fate, k + 1)
  {
    OneMore(ids, fate, k);
    assert Advanced(SweepAt(ids, fate, k), fate(ids[k])) == SweepAt(ids, fate, k + 1);
    Regrouped(s.log, Reached(ids[..k], fate), Arrived(ids[k], fate(ids[k])));
  }

  lemma {:induction false} PublishingRun(s: State, w: WorkerId, ids: seq<MsgId>, fate: MsgId -> Fate, k: nat, n: nat)
    requires k <= n <= |ids|
    ensures Legal(Swept(s, w, ids, fate, k), Publishing(w, ids[k..n], fate))
    ensures End(Swept(s, w, ids, fate, k), Publishing(w, ids[k..n], fate)) == Swept(s, w, ids, fate, n)
    decreases n - k
  {
    if k < n {
      SweptNext(s, w, ids, fate, k);
      PublishingRun(s, w, ids, fate, k + 1, n);
      assert ids[k..n][1..] == ids[k + 1..n];
      var run := Publishing(w, ids[k..n], fate);
      assert run[0] == Publish(w, fate(ids[k])) && run[1..] == Publishing(w, ids[k + 1..n], fate);
    }
  }

  /**
   Fetching a batch, publishing it message by message and finishing leave the table and the log as one call of
   the worker's process does; rolling back on the way leaves them as a call does that breaks there.
   */
  lemma {:induction false} ProcessIsSweep(s: State, w: WorkerId, ids: seq<MsgId>, fate: MsgId -> Fate, batchSize: nat,
                                          threshold: int, sent: nat)
    requires Enabled(s, Fetch(w, ids, batchSize, threshold)) && sent <= |ids|
    ensures var fetched := Step(s, Fetch(w, ids, batchSize, threshold));
            && Legal(fetched, Publishing(w, ids[..sent], fate))
            && var done := End(fetched, Publishing(w, ids[..sent], fate));
               && done.log == s.log + Reached(ids[..sent], fate)
               && Enabled(done, Rollback(w)) && Step(done, Rollback(w)) == s.(log := done.log)
               && (sent == |ids| ==>
                     && Enabled(done, Finish(w))
                     && Step(done, Finish(w)).table ==
                        RetriedAll(s.table, Unsuccessful(ids, fate)) - Elements(Successful(ids, fate))
                     && Step(done, Finish(w)).sweeps == s.sweeps)
  {
    assert ids[..0] == [] && ids[0..sent] == ids[..sent];
    assert s.log + [] == s.log;
    assert Step(s, Fetch(w, ids, batchSize, threshold)) == Swept(s, w, ids, fate, 0);
    PublishingRun(s, w, ids, fate, 0, sent);
    SweptFinish(s, w, ids, fate, sent);
  }

  lemma {:induction false} SweptFinish(s: State, w: WorkerId, ids: seq<MsgId>, fate: MsgId -> Fate, sent: nat)
    requires w !in s.sweeps && sent <= |ids|
    ensures var done := Swept(s, w, ids, fate, sent);
            && done.log == s.log + Reached(ids[..sent], fate)
            && Enabled(done, Rollback(w)) && Step(done, Rollback(w)) == s.(log := done.log)
            && (sent == |ids| ==>
                  && Enabled(done, Finish(w)) && Step(done, Finish(w)).sweeps == s.sweeps
                  && Step(done, Finish(w)).table ==
                     RetriedAll(s.table, Unsuccessful(ids, fate)) - Elements(Successful(ids, fate)))
  {
    assert ids[..|ids|] == ids;
    assert Swept(s, w, ids, fate, sent).sweeps - {w} == s.sweeps;
  }
}
