/**
 Row locks of concurrent database transactions: requests queue behind conflicting holders and
 earlier requests. Transactions that ask in a fixed order never wait in a circle.
 */
module RowLocks {
  import opened Types

  datatype Resource = FenceRow | OrderRow(id: OrderId) | AccountRow(key: Key)

  /** The global order: the leader row, then order rows by id, then account rows by user and currency. */
  predicate Less(a: Resource, b: Resource) {
    match (a, b)
    case (FenceRow, FenceRow) => false
    case (FenceRow, _) => true
    case (OrderRow(i), OrderRow(j)) => i < j
    case (OrderRow(_), AccountRow(_)) => true
    case (AccountRow(k), AccountRow(l)) => KeyLess(k, l)
    case _ => false
  }

  ghost predicate Ascending(s: seq<Resource>) {
    forall i, j | 0 <= i < j < |s| :: Less(s[i], s[j])
  }

  /** Locking a row again that is already locked takes nothing new. */
  function Acquire(held: seq<Resource>, r: Resource): seq<Resource> {
    if r in held then held else held + [r]
  }

  datatype Mode = Shared | Exclusive

  datatype Request = Request(row: Resource, mode: Mode)

  predicate Conflict(a: Request, b: Request) {
    a.row == b.row && (a.mode.Exclusive? || b.mode.Exclusive?)
  }

  type TxnId = nat

  /** The first `next` requests of the plan are granted; `ticket` is set while the following one is queued. */
  datatype Txn = Txn(plan: seq<Request>, next: nat, ticket: Option<nat>)

  datatype System = System(txns: map<TxnId, Txn>, clock: nat)

  ghost predicate OrderedPlan(plan: seq<Request>) {
    forall i, j | 0 <= i < j < |plan| :: Less(plan[i].row, plan[j].row)
  }

  ghost predicate Holds(t: Txn, r: Request) {
    exists i :: 0 <= i < t.next && i < |t.plan| && Conflict(t.plan[i], r)
  }

  predicate Queued(t: Txn) {
    t.ticket.Some? && t.next < |t.plan|
  }

  /** `a` cannot go on before `b` lets it: `b` holds a conflicting lock or queued for one earlier. */
  ghost predicate WaitsFor(s: System, a: TxnId, b: TxnId) {
    && a in s.txns && b in s.txns && a != b && Queued(s.txns[a])
    && var wanted := s.txns[a].plan[s.txns[a].next];
       || Holds(s.txns[b], wanted)
       || (Queued(s.txns[b]) && Conflict(s.txns[b].plan[s.txns[b].next], wanted)
           && s.txns[b].ticket.value < s.txns[a].ticket.value)
  }

  datatype Action =
    | Begin(id: TxnId, plan: seq<Request>)
    | Ask(id: TxnId)
    | Grant(id: TxnId)
    | Finish(id: TxnId)  // commit or abort, at any point; all its locks are released

  ghost predicate Enabled(s: System, a: Action) {
    match a
    case Begin(id, plan) => id !in s.txns && OrderedPlan(plan)
    case Ask(id) => id in s.txns && s.txns[id].ticket.None? && s.txns[id].next < |s.txns[id].plan|
    case Grant(id) => id in s.txns && Queued(s.txns[id]) && forall b :: b in s.txns ==> !WaitsFor(s, id, b)
    case Finish(id) => id in s.txns
  }

  function Step(s: System, a: Action): System {
    match a
    case Begin(id, plan) => s.(txns := s.txns[id := Txn(plan, 0, None)])
    case Ask(id) =>
      if id in s.txns then System(s.txns[id := s.txns[id].(ticket := Some(s.clock))], s.clock + 1) else s
    case Grant(id) =>
      if id in s.txns then s.(txns := s.txns[id := s.txns[id].(next := s.txns[id].next + 1, ticket := None)]) else s
    case Finish(id) => s.(txns := s.txns - {id})
  }

  /** The state after a run of actions, each taken when it was enabled. */
  function After(run: seq<Action>): System {
    if run == [] then System(map[], 0) else Step(After(run[..|run| - 1]), run[|run| - 1])
  }

  ghost predicate Legal(run: seq<Action>) {
    run == [] || (Legal(run[..|run| - 1]) && Enabled(After(run[..|run| - 1]), run[|run| - 1]))
  }

  ghost predicate Inv(s: System) {
    && (forall id :: id in s.txns ==> s.txns[id].next <= |s.txns[id].plan| && OrderedPlan(s.txns[id].plan))
    && (forall id :: id in s.txns && s.txns[id].ticket.Some? ==> s.txns[id].ticket.value < s.clock)
  }

  lemma {:induction false} StepInv(s: System, a: Action)
    requires Inv(s) && Enabled(s, a)
    ensures Inv(Step(s, a))
  {
  }

  lemma {:induction false} ReachableInv(run: seq<Action>)
    requires Legal(run)
    ensures Inv(After(run))
  {
    if run != [] {
      ReachableInv(run[..|run| - 1]);
      StepInv(After(run[..|run| - 1]), run[|run| - 1]);
    }
  }

  /** Granted locks on one row are shared, unless they are one transaction's. */
  ghost predicate Exclusion(s: System) {
    forall a, b, i, j :: a in s.txns && b in s.txns && a != b
                         && 0 <= i < s.txns[a].next && i < |s.txns[a].plan| && 0 <= j < s.txns[b].next
                         && j < |s.txns[b].plan| && s.txns[a].plan[i].row == s.txns[b].plan[j].row ==>
      s.txns[a].plan[i].mode.Shared? && s.txns[b].plan[j].mode.Shared?
  }

  lemma {:induction false} StepExclusion(s: System, a: Action)
    requires Exclusion(s) && Enabled(s, a)
    ensures Exclusion(Step(s, a))
  {
  }

  /** A row locked exclusively is locked by nobody else, in every reachable state. */
  lemma {:induction false} LocksExclude(run: seq<Action>)
    requires Legal(run)
    ensures Exclusion(After(run))
  {
    if run != [] {
      LocksExclude(run[..|run| - 1]);
      StepExclusion(After(run[..|run| - 1]), run[|run| - 1]);
    }
  }

  /** Where a queued transaction stands: later rows count more, and on one row earlier tickets do. */
  ghost predicate Beyond(s: System, a: TxnId, b: TxnId)
    requires a in s.txns && Queued(s.txns[a]) && b in s.txns && Queued(s.txns[b])
  {
    var ra, rb := s.txns[a].plan[s.txns[a].next].row, s.txns[b].plan[s.txns[b].next].row;
    Less(ra, rb) || (ra == rb && s.txns[b].ticket.value < s.txns[a].ticket.value)
  }

  /** Waiting for a transaction that itself waits leads strictly further. */
  lemma {:induction false} WaitIsBeyond(s: System, a: TxnId, b: TxnId)
    requires Inv(s) && WaitsFor(s, a, b) && Queued(s.txns[b])
    ensures Beyond(s, a, b)
  {
  }

  ghost predicate WaitPath(s: System, p: seq<TxnId>) {
    forall i | 0 <= i < |p| - 1 :: WaitsFor(s, p[i], p[i + 1])
  }

  lemma {:induction false} PathIsBeyond(s: System, p: seq<TxnId>)
    requires Inv(s) && |p| >= 2 && WaitPath(s, p)
    requires p[|p| - 1] in s.txns && Queued(s.txns[p[|p| - 1]])
    ensures WaitsFor(s, p[0], p[1]) && Beyond(s, p[0], p[|p| - 1])
    decreases |p|
  {
    assert WaitsFor(s, p[0], p[1]);
    if |p| > 2 {
      forall i | 0 <= i < |p[1..]| - 1 ensures WaitsFor(s, p[1..][i], p[1..][i + 1]) {
        assert WaitsFor(s, p[i + 1], p[i + 2]);
      }
      PathIsBeyond(s, p[1..]);
    }
    WaitIsBeyond(s, p[0], p[1]);
  }

  /** No reachable state of any number of transactions contains a circle of waits. */
  lemma {:induction false} NoWaitCycle(run: seq<Action>, p: seq<TxnId>)
    requires Legal(run) && |p| >= 2 && p[0] == p[|p| - 1]
    ensures !WaitPath(After(run), p)
  {
    var s := After(run);
    if WaitPath(s, p) {
      ReachableInv(run);
      assert WaitsFor(s, p[0], p[1]);
      PathIsBeyond(s, p);
    }
  }

  /** So in every reachable state with transactions left, one of them waits for nobody. */
  lemma {:induction false} SomeoneProceeds(run: seq<Action>)
    requires Legal(run) && After(run).txns != map[]
    ensures var s := After(run); exists a :: a in s.txns && forall b :: b in s.txns ==> !WaitsFor(s, a, b)
  {
    var s := After(run);
    ReachableInv(run);
    if forall a :: a in s.txns ==> Queued(s.txns[a]) {
      assert s.txns.Keys != {};
      var m := Furthest(s, s.txns.Keys);
      forall b | b in s.txns ensures !WaitsFor(s, m, b) {
        if WaitsFor(s, m, b) {
          WaitIsBeyond(s, m, b);
        }
      }
    } else {
      var a :| a in s.txns && !Queued(s.txns[a]);
      assert forall b :: b in s.txns ==> !WaitsFor(s, a, b);
    }
  }

  lemma {:induction false} BeyondTransitive(s: System, a: TxnId, b: TxnId, c: TxnId)
    requires a in s.txns && Queued(s.txns[a]) && b in s.txns && Queued(s.txns[b]) && c in s.txns && Queued(s.txns[c])
    requires Beyond(s, a, b) && Beyond(s, b, c)
    ensures Beyond(s, a, c)
  {
  }

  lemma {:induction false} Furthest(s: System, among: set<TxnId>) returns (m: TxnId)
    requires among != {} && among <= s.txns.Keys && forall a :: a in among ==> Queued(s.txns[a])
    ensures m in among && forall b :: b in among ==> !Beyond(s, m, b)
    decreases |among|
  {
    var a :| a in among;
    m := a;
    if among != {a} {
      assert among - {a} != {} by {
        assert among == {a} + (among - {a});
      }
      m := Furthest(s, among - {a});
      if Beyond(s, m, a) {
        forall b | b in among - {a} ensures !Beyond(s, a, b) {
          if Beyond(s, a, b) {
            BeyondTransitive(s, m, a, b);
          }
        }
        m := a;
      }
    }
  }

  /** What a transaction that takes these rows asks for: the leader row is only shared. */
  function PlanOf(rows: seq<Resource>): (plan: seq<Request>)
    ensures |plan| == |rows| && forall i | 0 <= i < |rows| :: plan[i].row == rows[i]
  {
    seq(|rows|, i requires 0 <= i < |rows| => Request(rows[i], if rows[i].FenceRow? then Shared else Exclusive))
  }

  /** A transaction whose rows are ascending may take part. */
  lemma {:induction false} AscendingIsOrdered(rows: seq<Resource>)
    ensures Ascending(rows) <==> OrderedPlan(PlanOf(rows))
  {
    if OrderedPlan(PlanOf(rows)) {
      forall i, j | 0 <= i < j < |rows| ensures Less(rows[i], rows[j]) {
        assert Less(PlanOf(rows)[i].row, PlanOf(rows)[j].row);
      }
    }
  }

  /** What an elector's statement asks for: the leader row alone, to itself. */
  function ElectionPlan(): seq<Request> {
    [Request(FenceRow, Exclusive)]
  }

  /**
   Rows are locked as the transaction methods lock them, ascending and with the leader row shared, or as the
   electors' statements do.
   */
  ghost predicate CodedPlan(plan: seq<Request>) {
    plan == ElectionPlan() || exists rows :: Ascending(rows) && plan == PlanOf(rows)
  }

  /** A run whose transactions all lock like that. */
  ghost predicate LocksAsCoded(run: seq<Action>) {
    run == [] ||
    var before, last := run[..|run| - 1], run[|run| - 1];
    && LocksAsCoded(before)
    && if last.Begin? then last.id !in After(before).txns && CodedPlan(last.plan) else Enabled(After(before), last)
  }

  lemma {:induction false} CodedIsLegal(run: seq<Action>)
    requires LocksAsCoded(run)
    ensures Legal(run)
  {
    if run != [] {
      var last := run[|run| - 1];
      CodedIsLegal(run[..|run| - 1]);
      if last.Begin? && last.plan != ElectionPlan() {
        var rows :| Ascending(rows) && last.plan == PlanOf(rows);
        AscendingIsOrdered(rows);
      }
    }
  }

  /** Transactions and elections that lock as coded never wait in a circle, and one of them waits for nobody. */
  lemma {:induction false} CodedNeverDeadlocks(run: seq<Action>, p: seq<TxnId>)
    requires LocksAsCoded(run)
    ensures |p| >= 2 && p[0] == p[|p| - 1] ==> !WaitPath(After(run), p)
    ensures var s := After(run);
            s.txns != map[] ==> exists a :: a in s.txns && forall b :: b in s.txns ==> !WaitsFor(s, a, b)
  {
    CodedIsLegal(run);
    if |p| >= 2 && p[0] == p[|p| - 1] {
      NoWaitCycle(run, p);
    }
    if After(run).txns != map[] {
      SomeoneProceeds(run);
    }
  }
}
