/** Where the rows of the orders table come from, and what that means for recovery: only the run is looked at. */
module History {
  import opened Types
  import opened Money
  import opened Settlement
  import opened OrderFlow
  import opened Placement
  import opened Recovery
  import opened Exchange
  import opened Runs
  import A = Admission
  import B = BookInvariant
  import K = Takeover

  // Prefixes of a run

  lemma {:induction false} PrefixLegal(s: State, run: seq<Action>, n: nat)
    requires Legal(s, run) && n <= |run|
    ensures Legal(s, run[..n])
    decreases run
  {
    if n > 0 {
      assert run[..n][0] == run[0] && run[..n][1..] == run[1..][..n - 1];
      PrefixLegal(Step(s, run[0]), run[1..], n - 1);
    }
  }

  /** The state after the first `n` actions. */
  ghost function Sofar(s: State, run: seq<Action>, n: nat): State
    requires Legal(s, run) && n <= |run|
  {
    PrefixLegal(s, run, n);
    End(s, run[..n])
  }

  lemma {:induction false} LastStep(s: State, run: seq<Action>)
    requires Legal(s, run) && run != []
    ensures Legal(s, run[..|run| - 1])
    ensures var before := End(s, run[..|run| - 1]);
            Enabled(before, run[|run| - 1]) && End(s, run) == Step(before, run[|run| - 1])
    decreases run
  {
    var init := run[..|run| - 1];
    PrefixLegal(s, run, |run| - 1);
    if |run| > 1 {
      assert init[0] == run[0] && init[1..] == run[1..][..|run| - 2];
      LastStep(Step(s, run[0]), run[1..]);
    }
  }

  lemma {:induction false} SofarInit(s: State, run: seq<Action>, n: nat)
    requires Legal(s, run) && n < |run|
    ensures Legal(s, run[..|run| - 1]) && Sofar(s, run, n) == Sofar(s, run[..|run| - 1], n)
  {
    PrefixLegal(s, run, |run| - 1);
    assert run[..|run| - 1][..n] == run[..n];
  }

  // Creation

  predicate Placing(a: Action) {
    a.PlaceOne? || a.PlaceMany?
  }

  /** The row has the terms of the request, rounded, and the time of its placing. */
  predicate Carries(row: Row, r: Request, id: OrderId, now: int) {
    && row.id == id && row.user == r.user && row.symbol == r.symbol && row.side == r.side && row.otype == r.otype
    && row.price == Round8(r.price) && row.qty == Round8(r.qty) && row.createdAt == now
  }

  ghost predicate AsPlaced(a: Action, row: Row) {
    match a
    case PlaceOne(r, id, now, _) => Carries(row, r, id, now)
    case PlaceMany(rs, ids, now, _) => exists k :: 0 <= k < |rs| && k < |ids| && Carries(row, rs[k], ids[k], now)
    case _ => false
  }

  /** Action `n` brings the order into the table. */
  ghost predicate Creates(s: State, run: seq<Action>, n: nat, id: OrderId)
    requires Legal(s, run)
  {
    n < |run| && id !in Sofar(s, run, n).db.orders && id in Sofar(s, run, n + 1).db.orders
  }

  lemma {:induction false} CreatesInit(s: State, run: seq<Action>, n: nat, id: OrderId)
    requires Legal(s, run) && run != [] && n < |run| - 1
    ensures Legal(s, run[..|run| - 1]) && (Creates(s, run[..|run| - 1], n, id) <==> Creates(s, run, n, id))
  {
    SofarInit(s, run, n);
    SofarInit(s, run, n + 1);
  }

  lemma {:induction false} CreatesLast(s: State, run: seq<Action>, id: OrderId)
    requires Legal(s, run) && run != []
    ensures Legal(s, run[..|run| - 1])
    ensures Creates(s, run, |run| - 1, id) <==>
            id !in End(s, run[..|run| - 1]).db.orders && id in End(s, run).db.orders
  {
    PrefixLegal(s, run, |run| - 1);
    assert run[..|run|] == run;
  }

  /** Only placing adds rows, ... */
  lemma {:induction false} NothingElseCreates(s: State, a: Action)
    requires Inv(s) && Enabled(s, a) && !Placing(a)
    ensures Step(s, a).db.orders.Keys == s.db.orders.Keys
  {
    match a
    case Consume(sym) =>
      HeadReady(s, sym);
      HeadDelivered(s, sym);
      RowsForward(s.db.orders, s.Queue(sym)[0]);
    case Redeliver(_) => RedeliverNothing(s, a);
    case Stray(_) => RedeliverNothing(s, a);
    case _ =>
  }

  /** ... and every row it adds is as asked for. */
  lemma {:induction false} PlacingCreates(s: State, a: Action, id: OrderId)
    requires Inv(s) && Enabled(s, a) && Placing(a) && id !in s.db.orders && id in Step(s, a).db.orders
    ensures AsPlaced(a, Step(s, a).db.orders[id])
  {
    match a
    case PlaceOne(r, x, now, snaps) => A.PlaceWrites(s.db, r, x, now, snaps);
    case PlaceMany(rs, ids, now, snaps) =>
      A.BatchWrites(s.db, rs, ids, now, snaps);
      var k :| 0 <= k < |ids| && ids[k] == id;
      assert Carries(Step(s, a).db.orders[id], rs[k], ids[k], now);
  }

  lemma {:induction false} StillAsPlaced(a: Action, row: Row, later: Row)
    requires AsPlaced(a, row) && Forward(row, later)
    ensures AsPlaced(a, later)
  {
    if a.PlaceMany? {
      var k :| 0 <= k < |a.rs| && k < |a.ids| && Carries(row, a.rs[k], a.ids[k], a.now);
      assert Carries(later, a.rs[k], a.ids[k], a.now);
    }
  }

  lemma {:induction false} CreatedEarlier(before: State, a: Action, next: State, origin: Action, id: OrderId)
    requires Inv(before) && Enabled(before, a) && next == Step(before, a)
    requires id in before.db.orders && AsPlaced(origin, before.db.orders[id])
    ensures id in next.db.orders && AsPlaced(origin, next.db.orders[id])
  {
    StepForward(before, a, id);
    StillAsPlaced(origin, before.db.orders[id], next.db.orders[id]);
  }

  lemma {:induction false} CreatedNow(before: State, a: Action, next: State, id: OrderId)
    requires Inv(before) && Enabled(before, a) && next == Step(before, a)
    requires id !in before.db.orders && id in next.db.orders
    ensures AsPlaced(a, next.db.orders[id])
  {
    if !Placing(a) {
      NothingElseCreates(before, a);
    }
    PlacingCreates(before, a, id);
  }

  /**
   Every order of a reachable state was brought in by one action of the run, a placing, and carries its terms and its
   time to the end.
   */
  lemma {:induction false} CreatedByPlacing(s: State, run: seq<Action>, id: OrderId) returns (n: nat)
    requires Inv(s) && Legal(s, run) && id in End(s, run).db.orders && id !in s.db.orders
    ensures Creates(s, run, n, id) && AsPlaced(run[n], End(s, run).db.orders[id])
    decreases |run|
  {
    LastStep(s, run);
    RunInv(s, run[..|run| - 1]);
    if id in End(s, run[..|run| - 1]).db.orders {
      n := CreatedByPlacing(s, run[..|run| - 1], id);
      CreatesInit(s, run, n, id);
      CreatedEarlier(End(s, run[..|run| - 1]), run[|run| - 1], End(s, run), run[n], id);
    } else {
      n := |run| - 1;
      CreatedNow(End(s, run[..|run| - 1]), run[n], End(s, run), id);
      CreatesLast(s, run, id);
    }
  }

  // Recovery from the run alone

  /** Later placings have later times. */
  ghost predicate Timely(run: seq<Action>) {
    forall m, n | 0 <= m < n < |run| && Placing(run[m]) && Placing(run[n]) :: run[m].now < run[n].now
  }

  /** Two requests that would queue at one price level. */
  predicate SameLevel(r: Request, t: Request) {
    && r.otype.Limit? && t.otype.Limit? && r.symbol == t.symbol && r.side == t.side
    && Round8(r.price) == Round8(t.price)
  }

  /** No batch has two orders for one price level: they would share their creation time. */
  ghost predicate BatchesApart(run: seq<Action>) {
    forall a :: a in run && a.PlaceMany? ==> forall k, l | 0 <= k < l < |a.rs| :: !SameLevel(a.rs[k], a.rs[l])
  }

  /** Actions `m` and `n` create two orders of one symbol, `i` and later `j` hand them to its engine. */
  ghost predicate Arrive(s: State, run: seq<Action>, i: int, j: int, m: int, n: int)
    requires Legal(s, run)
  {
    && 0 <= i < j < |run| && run[i].Match? && run[j].Match?
    && 0 <= m && 0 <= n && Creates(s, run, m, run[i].id) && Creates(s, run, n, run[j].id)
    && SymbolAt(End(s, run), run[i].id) == SymbolAt(End(s, run), run[j].id)
  }

  /** The engine of a symbol receives the orders in the sequence of their placing. */
  ghost predicate InSequence(s: State, run: seq<Action>)
    requires Legal(s, run)
  {
    forall i, j, m, n :: Arrive(s, run, i, j, m, n) ==> m <= n
  }

  function SymbolAt(s: State, id: OrderId): Symbol {
    if id in s.db.orders then s.db.orders[id].symbol else []
  }

  /** Rows of one price level. */
  predicate Rivals(a: Row, b: Row) {
    a.otype.Limit? && b.otype.Limit? && a.symbol == b.symbol && a.side == b.side && a.price == b.price
  }

  /** What the table says of two open orders of one level: the one received first was created first. */
  ghost predicate Aged(s: State) {
    forall x, y :: x in s.at && y in s.at && OpenRivals(s.db.orders, x, y) && s.at[x] < s.at[y] ==>
      s.db.orders[x].createdAt < s.db.orders[y].createdAt
  }

  predicate OpenRivals(o: Orders, x: OrderId, y: OrderId) {
    x in o && y in o && o[x].Open() && o[y].Open() && Rivals(o[x], o[y])
  }

  /** The orders handed to an engine by the run. */
  function Handed(run: seq<Action>): set<OrderId> {
    if run == [] then {}
    else Handed(run[..|run| - 1]) + if run[|run| - 1].Match? then {run[|run| - 1].id} else {}
  }

  lemma {:induction false} HandedBy(run: seq<Action>, x: OrderId) returns (i: nat)
    requires x in Handed(run)
    ensures Handles(run, i, x)
  {
    if x in Handed(run[..|run| - 1]) {
      i := HandedBy(run[..|run| - 1], x);
    } else {
      i := |run| - 1;
    }
  }

  /** Orders of one level never have the same creation time. */
  lemma {:induction false} RivalsDiffer(s: State, run: seq<Action>, x: OrderId, y: OrderId, m: nat, n: nat)
    requires Legal(s, run) && Timely(run) && BatchesApart(run) && m <= n < |run| && x != y
    requires var o := End(s, run).db.orders;
             && x in o && y in o && Rivals(o[x], o[y]) && o[x].id == x && o[y].id == y
             && AsPlaced(run[m], o[x]) && AsPlaced(run[n], o[y])
    ensures End(s, run).db.orders[x].createdAt < End(s, run).db.orders[y].createdAt
  {
    assert run[m] in run;
  }

  ghost predicate Handles(run: seq<Action>, i: nat, x: OrderId) {
    i < |run| && run[i].Match? && run[i].id == x
  }

  /** The one received first was placed first. */
  lemma {:induction false} ReceivedApart(s: State, run: seq<Action>, o: Orders, i: nat, j: nat, x: OrderId, y: OrderId)
    requires Inv(s) && s.db.orders == map[] && Legal(s, run) && o == End(s, run).db.orders
    requires Timely(run) && BatchesApart(run) && InSequence(s, run)
    requires i < j && Handles(run, i, x) && Handles(run, j, y)
    requires x != y && x in o && y in o && Rivals(o[x], o[y])
    ensures o[x].createdAt < o[y].createdAt
  {
    RunInv(s, run);
    var m := CreatedByPlacing(s, run, x);
    var n := CreatedByPlacing(s, run, y);
    assert RowOk(x, o[x]) && RowOk(y, o[y]);
    assert Arrive(s, run, i, j, m, n);
    RivalsDiffer(s, run, x, y, m, n);
  }

  /** A query result lists orders of one level by age, and never two of one age. */
  lemma {:induction false} RestoredAged(s: State, run: seq<Action>, q: seq<Row>, x: OrderId, y: OrderId)
    requires Inv(s) && s.db.orders == map[] && Legal(s, run) && Timely(run) && BatchesApart(run)
    requires var o := End(s, run).db.orders; QueryResult(o, q) && OpenRivals(o, x, y) && Rank(q, x) < Rank(q, y)
    ensures var o := End(s, run).db.orders; o[x].createdAt < o[y].createdAt
  {
    var o := End(s, run).db.orders;
    RunInv(s, run);
    assert RowOk(x, o[x]) && RowOk(y, o[y]) && o[x] in q && o[y] in q;
    var i :| 0 <= i < |q| && q[i] == o[x];
    var j :| 0 <= j < |q| && q[j] == o[y];
    RankAt(q, i);
    RankAt(q, j);
    assert o[x].createdAt <= o[y].createdAt;
    var m := CreatedByPlacing(s, run, x);
    var n := CreatedByPlacing(s, run, y);
    if m <= n {
      RivalsDiffer(s, run, x, y, m, n);
    } else {
      RivalsDiffer(s, run, y, x, n, m);
    }
  }

  lemma {:induction false} SymbolStays(before: State, a: Action, id: OrderId)
    requires Inv(before) && Enabled(before, a) && id in before.db.orders
    ensures SymbolAt(Step(before, a), id) == SymbolAt(before, id)
  {
    StepForward(before, a, id);
  }

  lemma {:induction false} SymbolOfCreated(s: State, run: seq<Action>, n: nat, id: OrderId)
    requires Inv(s) && Legal(s, run) && run != [] && Legal(s, run[..|run| - 1]) && Creates(s, run[..|run| - 1], n, id)
    ensures Creates(s, run, n, id) && SymbolAt(End(s, run), id) == SymbolAt(End(s, run[..|run| - 1]), id)
  {
    LastStep(s, run);
    RunInv(s, run[..|run| - 1]);
    CreatesInit(s, run, n, id);
    CreatedStays(s, run[..|run| - 1], n, id);
    SymbolStays(End(s, run[..|run| - 1]), run[|run| - 1], id);
  }

  lemma {:induction false} StillTimely(run: seq<Action>)
    requires run != [] && Timely(run) && BatchesApart(run)
    ensures Timely(run[..|run| - 1]) && BatchesApart(run[..|run| - 1])
  {
    forall a | a in run[..|run| - 1] ensures a in run {
    }
  }

  lemma {:induction false} ArriveInit(s: State, run: seq<Action>, i: int, j: int, m: int, n: int)
    requires Inv(s) && Legal(s, run) && run != []
    requires Legal(s, run[..|run| - 1]) && Arrive(s, run[..|run| - 1], i, j, m, n)
    ensures Arrive(s, run, i, j, m, n)
  {
    var init := run[..|run| - 1];
    SymbolOfCreated(s, run, m, init[i].id);
    SymbolOfCreated(s, run, n, init[j].id);
    assert run[i] == init[i] && run[j] == init[j];
  }

  lemma {:induction false} InitKeeps(s: State, run: seq<Action>)
    requires Inv(s) && Legal(s, run) && run != [] && Timely(run) && BatchesApart(run) && InSequence(s, run)
    ensures var init := run[..|run| - 1];
            Legal(s, init) && Timely(init) && BatchesApart(init) && InSequence(s, init)
  {
    var init := run[..|run| - 1];
    PrefixLegal(s, run, |run| - 1);
    StillTimely(run);
    forall i, j, m, n | Arrive(s, init, i, j, m, n) ensures m <= n {
      ArriveInit(s, run, i, j, m, n);
    }
  }

  lemma {:induction false} CreatedStays(s: State, run: seq<Action>, n: nat, id: OrderId)
    requires Inv(s) && Legal(s, run) && Creates(s, run, n, id)
    ensures id in End(s, run).db.orders
    decreases |run|
  {
    if n == |run| - 1 {
      CreatesLast(s, run, id);
    } else {
      LastStep(s, run);
      CreatesInit(s, run, n, id);
      CreatedStays(s, run[..|run| - 1], n, id);
      RunInv(s, run[..|run| - 1]);
      StepForward(End(s, run[..|run| - 1]), run[|run| - 1], id);
    }
  }

  lemma {:induction false} ArrivalsAfter(s: State, a: Action)
    requires ArrivalsOk(s) && Enabled(s, a)
    ensures forall x :: x in Step(s, a).at ==> x in s.at || (a.Match? && x == a.id)
    ensures !a.Match? && !a.Takeover? ==> Step(s, a).at == s.at
  {
    match a
    case Takeover(term, q) => TakeoverArrivals(s, term, q);
    case Match(id, nid, token) =>
    case _ =>
  }

  lemma {:induction false} StepReceived(s: State, a: Action, next: State, handed: set<OrderId>)
    requires ArrivalsOk(s) && Enabled(s, a) && next == Step(s, a) && s.at.Keys <= handed
    ensures next.at.Keys <= handed + if a.Match? then {a.id} else {}
  {
    ArrivalsAfter(s, a);
  }

  /** Every order the engines know was handed to one by an action of the run. */
  lemma {:induction false} RunReceived(s: State, run: seq<Action>)
    requires Inv(s) && s.at == map[] && Legal(s, run)
    ensures End(s, run).at.Keys <= Handed(run)
    decreases |run|
  {
    if run != [] {
      LastStep(s, run);
      RunReceived(s, run[..|run| - 1]);
      RunInv(s, run[..|run| - 1]);
      StepReceived(End(s, run[..|run| - 1]), run[|run| - 1], End(s, run), Handed(run[..|run| - 1]));
    }
  }

  /** Handing an order over changes no other place, and gives it the last one. */
  lemma {:induction false} LastArrives(s: State, id: OrderId, nid: TradeId, token: int, x: OrderId, y: OrderId)
    requires ArrivalsOk(s) && CanMatch(s, id, nid, token)
    requires var next := AfterMatch(s, id, nid, token); x in next.at && y in next.at && next.at[x] < next.at[y]
    ensures x in s.at && x != id && (y == id || (y in s.at && s.at[x] < s.at[y]))
  {
    assert AfterMatch(s, id, nid, token).at == s.at[id := |s.at|];
  }

  lemma {:induction false} ReceivedBy(s: State, run: seq<Action>, x: OrderId) returns (i: nat)
    requires Inv(s) && s.at == map[] && Legal(s, run) && x in End(s, run).at
    ensures Handles(run, i, x)
  {
    RunReceived(s, run);
    i := HandedBy(run, x);
  }

  lemma {:induction false} EarlierReceived(s: State, run: seq<Action>, next: State, j: nat, x: OrderId, y: OrderId)
    requires Inv(s) && s.db.orders == map[] && s.at == map[] && Legal(s, run) && next == End(s, run)
    requires Timely(run) && BatchesApart(run) && InSequence(s, run)
    requires Handles(run, j, y) && j == |run| - 1 && x in next.at && x != y && OpenRivals(next.db.orders, x, y)
    ensures next.db.orders[x].createdAt < next.db.orders[y].createdAt
  {
    var i := ReceivedBy(s, run, x);
    assert i != j;
    ReceivedApart(s, run, next.db.orders, i, j, x, y);
  }

  lemma {:induction false} MatchAged(s: State, run: seq<Action>, before: State, next: State)
    requires Inv(s) && s.db.orders == map[] && s.at == map[] && Legal(s, run) && run != [] && run[|run| - 1].Match?
    requires Timely(run) && BatchesApart(run) && InSequence(s, run) && next == End(s, run)
    requires var a := run[|run| - 1];
             CanMatch(before, a.id, a.nid, a.token) && next == AfterMatch(before, a.id, a.nid, a.token)
    requires ArrivalsOk(before) && Aged(before)
    ensures Aged(next)
  {
    var a := run[|run| - 1];
    forall x, y | x in next.at && y in next.at && OpenRivals(next.db.orders, x, y) && next.at[x] < next.at[y]
      ensures next.db.orders[x].createdAt < next.db.orders[y].createdAt
    {
      LastArrives(before, a.id, a.nid, a.token, x, y);
      if y == a.id {
        EarlierReceived(s, run, next, |run| - 1, x, y);
      }
    }
  }

  lemma {:induction false} TakeoverAged(s: State, run: seq<Action>)
    requires Inv(s) && s.db.orders == map[] && Legal(s, run) && run != [] && run[|run| - 1].Takeover?
    requires Timely(run) && BatchesApart(run)
    ensures Aged(End(s, run))
  {
    var a := run[|run| - 1];
    LastStep(s, run);
    var next := End(s, run);
    forall x, y | x in next.at && y in next.at && OpenRivals(next.db.orders, x, y) && next.at[x] < next.at[y]
      ensures next.db.orders[x].createdAt < next.db.orders[y].createdAt
    {
      RestoredAged(s, run, a.q, x, y);
    }
  }

  lemma {:induction false} OtherAged(s: State, a: Action)
    requires Inv(s) && Enabled(s, a) && !a.Match? && !a.Takeover? && Aged(s)
    ensures Aged(Step(s, a))
  {
    var next := Step(s, a);
    ArrivalsAfter(s, a);
    forall x, y | x in next.at && y in next.at && OpenRivals(next.db.orders, x, y) && next.at[x] < next.at[y]
      ensures next.db.orders[x].createdAt < next.db.orders[y].createdAt
    {
      StepForward(s, a, x);
      StepForward(s, a, y);
      assert OpenRivals(s.db.orders, x, y);
    }
  }

  lemma {:induction false} RunAged(s: State, run: seq<Action>)
    requires Inv(s) && s.db.orders == map[] && s.at == map[] && Legal(s, run)
    requires Timely(run) && BatchesApart(run) && InSequence(s, run)
    ensures Aged(End(s, run))
    decreases |run|
  {
    if run != [] {
      var init, a := run[..|run| - 1], run[|run| - 1];
      InitKeeps(s, run);
      RunAged(s, init);
      LastStep(s, run);
      RunInv(s, init);
      if a.Match? {
        MatchAged(s, run, End(s, init), End(s, run));
      } else if a.Takeover? {
        TakeoverAged(s, run);
      } else {
        OtherAged(End(s, init), a);
      }
    }
  }

  lemma {:induction false} AgedSide(s: State, sym: Symbol, side: Side)
    requires Inv(s) && K.Quiescent(s, sym) && Aged(s)
    ensures FifoClocked(s.db.orders, s.Book(sym).On(side))
  {
    var orders := s.Book(sym).On(side);
    K.QuiescentSide(s, sym, side);
    forall i, j | 0 <= i < j < |orders| && orders[i].price == orders[j].price
      ensures Created(s.db.orders, orders[i].id) < Created(s.db.orders, orders[j].id)
    {
      assert B.Before(side, s.at, orders[i], orders[j]);
      assert orders[i] in orders && orders[j] in orders;
      assert OpenRivals(s.db.orders, orders[i].id, orders[j].id);
    }
  }

  /**
   Recovery from the run alone: when later placings have later times, no batch has two orders for one price level, and
   each engine receives its orders in the sequence of their placing, then in every quiescent state whatever the query
   returns rebuilds the live book order for order, also after earlier changes of leader.
   */
  lemma {:induction false} RecoveredFromRun(fence: Option<nat>, run: seq<Action>, s: State, sym: Symbol, q: seq<Row>)
    requires Legal(Start(fence), run) && s == End(Start(fence), run)
    requires Timely(run) && BatchesApart(run) && InSequence(Start(fence), run)
    requires K.Quiescent(s, sym) && QueryResult(s.db.orders, q)
    ensures Restored(sym, q) == s.Book(sym)
  {
    StartInv(fence);
    RunInv(Start(fence), run);
    RunAged(Start(fence), run);
    AgedSide(s, sym, Buy);
    AgedSide(s, sym, Sell);
    assert s.Book(sym).On(Buy) == s.Book(sym).bids && s.Book(sym).On(Sell) == s.Book(sym).asks;
    K.StateRecoveryIff(s, sym);
  }
}
