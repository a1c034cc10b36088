/**
 Takeovers: when a new leader's books are those of the old one, what events still queued leave behind, and what
 becomes of the orders they were about.
 */
module Takeover {
  import opened Types
  import opened Sorting
  import opened Settlement
  import opened OrderFlow
  import opened Streams
  import opened Placement
  import opened Recovery
  import opened Exchange
  import opened Runs
  import B = BookInvariant
  import M = Matching
  import R = Reservation

  // Quiet takeovers

  /** All events consumed, and every order of the symbol handed to its engine. */
  ghost predicate Quiescent(s: State, sym: Symbol) {
    s.Queue(sym) == [] && forall id :: id in s.View(sym) ==> id in s.at
  }

  lemma {:induction false} QuiescentSide(s: State, sym: Symbol, side: Side)
    requires Inv(s) && Quiescent(s, sym)
    ensures LiveSide(s.db.orders, sym, side, s.Book(sym).On(side), s.at)
  {
    assert FlowOk(s, sym);
    assert SideLinked(s.View(sym), side, s.Book(sym).On(side), s.at);
    forall id | id in s.db.orders && s.db.orders[id].symbol == sym ensures id in s.View(sym) {
    }
  }

  lemma {:induction false} StateRecoveryIff(s: State, sym: Symbol)
    requires Inv(s) && Quiescent(s, sym)
    ensures AlwaysRestored(s.db.orders, sym, s.Book(sym)) <==>
            FifoClocked(s.db.orders, s.Book(sym).bids) && FifoClocked(s.db.orders, s.Book(sym).asks)
  {
    var b := s.Book(sym);
    forall side: Side ensures (forall q :: QueryResult(s.db.orders, q) ==> Restored(sym, q).On(side) == b.On(side)) <==>
                              FifoClocked(s.db.orders, b.On(side))
    {
      QuiescentSide(s, sym, side);
      SideRecoveryIff(s.db.orders, sym, side, b.On(side), s.at);
    }
    assert b.On(Buy) == b.bids && b.On(Sell) == b.asks;
    BySides(s.db.orders, sym, b);
  }

  /**
   Crash recovery: in every reachable quiescent state, whatever order the database returns equal creation
   times in, restoring rebuilds the live book order for order, exactly when within each price level the
   creation times strictly increase along the queue.
   */
  lemma {:induction false} RecoveryIff(fence: Option<nat>, run: seq<Action>, s: State, sym: Symbol)
    requires Legal(Start(fence), run) && s == End(Start(fence), run) && Quiescent(s, sym)
    ensures AlwaysRestored(s.db.orders, sym, s.Book(sym)) <==>
            FifoClocked(s.db.orders, s.Book(sym).bids) && FifoClocked(s.db.orders, s.Book(sym).asks)
  {
    StartInv(fence);
    RunInv(Start(fence), run);
    StateRecoveryIff(s, sym);
  }

  /** Creation times that follow the engine's arrival order are enough. */
  lemma {:induction false} ClockedRecovery(fence: Option<nat>, run: seq<Action>, s: State, sym: Symbol, q: seq<Row>)
    requires Legal(Start(fence), run) && s == End(Start(fence), run) && Quiescent(s, sym) && QueryResult(s.db.orders, q)
    requires forall x, y :: x in s.at && y in s.at && s.at[x] < s.at[y] ==>
             Created(s.db.orders, x) < Created(s.db.orders, y)
    ensures Restored(sym, q) == s.Book(sym)
  {
    StartInv(fence);
    RunInv(Start(fence), run);
    forall side: Side ensures FifoClocked(s.db.orders, s.Book(sym).On(side)) {
      QuiescentSide(s, sym, side);
      QueueClocked(s.db.orders, side, s.Book(sym).On(side), s.at);
    }
    assert s.Book(sym).On(Buy) == s.Book(sym).bids && s.Book(sym).On(Sell) == s.Book(sym).asks;
    StateRecoveryIff(s, sym);
  }

  /** A takeover at a quiet moment, with creation times that tell orders apart, leaves every book as it was. */
  lemma {:induction false} QuietTakeover(s: State, term: nat, q: seq<Row>, sym: Symbol)
    requires Inv(s) && CanTakeOver(s, term, q) && Quiescent(s, sym)
    requires FifoClocked(s.db.orders, s.Book(sym).bids) && FifoClocked(s.db.orders, s.Book(sym).asks)
    ensures AfterTakeover(s, term, q).Book(sym) == s.Book(sym)
  {
    StateRecoveryIff(s, sym);
    TakeoverBook(s, term, q, sym);
  }

  // The book within a term

  ghost predicate AllTidy(s: State) {
    forall sym :: B.Tidy(s.Book(sym), s.at)
  }

  lemma {:induction false} MatchTidy(s: State, id: OrderId, nid: TradeId, token: int)
    requires Inv(s) && AllTidy(s) && CanMatch(s, id, nid, token)
    ensures AllTidy(AfterMatch(s, id, nid, token))
  {
    var next := AfterMatch(s, id, nid, token);
    HandedArrives(s, id);
    assert RowOk(id, s.db.orders[id]);
    forall sym ensures B.Tidy(next.Book(sym), next.at) {
      if sym == s.db.orders[id].symbol {
        B.ProcessTidy(sym, s.Book(sym), ToTaker(s.db.orders[id]), nid, s.at, next.at);
      } else {
        B.TidyExtend(s.Book(sym), s.at, next.at);
      }
    }
  }

  lemma {:induction false} StepTidy(s: State, a: Action)
    requires Inv(s) && AllTidy(s) && Enabled(s, a) && !a.Takeover?
    ensures AllTidy(Step(s, a))
  {
    if a.Match? {
      MatchTidy(s, a.id, a.nid, a.token);
    } else if a.CancelRequested? {
      CancelAllTidy(s, a.id, a.token);
    } else {
      SameBooks(s, Step(s, a));
    }
  }

  lemma {:induction false} CancelAllTidy(s: State, id: OrderId, token: int)
    requires AllTidy(s) && id in s.db.orders
    ensures AllTidy(AfterCancel(s, id, token))
  {
    var r, next := s.db.orders[id], AfterCancel(s, id, token);
    B.CancelTidy(s.Book(r.symbol), id, r.side, s.at);
    forall sym ensures B.Tidy(next.Book(sym), next.at) {
      assert sym != r.symbol ==> next.Book(sym) == s.Book(sym);
    }
  }

  lemma {:induction false} SameBooks(s: State, next: State)
    requires AllTidy(s) && next.books == s.books && next.at == s.at
    ensures AllTidy(next)
  {
    forall sym ensures B.Tidy(next.Book(sym), next.at) {
      assert next.Book(sym) == s.Book(sym);
    }
  }

  lemma {:induction false} RunTidy(s: State, run: seq<Action>)
    requires Inv(s) && AllTidy(s) && Legal(s, run) && forall a :: a in run ==> !a.Takeover?
    ensures AllTidy(End(s, run))
    decreases run
  {
    if run != [] {
      assert run[0] in run;
      StepInv(s, run[0]);
      StepTidy(s, run[0]);
      RunTidy(Step(s, run[0]), run[1..]);
    }
  }

  /** Until somebody takes over, no book is ever crossed. */
  lemma {:induction false} UncrossedUntilTakeover(fence: Option<nat>, run: seq<Action>, sym: Symbol)
    requires Legal(Start(fence), run) && forall a :: a in run ==> !a.Takeover?
    ensures !CrossedBook(End(Start(fence), run).Book(sym))
  {
    StartInv(fence);
    assert forall x :: Start(fence).Book(x) == M.EMPTY_BOOK;
    RunTidy(Start(fence), run);
    assert B.Tidy(End(Start(fence), run).Book(sym), End(Start(fence), run).at);
  }

  // Taking over while events are still queued

  /** The order rests in the database, but an event still queued takes it out of the book. */
  ghost predicate ClosedByQueue(s: State, sym: Symbol, id: OrderId) {
    && id in s.View(sym) && Resting(s.View(sym)[id])
    && id in Fold(s.View(sym), s.Queue(sym)) && !Resting(Fold(s.View(sym), s.Queue(sym))[id])
  }

  /** A crossing pair of which no event closes an order crosses in the live book already. */
  lemma {:induction false} LivePair(s: State, sym: Symbol, x: OrderId, y: OrderId)
    requires Inv(s) && x in s.at && y in s.at && CrossingPair(s.View(sym), x, y)
    ensures ClosedByQueue(s, sym, x) || ClosedByQueue(s, sym, y) || CrossedBook(s.Book(sym))
  {
    var o, f, b := s.View(sym), Fold(s.View(sym), s.Queue(sym)), s.Book(sym);
    assert FlowOk(s, sym);
    FoldForward(o, s.Queue(sym));
    SameTrading(o[x], f[x]);
    SameTrading(o[y], f[y]);
    assert SideLinked(f, Buy, b.On(Buy), s.at) && SideLinked(f, Sell, b.On(Sell), s.at);
    assert b.On(Buy) == b.bids && b.On(Sell) == b.asks;
    if !ClosedByQueue(s, sym, x) && !ClosedByQueue(s, sym, y) {
      assert ToOrder(f[x]) in b.bids && ToOrder(f[y]) in b.asks;
    }
  }

  /** What rests in the book has its row, with the same terms and not closed. */
  lemma {:induction false} LiveRow(s: State, sym: Symbol, side: Side, x: Order)
    requires Inv(s) && x in s.Book(sym).On(side)
    ensures var o := s.View(sym);
            && x.id in o && Resting(o[x.id]) && o[x.id].id == x.id && o[x.id].side == side && o[x.id].price == x.price
  {
    var o, f, b := s.View(sym), Fold(s.View(sym), s.Queue(sym)), s.Book(sym);
    assert FlowOk(s, sym);
    FoldForward(o, s.Queue(sym));
    assert SideLinked(f, side, b.On(side), s.at);
    SameTrading(o[x.id], f[x.id]);
  }

  /** Orders that cross in the live book cross in the database too. */
  lemma {:induction false} LiveCrossing(s: State, sym: Symbol)
    requires Inv(s) && CrossedBook(s.Book(sym))
    ensures exists x, y :: CrossingPair(s.View(sym), x, y)
  {
    var b := s.Book(sym);
    var x, y :| x in b.bids && y in b.asks && x.price >= y.price;
    assert x in b.On(Buy) && y in b.On(Sell);
    LiveRow(s, sym, Buy, x);
    LiveRow(s, sym, Sell, y);
    assert CrossingPair(s.View(sym), x.id, y.id);
  }

  /** Every resting order of the symbol has reached its engine. */
  ghost predicate RestingSeen(s: State, sym: Symbol) {
    forall id :: id in s.View(sym) && Resting(s.View(sym)[id]) ==> id in s.at
  }

  /**
   A takeover, with whatever is queued: the restored book is crossed exactly when the live one already was, or an order
   that a queued event was to close crosses one that rests on the other side.
   */
  lemma {:induction false} TakeoverCrossedIff(s: State, sym: Symbol, q: seq<Row>)
    requires Inv(s) && QueryResult(s.db.orders, q) && RestingSeen(s, sym)
    ensures CrossedBook(Restored(sym, q)) <==>
            || CrossedBook(s.Book(sym))
            || exists x, y :: CrossingPair(s.View(sym), x, y) && (ClosedByQueue(s, sym, x) || ClosedByQueue(s, sym, y))
  {
    RestoredCrossedIff(s.db.orders, sym, q);
    forall x, y | CrossingPair(s.View(sym), x, y)
      ensures ClosedByQueue(s, sym, x) || ClosedByQueue(s, sym, y) || CrossedBook(s.Book(sym))
    {
      LivePair(s, sym, x, y);
    }
    if CrossedBook(s.Book(sym)) {
      LiveCrossing(s, sym);
    }
  }

  lemma {:induction false} ChainAt(o: Orders, q: seq<Event>, j: nat)
    requires RowsOk(o) && Chain(o, q) && j < |q|
    ensures Chain(o, q[..j]) && Valid(Fold(o, q[..j]), q[j])
    decreases q
  {
    if j > 0 {
      assert q[..j][0] == q[0] && q[..j][1..] == q[1..][..j - 1];
      RowsForward(o, q[0]);
      ChainAt(Rows(o, q[0]), q[1..], j - 1);
    }
  }

  /** In particular, a queued settlement of a limit order with a trade leaves both of its orders crossing. */
  lemma {:induction false} QueuedTradeCrosses(s: State, sym: Symbol, j: nat, q: seq<Row>)
    requires Inv(s) && QueryResult(s.db.orders, q) && j < |s.Queue(sym)|
    requires var e := s.Queue(sym)[j]; e.SettlementRequested? && e.trades != []
    requires var e := s.Queue(sym)[j]; e.taker in s.db.orders ==> s.db.orders[e.taker].otype.Limit?
    ensures CrossedBook(Restored(sym, q))
  {
    var o, e := s.View(sym), s.Queue(sym)[j];
    var f := Fold(o, s.Queue(sym)[..j]);
    assert FlowOk(s, sym);
    ChainAt(o, s.Queue(sym), j);
    FoldForward(o, s.Queue(sym)[..j]);
    var t := e.trades[0];
    assert t in e.trades && ValidTrade(f, t, f[e.taker]);
    SameTrading(o[e.taker], f[e.taker]);
    SameTrading(o[t.maker], f[t.maker]);
    RestoredCrossedIff(s.db.orders, sym, q);
    if o[e.taker].side.Buy? {
      assert CrossingPair(o, e.taker, t.maker);
    } else {
      assert CrossingPair(o, t.maker, e.taker);
    }
  }

  // What becomes of the orders whose settlement is dropped

  /** The taker of a queued settlement is NEW in the database, and its engine has seen it. */
  lemma {:induction false} QueuedTaker(s: State, sym: Symbol, e: Event)
    requires Inv(s) && e in s.Queue(sym) && e.SettlementRequested?
    ensures e.taker in s.View(sym) && s.db.orders[e.taker].status.New? && e.taker in s.at
  {
    var o, queue := s.View(sym), s.Queue(sym);
    var j :| 0 <= j < |queue| && queue[j] == e;
    assert FlowOk(s, sym) && EventOk(s, sym, e);
    ChainAt(o, queue, j);
    FoldForward(o, queue[..j]);
    assert Forward(o[e.taker], Fold(o, queue[..j])[e.taker]);
  }

  /** After any takeover an open limit order is in its book, and a cancel request for it is answered. */
  lemma {:induction false} LimitCanBeCanceled(s: State, term: nat, q: seq<Row>, id: OrderId, token: int)
    requires Inv(s) && CanTakeOver(s, term, q) && id in s.db.orders && Resting(s.db.orders[id])
    ensures var next := AfterTakeover(s, term, q); var r := next.db.orders[id];
            && ToOrder(r) in next.Book(r.symbol).On(r.side)
            && Cancellations(next, id, token) == [OrderCanceled(r.symbol, id, r.user, token)]
  {
    var next := AfterTakeover(s, term, q);
    var r := next.db.orders[id];
    TakeoverInv(s, term, q);
    TakeoverArrivals(s, term, q);
    assert FlowOk(next, r.symbol) && id in next.View(r.symbol);
    assert SideLinked(next.View(r.symbol), r.side, next.Book(r.symbol).On(r.side), next.at);
    assert B.Ranked(next.Book(r.symbol), next.at) && RowOk(id, r);
    B.RemoveIdKeeps(r.side, next.Book(r.symbol).On(r.side), id, next.at);
  }

  /** A market order its engine has seen, still NEW, and with no settlement under way. */
  ghost predicate Stranded(s: State, id: OrderId) {
    && id in s.db.orders && s.db.orders[id].otype.Market? && s.db.orders[id].status.New? && id in s.at
    && forall e :: e in Underway(s.queue) && e.SettlementRequested? ==> e.taker != id
  }

  /** Dropping the settlement of a market order strands it. */
  lemma {:induction false} DroppedMarketStranded(s: State, term: nat, q: seq<Row>, sym: Symbol, e: Event)
    requires Inv(s) && CanTakeOver(s, term, q) && e in s.Queue(sym) && e.SettlementRequested?
    requires e.taker in s.db.orders ==> s.db.orders[e.taker].otype.Market?
    ensures Stranded(AfterTakeover(s, term, q), e.taker)
  {
    QueuedTaker(s, sym, e);
    TakeoverArrivals(s, term, q);
  }

  lemma {:induction false} QueuedIn(s: State, sym: Symbol, e: Event)
    ensures e in s.Queue(sym) ==> e in Underway(s.queue)
    ensures e in Underway(s.queue) ==> exists x :: x in s.queue && e in s.queue[x]
  {
  }

  lemma {:induction false} ConsumeStranded(s: State, sym: Symbol, id: OrderId)
    requires Inv(s) && Stranded(s, id) && s.Queue(sym) != []
    ensures Stranded(AfterConsume(s, sym), id) && AfterConsume(s, sym).db.orders[id] == s.db.orders[id]
  {
    var e, o := s.Queue(sym)[0], s.db.orders;
    HeadReady(s, sym);
    HeadDelivered(s, sym);
    assert e in s.Queue(sym);
    QueuedIn(s, sym, e);
    if e.SettlementRequested? {
      forall t | t in e.trades ensures t.maker != id {
        assert ValidTrade(o, t, o[e.taker]);
      }
      SettledOther(o, e, id);
    }
    QueueShrinks(s, sym);
  }

  lemma {:induction false} QueueShrinks(s: State, sym: Symbol)
    requires s.Queue(sym) != []
    ensures Underway(AfterConsume(s, sym).queue) <= Underway(s.queue)
  {
    forall e | e in Underway(AfterConsume(s, sym).queue) ensures e in Underway(s.queue) {
      QueuedIn(AfterConsume(s, sym), sym, e);
      var x :| x in AfterConsume(s, sym).queue && e in AfterConsume(s, sym).queue[x];
      assert e in s.queue[x];
    }
  }

  lemma {:induction false} PublishedQueued(queue: map<Symbol, seq<Event>>, sym: Symbol, more: seq<Event>, e: Event)
    requires e in Underway(Publish(queue, sym, more))
    ensures e in Underway(queue) || e in more
  {
    var x :| x in Publish(queue, sym, more) && e in Publish(queue, sym, more)[x];
    assert x in queue && e in queue[x] ==> e in Underway(queue);
  }

  /** An order stays stranded when what an engine publishes is about other takers. */
  lemma {:induction false} PublishedStranded(s: State, next: State, sym: Symbol, more: seq<Event>, id: OrderId)
    requires Stranded(s, id) && next.db == s.db && id in next.at && next.queue == Publish(s.queue, sym, more)
    requires forall e :: e in more && e.SettlementRequested? ==> e.taker != id
    ensures Stranded(next, id)
  {
    forall e | e in Underway(next.queue) && e.SettlementRequested? ensures e.taker != id {
      PublishedQueued(s.queue, sym, more, e);
    }
  }

  lemma {:induction false} EngineStranded(s: State, a: Action, id: OrderId)
    requires Inv(s) && Enabled(s, a) && Stranded(s, id) && (a.Match? || a.CancelRequested?)
    ensures Stranded(Step(s, a), id) && Step(s, a).db.orders[id] == s.db.orders[id]
  {
    var sym := s.db.orders[a.id].symbol;
    if a.Match? {
      assert RowOk(a.id, s.db.orders[a.id]);
      PublishedStranded(s, Step(s, a), sym, Settlements(s, a.id, a.nid, a.token), id);
    } else {
      PublishedStranded(s, Step(s, a), sym, Cancellations(s, a.id, a.token), id);
    }
  }

  lemma {:induction false} PlacedStranded(s: State, a: Action, id: OrderId)
    requires Inv(s) && Enabled(s, a) && Stranded(s, id) && (a.PlaceOne? || a.PlaceMany?)
    ensures Stranded(Step(s, a), id) && Step(s, a).db.orders[id] == s.db.orders[id]
  {
    if a.PlaceMany? {
      BatchAdmits(s.db, a.rs, a.ids, a.now, a.snaps);
      if AdmitAll(s.db, a.rs, a.ids, a.now, a.snaps).Some? {
        AdmitKeeps(s.db, a.rs, a.ids, a.now, a.snaps, id);
      }
    }
  }

  lemma {:induction false} StepStranded(s: State, a: Action, id: OrderId)
    requires Inv(s) && Enabled(s, a) && Stranded(s, id)
    ensures Stranded(Step(s, a), id) && Step(s, a).db.orders[id] == s.db.orders[id]
  {
    if a.Consume? {
      ConsumeStranded(s, a.sym, id);
    } else if a.Match? || a.CancelRequested? {
      EngineStranded(s, a, id);
    } else if a.PlaceOne? || a.PlaceMany? {
      PlacedStranded(s, a, id);
    } else if a.Takeover? {
      TakeoverArrivals(s, a.term, a.q);
    } else if a.Redeliver? || a.Stray? {
      RedeliverNothing(s, a);
    }
  }

  /**
   A stranded market order stays as it is in every continuation: nothing ever fills, closes or cancels it, and all it
   reserves stays locked.
   */
  lemma {:induction false} StrandedForever(s: State, run: seq<Action>, id: OrderId)
    requires Inv(s) && Legal(s, run) && Stranded(s, id)
    ensures id in End(s, run).db.orders && End(s, run).db.orders[id] == s.db.orders[id]
    ensures R.Reserve(s.db.orders[id]) ==
            if s.db.orders[id].side.Buy? then s.db.orders[id].lockedAmount else s.db.orders[id].qty
    decreases run
  {
    assert RowOk(id, s.db.orders[id]);
    if run != [] {
      StepInv(s, run[0]);
      StepStranded(s, run[0], id);
      StrandedForever(Step(s, run[0]), run[1..], id);
    }
  }

  // Where fencing ends

  /**
   What a settlement that the fence lets through does to quantities: no order is filled beyond what it asked for
   exactly when every maker still has room for its trade. Nothing in the transaction looks at the makers' status.
   */
  lemma {:induction false} OverfillIff(o: Orders, e: Event)
    requires RowsOk(o) && e.SettlementRequested? && OrderIds(e) <= o.Keys && o[e.taker].status.New?
    requires DistinctMakers(e.trades) && M.Volume(e.trades) <= o[e.taker].qty
    requires forall t :: t in e.trades ==> t.maker in o && t.maker != e.taker
    ensures (forall id :: id in SettleRows(o, e) ==> SettleRows(o, e)[id].filled <= SettleRows(o, e)[id].qty) <==>
            forall t :: t in e.trades ==> t.qty <= o[t.maker].Unfilled()
  {
    var r := SettleRows(o, e);
    TakerFilled(o, e.trades, e.taker);
    forall i | 0 <= i < |e.trades| ensures r[e.trades[i].maker] == FillMaker(o[e.trades[i].maker], e.trades[i].qty) {
      assert e.trades[i] in e.trades;
      MakerFilled(o, e.trades, e.taker, i);
    }
    forall id | id in o && id != e.taker && (forall t :: t in e.trades ==> t.maker != id) ensures r[id] == o[id] {
      OthersKept(o, e.trades, e.taker, id);
    }
    forall id | id in r && id != e.taker
      ensures r[id] == o[id] || exists i :: 0 <= i < |e.trades| && e.trades[i].maker == id
    {
    }
    forall t | t in e.trades
      ensures r[t.maker].filled == o[t.maker].filled + t.qty && r[t.maker].qty == o[t.maker].qty
    {
      var i :| 0 <= i < |e.trades| && e.trades[i] == t;
    }
  }

  /** A FILLED maker has no room: a late trade reopens it with more than it asked for. */
  lemma {:induction false} FilledMakerOverfills(m: Row, q: real)
    requires RowOk(m.id, m) && m.status.Filled? && m.otype.Limit? && q > 0.0
    ensures FillMaker(m, q).status.PartiallyFilled? && FillMaker(m, q).filled > FillMaker(m, q).qty
  {
  }

  // Orders on their way to the engine

  /** The quantity that one side of a book offers under an id. */
  function Offered(s: seq<Order>, id: OrderId): real {
    if s == [] then 0.0 else (if s[0].id == id then s[0].qty else 0.0) + Offered(s[1..], id)
  }

  lemma {:induction false} OfferedConcat(a: seq<Order>, b: seq<Order>, id: OrderId)
    ensures Offered(a + b, id) == Offered(a, id) + Offered(b, id)
  {
    if a == [] {
      assert a + b == b;
    } else {
      assert (a + b)[1..] == a[1..] + b;
      OfferedConcat(a[1..], b, id);
    }
  }

  lemma {:induction false} OfferedInsert(s: seq<Order>, x: Order, less: (Order, Order) -> bool, id: OrderId)
    ensures Offered(Insert(s, x, less), id) == Offered(s, id) + Offered([x], id)
  {
    if s == [] || less(x, s[0]) {
      OfferedConcat([x], s, id);
    } else {
      OfferedInsert(s[1..], x, less, id);
      OfferedConcat([s[0]], Insert(s[1..], x, less), id);
    }
  }

  lemma {:induction false} OfferedSort(s: seq<Order>, less: (Order, Order) -> bool, id: OrderId)
    ensures Offered(StableSort(s, less), id) == Offered(s, id)
    decreases s
  {
    if s != [] {
      var init, x := s[..|s| - 1], s[|s| - 1];
      OfferedSort(init, less, id);
      OfferedInsert(StableSort(init, less), x, less, id);
      OfferedConcat(init, [x], id);
      assert s == init + [x];
    }
  }

  lemma {:induction false} ListedOffers(sym: Symbol, q: seq<Row>, side: Side, r: Row)
    requires r.otype.Limit? && r.symbol == sym && r.side == side
    requires forall i, j | 0 <= i < j < |q| :: q[i].id != q[j].id
    requires forall x :: x in q && x.id == r.id ==> x == r
    ensures Offered(Listed(sym, q, side), r.id) == if r in q then r.Unfilled() else 0.0
    decreases |q|
  {
    if q != [] {
      var init, last := q[..|q| - 1], q[|q| - 1];
      assert q == init + [last];
      ListedOffers(sym, init, side, r);
      OfferedConcat(Listed(sym, init, side), [ToOrder(last)], r.id);
      assert last == r ==> r !in init;
    }
  }

  /**
   An order still on its way to the engine when its row is restored is offered twice: once in full by the restored book,
   and again with whatever is left of it when it arrives.
   */
  lemma {:induction false} HandedAgain(orders: Orders, q: seq<Row>, r: Row, nid: TradeId)
    requires RowsOk(orders) && QueryResult(orders, q)
    requires r.id in orders && orders[r.id] == r && Resting(r)
    ensures var b := Restored(r.symbol, q); var p := M.Process(r.symbol, b, ToTaker(r), nid);
            && Offered(b.On(r.side), r.id) == r.Unfilled()
            && Offered(p.book.On(r.side), r.id) ==
               r.Unfilled() + if p.left > 0.0 then p.left else 0.0
  {
    var b, t := Restored(r.symbol, q), ToTaker(r);
    RestoredSide(r.symbol, q, r.side);
    OfferedSort(Listed(r.symbol, q, r.side), M.Ahead(r.side), r.id);
    ListedOffers(r.symbol, q, r.side, r);
    var f := M.Fill(r.symbol, t, b.On(r.side.Opposite()), nid);
    var rest := [t.(qty := f.left)];
    OfferedSort(b.On(r.side) + rest, M.Ahead(r.side), r.id);
    OfferedConcat(b.On(r.side), rest, r.id);
  }
}
