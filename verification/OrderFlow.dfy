/**
 One symbol's orders as the database has them, the events still under way to it, and the live book:
 how the three stay consistent. A view is the orders table restricted to the symbol.
 */
module OrderFlow {
  import opened Types
  import opened Settlement
  import opened BookInvariant
  import opened Subscriber
  import M = Matching

  /** What a row can look like at any time. */
  ghost predicate RowOk(id: OrderId, r: Row) {
    && r.id == id && IsPair(r.symbol) && r.qty > 0.0 && (r.otype.Limit? ==> r.price > 0.0)
    && 0.0 <= r.filled <= r.qty
    && !r.status.Rejected?
    && (r.status.New? ==> r.filled == 0.0)
    && (r.status.PartiallyFilled? ==> r.otype.Limit? && 0.0 < r.filled < r.qty)
    && (r.otype.Limit? ==> (r.status.Filled? <==> r.filled == r.qty))
    && (r.otype.Market? && r.status.Filled? ==> r.filled > 0.0)
    && (r.otype.Market? && r.status.Canceled? ==> r.filled == 0.0)
  }

  ghost predicate RowsOk(o: Orders) {
    forall id :: id in o ==> RowOk(id, o[id])
  }

  /** Rows that restoring puts into the book: open limit orders. */
  predicate Resting(r: Row) {
    r.otype.Limit? && r.Open()
  }

  function ToOrder(r: Row): Order {
    Order(r.id, r.user, r.side, Limit, r.price, r.qty - r.filled)
  }

  /** The order as the engine receives it; a market order has no price. */
  function ToTaker(r: Row): Order {
    Order(r.id, r.user, r.side, r.otype, if r.otype.Limit? then r.price else 0.0, r.qty)
  }

  // Events the engine emits

  ghost predicate ValidTrade(o: Orders, t: Trade, taker: Row)
  {
    && t.taker == taker.id && t.symbol == taker.symbol
    && t.maker in o && t.maker != taker.id
    && Resting(o[t.maker]) && o[t.maker].side == taker.side.Opposite() && o[t.maker].user != taker.user
    && t.price == o[t.maker].price
    && 0.0 < t.qty <= o[t.maker].Unfilled()
    && (taker.otype.Limit? ==> !M.Better(taker.side.Opposite(), taker.price, t.price))
  }

  ghost predicate DistinctMakers(trades: seq<Trade>) {
    forall i, j | 0 <= i < j < |trades| :: trades[i].maker != trades[j].maker && trades[i].id != trades[j].id
  }

  /** An event that the rows of the view are ready for. */
  ghost predicate Valid(o: Orders, e: Event) {
    if e.SettlementRequested? then
      && e.taker in o
      && var r := o[e.taker];
         && r.status.New? && r.symbol == e.symbol
         && e.amountLocked == r.lockedAmount && IsPair(r.symbol) && e.lockedCurrency == UnlockKey(r).currency
         && (forall t :: t in e.trades ==> ValidTrade(o, t, r))
         && DistinctMakers(e.trades)
         && M.Volume(e.trades) <= r.qty
         && (e.remaining == 0.0 || e.remaining == r.qty - M.Volume(e.trades))
         && (e.trades != [] || r.otype.Market? || e.remaining == 0.0)
    else
      e.id in o && Resting(o[e.id]) && o[e.id].symbol == e.symbol
  }

  lemma {:induction false} ValidIds(o: Orders, e: Event)
    requires Valid(o, e) && e.SettlementRequested? && RowsOk(o)
    ensures OrderIds(e) <= o.Keys
    ensures forall t :: t in e.trades ==> t.maker in o && t.maker != e.taker
  {
  }

  /** The rows after the event, if it is valid. */
  ghost function Rows(o: Orders, e: Event): Orders {
    if e.OrderCanceled? then
      if e.id in o then o[e.id := o[e.id].(status := Canceled)] else o
    else
      if OrderIds(e) <= o.Keys then SettleRows(o, e) else o
  }

  // Closed form of a settlement

  /** The one trade of the event in which the order is the maker, if any. */
  ghost predicate MakerOf(trades: seq<Trade>, i: int, id: OrderId) {
    0 <= i < |trades| && trades[i].maker == id
  }

  /** Rows that no trade names stay as they are. */
  lemma {:induction false} OthersKept(o: Orders, trades: seq<Trade>, taker: OrderId, id: OrderId)
    requires taker in o && forall t :: t in trades ==> t.maker in o
    requires id in o && id != taker && forall t :: t in trades ==> t.maker != id
    ensures FillRows(o, trades, taker)[id] == o[id]
    decreases trades
  {
    if trades != [] {
      OthersKept(FillOne(o, trades[0], taker), trades[1..], taker, id);
    }
  }

  lemma {:induction false} TakerFilled(o: Orders, trades: seq<Trade>, taker: OrderId)
    requires taker in o && forall t :: t in trades ==> t.maker in o && t.maker != taker
    ensures FillRows(o, trades, taker)[taker] == o[taker].(filled := o[taker].filled + M.Volume(trades))
    decreases trades
  {
    if trades != [] {
      TakerFilled(FillOne(o, trades[0], taker), trades[1..], taker);
    }
  }

  /** A maker's row is filled by its own trade and by nothing else. */
  lemma {:induction false} MakerFilled(o: Orders, trades: seq<Trade>, taker: OrderId, i: nat)
    requires taker in o && (forall t :: t in trades ==> t.maker in o && t.maker != taker)
    requires i < |trades| && forall j | 0 <= j < |trades| && j != i :: trades[j].maker != trades[i].maker
    ensures FillRows(o, trades, taker)[trades[i].maker] == FillMaker(o[trades[i].maker], trades[i].qty)
    decreases trades
  {
    var one, rest := FillOne(o, trades[0], taker), trades[1..];
    assert trades[i] in trades;
    if i == 0 {
      forall t | t in rest ensures t.maker != trades[0].maker {
        var j :| 0 <= j < |rest| && rest[j] == t;
        assert trades[j + 1].maker != trades[0].maker;
      }
      OthersKept(one, rest, taker, trades[0].maker);
    } else {
      assert trades[0].maker != trades[i].maker;
      MakerFilled(one, rest, taker, i - 1);
    }
  }

  /** A valid event keeps every row in shape, and only moves statuses forward. */
  ghost predicate Forward(a: Row, b: Row) {
    && Terms(a) == Terms(b)
    && (a.Closed() ==> b == a)
    && (b.status.New? ==> b == a)
    && a.filled <= b.filled
  }

  lemma {:induction false} RowsForward(o: Orders, e: Event)
    requires RowsOk(o) && Valid(o, e)
    ensures Rows(o, e).Keys == o.Keys
    ensures RowsOk(Rows(o, e))
    ensures forall id :: id in o ==> Forward(o[id], Rows(o, e)[id])
  {
    if e.SettlementRequested? {
      ValidIds(o, e);
      forall id | id in o ensures RowOk(id, Rows(o, e)[id]) && Forward(o[id], Rows(o, e)[id]) {
        RowForward(o, e, id);
      }
    }
  }

  lemma {:induction false} RowForward(o: Orders, e: Event, id: OrderId)
    requires RowsOk(o) && Valid(o, e) && e.SettlementRequested? && id in o
    ensures RowOk(id, Rows(o, e)[id]) && Forward(o[id], Rows(o, e)[id])
  {
    ValidIds(o, e);
    if id == e.taker {
      TakerFilled(o, e.trades, e.taker);
      VolumeNonNegative(e.trades);
    } else if i :| MakerOf(e.trades, i, id) {
      assert e.trades[i] in e.trades;
      MakerFilled(o, e.trades, e.taker, i);
      assert ValidTrade(o, e.trades[i], o[e.taker]);
    } else {
      forall t | t in e.trades ensures t.maker != id {
        var j :| 0 <= j < |e.trades| && e.trades[j] == t;
        assert !MakerOf(e.trades, j, id);
      }
      OthersKept(o, e.trades, e.taker, id);
    }
  }

  lemma {:induction false} VolumeNonNegative(trades: seq<Trade>)
    requires forall t :: t in trades ==> t.qty > 0.0
    ensures M.Volume(trades) >= 0.0
    ensures trades != [] ==> M.Volume(trades) > 0.0
  {
    if trades != [] {
      assert trades[0] in trades;
      VolumeNonNegative(trades[1..]);
    }
  }

  // One row after a settlement

  lemma {:induction false} SettledMaker(o: Orders, e: Event, i: nat)
    requires RowsOk(o) && Valid(o, e) && e.SettlementRequested? && i < |e.trades|
    ensures e.trades[i].maker in o && e.trades[i].maker in Rows(o, e)
    ensures Rows(o, e)[e.trades[i].maker] == FillMaker(o[e.trades[i].maker], e.trades[i].qty)
  {
    ValidIds(o, e);
    assert e.trades[i] in e.trades;
    MakerFilled(o, e.trades, e.taker, i);
  }

  lemma {:induction false} SettledTaker(o: Orders, e: Event)
    requires RowsOk(o) && Valid(o, e) && e.SettlementRequested?
    ensures e.taker in Rows(o, e)
    ensures var r := o[e.taker].(filled := M.Volume(e.trades));
            Rows(o, e)[e.taker] == r.(status := FinishTaker(r, e).0)
  {
    ValidIds(o, e);
    TakerFilled(o, e.trades, e.taker);
  }

  lemma {:induction false} SettledOther(o: Orders, e: Event, id: OrderId)
    requires RowsOk(o) && Valid(o, e) && e.SettlementRequested?
    requires id in o && id != e.taker && forall t :: t in e.trades ==> t.maker != id
    ensures id in Rows(o, e) && Rows(o, e)[id] == o[id]
  {
    ValidIds(o, e);
    OthersKept(o, e.trades, e.taker, id);
  }

  // Rows and book

  /** One side of the book holds exactly the arrived resting rows of that side, with what they have left. */
  ghost predicate SideLinked(o: Orders, side: Side, s: seq<Order>, at: Arrivals) {
    && (forall x :: x in s ==> x.id in o && Resting(o[x.id]) && x == ToOrder(o[x.id]) && x.side == side)
    && (forall id :: id in o && id in at && Resting(o[id]) && o[id].side == side ==> ToOrder(o[id]) in s)
  }

  ghost predicate Linked(o: Orders, b: M.Book, at: Arrivals) {
    && Ranked(b, at)
    && (forall side: Side :: SideLinked(o, side, b.On(side), at))
    && (forall id :: id in o && id !in at ==> o[id].status.New?)
  }

  predicate NeedsSettlement(r: Row, p: M.Processed) {
    p.trades != [] || r.otype.Market? || p.left == 0.0
  }

  /** The event handleOrderPlaced publishes after matching an order. */
  function MatchEvent(r: Row, p: M.Processed, token: int): Event
    requires IsPair(r.symbol)
  {
    SettlementRequested(r.symbol, r.id, r.lockedAmount, UnlockKey(r).currency, p.left, p.trades, token)
  }

  /** The trades an engine makes for a fresh order. */
  ghost predicate MadeFor(o: Orders, b: M.Book, at: Arrivals, id: OrderId, nid: TradeId, f: M.FillResult) {
    && RowsOk(o) && Linked(o, b, at) && id in o && id !in at
    && var opp := b.On(o[id].side.Opposite());
       && f == M.Fill(o[id].symbol, ToTaker(o[id]), opp, nid)
       && M.FillShape(o[id].symbol, ToTaker(o[id]), opp, nid, f)
  }

  lemma {:induction false} TradeMade(o: Orders, b: M.Book, at: Arrivals, id: OrderId, nid: TradeId, f: M.FillResult,
                                     i: nat)
    requires MadeFor(o, b, at, id, nid, f) && i < |f.trades|
    ensures ValidTrade(o, f.trades[i], o[id])
  {
    var opp := b.On(o[id].side.Opposite());
    assert opp[i] in opp && M.Crosses(ToTaker(o[id]), opp[i]);
  }

  lemma {:induction false} MakersDiffer(o: Orders, b: M.Book, at: Arrivals, id: OrderId, nid: TradeId, f: M.FillResult,
                                        i: nat, j: nat)
    requires MadeFor(o, b, at, id, nid, f) && i < j < |f.trades|
    ensures f.trades[i].maker != f.trades[j].maker && f.trades[i].id != f.trades[j].id
  {
    var opp := b.On(o[id].side.Opposite());
    assert Before(o[id].side.Opposite(), at, opp[i], opp[j]);
  }

  lemma {:induction false} MatchValid(o: Orders, b: M.Book, at: Arrivals, id: OrderId, nid: TradeId, token: int)
    requires RowsOk(o) && Linked(o, b, at) && id in o && id !in at
    ensures var p := M.Process(o[id].symbol, b, ToTaker(o[id]), nid);
            NeedsSettlement(o[id], p) ==> Valid(o, MatchEvent(o[id], p, token))
  {
    var r, t := o[id], ToTaker(o[id]);
    var opp := b.On(r.side.Opposite());
    M.FillHasShape(r.symbol, t, opp, nid);
    var f := M.Fill(r.symbol, t, opp, nid);
    forall tr | tr in f.trades ensures ValidTrade(o, tr, r) {
      var i :| 0 <= i < |f.trades| && f.trades[i] == tr;
      TradeMade(o, b, at, id, nid, f, i);
    }
    forall i, j | 0 <= i < j < |f.trades|
      ensures f.trades[i].maker != f.trades[j].maker && f.trades[i].id != f.trades[j].id
    {
      MakersDiffer(o, b, at, id, nid, f, i, j);
    }
  }

  /** A maker not used up by its trade stays in the book with the rest; one used up is FILLED. */
  lemma {:induction false} MakerRow(m: Row, q: real)
    requires RowOk(m.id, m) && Resting(m) && 0.0 < q <= m.Unfilled()
    ensures q < m.Unfilled() ==>
              Resting(FillMaker(m, q)) && ToOrder(FillMaker(m, q)) == ToOrder(m).(qty := m.Unfilled() - q)
    ensures q == m.Unfilled() ==> !Resting(FillMaker(m, q))
  {
  }

  /** What the matching step provides: the trades of the event come from this fill of that side. */
  ghost predicate Matched(o: Orders, e: Event, opp: seq<Order>, t: Order, f: M.FillResult, at: Arrivals, nid: TradeId) {
    && RowsOk(o) && Valid(o, e) && e.SettlementRequested? && e.taker !in at
    && e.trades == f.trades && M.FillShape(e.symbol, t, opp, nid, f)
    && t.side == o[e.taker].side
    && SideLinked(o, t.side.Opposite(), opp, at) && Queued(t.side.Opposite(), opp, at)
  }

  /** The k-th order of the side: untouched behind the trades, filled by its own trade within them. */
  lemma {:induction false} OrderRow(o: Orders, e: Event, opp: seq<Order>, t: Order, f: M.FillResult, at: Arrivals,
                                    nid: TradeId, k: nat)
    requires Matched(o, e, opp, t, f, at, nid) && k < |opp|
    ensures opp[k].id in o && opp[k].id in Rows(o, e)
    ensures k >= |f.trades| ==> Rows(o, e)[opp[k].id] == o[opp[k].id]
    ensures k < |f.trades| ==> Rows(o, e)[opp[k].id] == FillMaker(o[opp[k].id], f.trades[k].qty)
  {
    assert opp[k] in opp;
    if k >= |f.trades| {
      NotTraded(e, opp, t, f, at, nid, k);
      SettledOther(o, e, opp[k].id);
    } else {
      assert f.trades[k].maker == opp[k].id;
      SettledMaker(o, e, k);
    }
  }

  /** The i-th order left over is the k-th order of the side, reduced if it traded last. */
  lemma {:induction false} RestAt(sym: Symbol, t: Order, opp: seq<Order>, nid: TradeId, f: M.FillResult, i: nat)
    returns (k: nat)
    requires M.FillShape(sym, t, opp, nid, f) && i < |f.rest|
    ensures k < |opp| && f.rest[i] == if k < |f.trades| then opp[k].(qty := opp[k].qty - f.trades[k].qty) else opp[k]
    ensures k < |f.trades| ==> 0.0 < f.trades[k].qty < opp[k].qty
  {
    k := |opp| - |f.rest| + i;
  }

  /** Each order left on the side matches its row again. */
  lemma {:induction false} RestMatchesRow(o: Orders, e: Event, opp: seq<Order>, t: Order, f: M.FillResult,
                                          at: Arrivals, nid: TradeId, i: nat)
    requires Matched(o, e, opp, t, f, at, nid) && i < |f.rest|
    ensures var x, r := f.rest[i], Rows(o, e);
            x.id in r && Resting(r[x.id]) && x == ToOrder(r[x.id]) && x.side == t.side.Opposite()
  {
    var k := RestAt(e.symbol, t, opp, nid, f, i);
    assert opp[k] in opp;
    OrderRow(o, e, opp, t, f, at, nid, k);
    if k < |f.trades| {
      MakerRow(o[opp[k].id], f.trades[k].qty);
    }
  }

  /** What a fill leaves on the side. */
  lemma {:induction false} RestHas(sym: Symbol, t: Order, opp: seq<Order>, nid: TradeId, f: M.FillResult, k: nat)
    requires M.FillShape(sym, t, opp, nid, f) && k < |opp|
    ensures k >= |f.trades| ==> opp[k] in f.rest
    ensures k < |f.trades| && f.trades[k].qty < opp[k].qty ==> opp[k].(qty := opp[k].qty - f.trades[k].qty) in f.rest
  {
    var n := |f.trades|;
    if k >= n {
      assert opp[k] == opp[n..][k - n] && opp[n..][k - n] in f.rest;
    } else if f.trades[k].qty < opp[k].qty {
      assert k == n - 1;
      assert f.rest[0] == opp[k].(qty := opp[k].qty - f.trades[k].qty);
    }
  }

  lemma {:induction false} StillResting(sym: Symbol, t: Order, opp: seq<Order>, nid: TradeId, f: M.FillResult, k: nat,
                                        m: Row, after: Row)
    requires M.FillShape(sym, t, opp, nid, f) && k < |opp| && opp[k] == ToOrder(m)
    requires RowOk(m.id, m) && Resting(m) && Resting(after)
    requires after == if k >= |f.trades| then m else FillMaker(m, f.trades[k].qty)
    ensures ToOrder(after) in f.rest
  {
    RestHas(sym, t, opp, nid, f, k);
    if k < |f.trades| {
      MakerRow(m, f.trades[k].qty);
    }
  }

  lemma {:induction false} WasInBook(o: Orders, e: Event, opp: seq<Order>, t: Order, f: M.FillResult, at: Arrivals,
                                     nid: TradeId, id: OrderId) returns (k: nat)
    requires Matched(o, e, opp, t, f, at, nid)
    requires id in Rows(o, e) && id in at && Resting(Rows(o, e)[id]) && Rows(o, e)[id].side == t.side.Opposite()
    ensures id in o && RowOk(id, o[id]) && Resting(o[id]) && k < |opp| && opp[k] == ToOrder(o[id])
  {
    RowsForward(o, e);
    var before, after := o[id], Rows(o, e)[id];
    assert Forward(before, after);
    assert Terms(before).side == Terms(after).side && Terms(before).otype == Terms(after).otype;
    assert ToOrder(before) in opp;
    k :| 0 <= k < |opp| && opp[k] == ToOrder(before);
  }

  /** Each row still resting is left on the side. */
  lemma {:induction false} RowIsInRest(o: Orders, e: Event, opp: seq<Order>, t: Order, f: M.FillResult, at: Arrivals,
                                       nid: TradeId,
                                       id: OrderId)
    requires Matched(o, e, opp, t, f, at, nid)
    requires id in Rows(o, e) && id in at && Resting(Rows(o, e)[id]) && Rows(o, e)[id].side == t.side.Opposite()
    ensures ToOrder(Rows(o, e)[id]) in f.rest
  {
    var k := WasInBook(o, e, opp, t, f, at, nid, id);
    OrderRow(o, e, opp, t, f, at, nid, k);
    StillResting(e.symbol, t, opp, nid, f, k, o[id], Rows(o, e)[id]);
  }

  lemma {:induction false} OppositeLinked(o: Orders, e: Event, opp: seq<Order>, t: Order, f: M.FillResult,
                                          at: Arrivals, nid: TradeId)
    requires Matched(o, e, opp, t, f, at, nid)
    ensures SideLinked(Rows(o, e), t.side.Opposite(), f.rest, at)
  {
    var side, r := t.side.Opposite(), Rows(o, e);
    forall x | x in f.rest ensures x.id in r && Resting(r[x.id]) && x == ToOrder(r[x.id]) && x.side == side {
      var i :| 0 <= i < |f.rest| && f.rest[i] == x;
      RestMatchesRow(o, e, opp, t, f, at, nid, i);
    }
    forall id | id in r && id in at && Resting(r[id]) && r[id].side == side ensures ToOrder(r[id]) in f.rest {
      RowIsInRest(o, e, opp, t, f, at, nid, id);
    }
  }

  /** Orders behind the last maker are not named by any trade. */
  lemma {:induction false} NotTraded(e: Event, opp: seq<Order>, t: Order, f: M.FillResult, at: Arrivals, nid: TradeId,
                                     k: nat)
    requires e.SettlementRequested? && e.taker !in at && e.trades == f.trades && M.FillShape(e.symbol, t, opp, nid, f)
    requires Queued(t.side.Opposite(), opp, at) && |f.trades| <= k < |opp|
    ensures opp[k].id != e.taker && forall u :: u in e.trades ==> u.maker != opp[k].id
  {
    assert opp[k] in opp;
    forall u | u in e.trades ensures u.maker != opp[k].id {
      var i :| 0 <= i < |f.trades| && f.trades[i] == u;
      assert Before(t.side.Opposite(), at, opp[i], opp[k]);
    }
  }

  /** The taker's own side: only the taker's row changes, and the taker is not in the book yet. */
  lemma {:induction false} OwnSideLinked(o: Orders, e: Event, s: seq<Order>, at: Arrivals)
    requires RowsOk(o) && Valid(o, e) && e.SettlementRequested? && e.taker !in at
    requires SideLinked(o, o[e.taker].side, s, at) && Queued(o[e.taker].side, s, at)
    ensures SideLinked(Rows(o, e), o[e.taker].side, s, at)
  {
    var r := Rows(o, e);
    var side := o[e.taker].side;
    forall id | id in o && id != e.taker && o[id].side == side ensures id in r && r[id] == o[id] {
      forall t | t in e.trades ensures t.maker != id {
        assert ValidTrade(o, t, o[e.taker]);
      }
      SettledOther(o, e, id);
    }
    forall id | id in r && id in at && Resting(r[id]) && r[id].side == side ensures ToOrder(r[id]) in s {
      RowsForward(o, e);
      assert Terms(o[id]).side == Terms(r[id]).side;
    }
  }

  /** The taker's row after its own settlement rests exactly when the engine keeps the rest of it. */
  lemma {:induction false} TakerRests(o: Orders, e: Event)
    requires RowsOk(o) && Valid(o, e) && e.SettlementRequested?
    ensures e.taker in Rows(o, e)
    ensures var r := Rows(o, e)[e.taker];
            && (Resting(r) <==> o[e.taker].otype.Limit? && e.remaining > 0.0)
            && (Resting(r) ==> ToOrder(r) == ToTaker(o[e.taker]).(qty := e.remaining))
            && (r.otype.Market? ==> !r.Open())
            && !r.status.New?
  {
    SettledTaker(o, e);
    VolumeOfValid(o, e);
  }

  lemma {:induction false} VolumeOfValid(o: Orders, e: Event)
    requires Valid(o, e) && e.SettlementRequested?
    ensures M.Volume(e.trades) >= 0.0 && (e.trades != [] ==> M.Volume(e.trades) > 0.0)
  {
    forall t | t in e.trades ensures t.qty > 0.0 {
      assert ValidTrade(o, t, o[e.taker]);
    }
    VolumeNonNegative(e.trades);
  }

  /** A side linked before the arrival stays linked, with the newcomer's row in or out of it. */
  lemma {:induction false} ArrivalLinked(r: Orders, side: Side, s: seq<Order>, more: seq<Order>, at: Arrivals,
                                         id: OrderId, next: Arrivals)
    requires SideLinked(r, side, s, at) && Arrives(at, id, next) && id in r
    requires forall x :: x in more ==> x in s || (x == ToOrder(r[id]) && x.id == id)
    requires forall x :: x in s ==> x in more
    requires Resting(r[id]) && r[id].side == side ==> ToOrder(r[id]) in more
    requires (exists x :: x in more && x !in s) ==> Resting(r[id]) && r[id].side == side
    ensures SideLinked(r, side, more, next)
  {
  }

  /**
   Handing one order to the engine: the event it publishes is valid for the rows, and book and rows
   agree again once that event is applied; without an event they agree at once.
   */
  lemma {:induction false} MatchLinked(o: Orders, b: M.Book, at: Arrivals, next: Arrivals, id: OrderId, nid: TradeId,
                                       token: int)
    requires RowsOk(o) && Linked(o, b, at) && id in o && id !in at && Arrives(at, id, next)
    ensures var p := M.Process(o[id].symbol, b, ToTaker(o[id]), nid);
            if NeedsSettlement(o[id], p)
            then Valid(o, MatchEvent(o[id], p, token)) && Linked(Rows(o, MatchEvent(o[id], p, token)), p.book, next)
            else Linked(o, p.book, next)
  {
    var p := M.Process(o[id].symbol, b, ToTaker(o[id]), nid);
    ProcessRanked(o[id].symbol, b, ToTaker(o[id]), nid, at, next);
    if NeedsSettlement(o[id], p) {
      MatchValid(o, b, at, id, nid, token);
      MatchedLinked(o, b, at, next, id, nid, token);
    } else {
      RestedLinked(o, b, at, next, id, nid);
    }
  }

  /** Membership of the taker's own side after the engine step. */
  lemma {:induction false} OwnSideMembers(b: M.Book, t: Order, sym: Symbol, nid: TradeId, at: Arrivals, next: Arrivals)
    requires Ranked(b, at) && Arrives(at, t.id, next) && t.qty > 0.0
    ensures var p := M.Process(sym, b, t, nid);
            && (forall x :: x in p.book.On(t.side) <==>
                  x in b.On(t.side) || (p.left > 0.0 && t.otype.Limit? && x == t.(qty := p.left)))
            && p.book.On(t.side.Opposite()) == M.Fill(sym, t, b.On(t.side.Opposite()), nid).rest
  {
    var f := M.Fill(sym, t, b.On(t.side.Opposite()), nid);
    var matched := b.With(t.side.Opposite(), f.rest);
    if f.left > 0.0 && t.otype.Limit? {
      QueuedExtend(t.side, b.On(t.side), at, next);
      AddOrderQueued(matched, t.(qty := f.left), next);
    }
  }

  lemma {:induction false} MatchedLinked(o: Orders, b: M.Book, at: Arrivals, next: Arrivals, id: OrderId,
                                         nid: TradeId, token: int)
    requires RowsOk(o) && Linked(o, b, at) && id in o && id !in at && Arrives(at, id, next)
    requires var p := M.Process(o[id].symbol, b, ToTaker(o[id]), nid);
             NeedsSettlement(o[id], p) && Valid(o, MatchEvent(o[id], p, token)) && Ranked(p.book, next)
    ensures var p := M.Process(o[id].symbol, b, ToTaker(o[id]), nid);
            Linked(Rows(o, MatchEvent(o[id], p, token)), p.book, next)
  {
    var t := ToTaker(o[id]);
    var p := M.Process(o[id].symbol, b, t, nid);
    var e := MatchEvent(o[id], p, token);
    var r := Rows(o, e);
    var side, opp := t.side, t.side.Opposite();
    MatchedOpposite(o, b, at, next, id, nid, token);
    MatchedOwn(o, b, at, next, id, nid, token);
    forall s: Side ensures SideLinked(r, s, p.book.On(s), next) {
      assert s == side || s == opp;
    }
    MatchedMakers(o, b, at, id, nid, token);
    SettledStatuses(o, e, at, next);
  }

  /** The situation of MatchLinked when there is something to settle. */
  ghost predicate Matching(o: Orders, b: M.Book, at: Arrivals, id: OrderId, nid: TradeId, token: int) {
    && RowsOk(o) && Ranked(b, at) && (forall side: Side :: SideLinked(o, side, b.On(side), at))
    && id in o && id !in at
    && var p := M.Process(o[id].symbol, b, ToTaker(o[id]), nid);
       NeedsSettlement(o[id], p) && Valid(o, MatchEvent(o[id], p, token))
  }

  lemma {:induction false} IsMatched(o: Orders, b: M.Book, at: Arrivals, id: OrderId, nid: TradeId, token: int)
    requires Matching(o, b, at, id, nid, token)
    ensures var t := ToTaker(o[id]);
            var opp := b.On(t.side.Opposite());
            var p := M.Process(o[id].symbol, b, t, nid);
            Matched(o, MatchEvent(o[id], p, token), opp, t, M.Fill(o[id].symbol, t, opp, nid), at, nid)
  {
    var t := ToTaker(o[id]);
    M.FillHasShape(o[id].symbol, t, b.On(t.side.Opposite()), nid);
    assert SideLinked(o, t.side.Opposite(), b.On(t.side.Opposite()), at);
  }

  lemma {:induction false} MatchedMakers(o: Orders, b: M.Book, at: Arrivals, id: OrderId, nid: TradeId, token: int)
    requires Matching(o, b, at, id, nid, token)
    ensures forall t :: t in M.Process(o[id].symbol, b, ToTaker(o[id]), nid).trades ==> t.maker in at
  {
    var t := ToTaker(o[id]);
    var opp := b.On(t.side.Opposite());
    M.FillHasShape(o[id].symbol, t, opp, nid);
    var trades := M.Fill(o[id].symbol, t, opp, nid).trades;
    forall tr | tr in trades ensures tr.maker in at {
      var i :| 0 <= i < |trades| && trades[i] == tr;
      assert opp[i] in opp;
    }
  }

  lemma {:induction false} MatchedOpposite(o: Orders, b: M.Book, at: Arrivals, next: Arrivals, id: OrderId,
                                           nid: TradeId, token: int)
    requires Matching(o, b, at, id, nid, token) && Arrives(at, id, next)
    ensures var p := M.Process(o[id].symbol, b, ToTaker(o[id]), nid);
            var opp := o[id].side.Opposite();
            SideLinked(Rows(o, MatchEvent(o[id], p, token)), opp, p.book.On(opp), next)
  {
    var t := ToTaker(o[id]);
    var p := M.Process(o[id].symbol, b, t, nid);
    var e := MatchEvent(o[id], p, token);
    var opp := t.side.Opposite();
    var f := M.Fill(o[id].symbol, t, b.On(opp), nid);
    IsMatched(o, b, at, id, nid, token);
    OppositeLinked(o, e, b.On(opp), t, f, at, nid);
    OwnSideMembers(b, t, o[id].symbol, nid, at, next);
    RowsForward(o, e);
    assert Forward(o[id], Rows(o, e)[id]);
    assert Terms(o[id]).side == Terms(Rows(o, e)[id]).side;
    ArrivalLinked(Rows(o, e), opp, f.rest, f.rest, at, id, next);
  }

  lemma {:induction false} MatchedOwn(o: Orders, b: M.Book, at: Arrivals, next: Arrivals, id: OrderId, nid: TradeId,
                                      token: int)
    requires Matching(o, b, at, id, nid, token) && Arrives(at, id, next)
    ensures var p := M.Process(o[id].symbol, b, ToTaker(o[id]), nid);
            SideLinked(Rows(o, MatchEvent(o[id], p, token)), o[id].side, p.book.On(o[id].side), next)
  {
    var t := ToTaker(o[id]);
    var p := M.Process(o[id].symbol, b, t, nid);
    var e := MatchEvent(o[id], p, token);
    assert SideLinked(o, t.side, b.On(t.side), at);
    OwnSideLinked(o, e, b.On(t.side), at);
    OwnSideMembers(b, t, o[id].symbol, nid, at, next);
    TakerRests(o, e);
    RowsForward(o, e);
    assert Forward(o[id], Rows(o, e)[id]);
    assert Terms(o[id]).side == Terms(Rows(o, e)[id]).side;
    ArrivalLinked(Rows(o, e), t.side, b.On(t.side), p.book.On(t.side), at, id, next);
  }

  /** Orders not yet arrived stay NEW. */
  lemma {:induction false} SettledStatuses(o: Orders, e: Event, at: Arrivals, next: Arrivals)
    requires RowsOk(o) && Valid(o, e) && e.SettlementRequested? && Arrives(at, e.taker, next)
    requires forall id :: id in o && id !in at ==> o[id].status.New?
    requires forall t :: t in e.trades ==> t.maker in at
    ensures forall id :: id in Rows(o, e) && id !in next ==> Rows(o, e)[id].status.New?
  {
    var r := Rows(o, e);
    RowsForward(o, e);
    forall id | id in r && id !in next ensures r[id].status.New? {
      SettledOther(o, e, id);
    }
  }

  /** Nothing to settle: the order rests untouched and its row is still NEW. */
  lemma {:induction false} RestedLinked(o: Orders, b: M.Book, at: Arrivals, next: Arrivals, id: OrderId, nid: TradeId)
    requires RowsOk(o) && Linked(o, b, at) && id in o && id !in at && Arrives(at, id, next)
    requires var p := M.Process(o[id].symbol, b, ToTaker(o[id]), nid);
             !NeedsSettlement(o[id], p) && Ranked(p.book, next)
    ensures Linked(o, M.Process(o[id].symbol, b, ToTaker(o[id]), nid).book, next)
  {
    var t := ToTaker(o[id]);
    var p := M.Process(o[id].symbol, b, t, nid);
    RestedFill(o[id].symbol, b, t, nid, at);
    OwnSideMembers(b, t, o[id].symbol, nid, at, next);
    assert t.(qty := p.left) == ToOrder(o[id]);
    forall s: Side ensures SideLinked(o, s, p.book.On(s), next) {
      assert SideLinked(o, s, b.On(s), at);
      assert s == t.side || s == t.side.Opposite();
      ArrivalLinked(o, s, b.On(s), p.book.On(s), at, id, next);
    }
  }

  /** No trades and something left means nothing at all happened to the taker or the other side. */
  lemma {:induction false} RestedFill(sym: Symbol, b: M.Book, t: Order, nid: TradeId, at: Arrivals)
    requires Ranked(b, at) && t.qty > 0.0
    requires var p := M.Process(sym, b, t, nid); p.trades == [] && p.left != 0.0
    ensures M.Process(sym, b, t, nid).left == t.qty
    ensures M.Fill(sym, t, b.On(t.side.Opposite()), nid).rest == b.On(t.side.Opposite())
  {
    var opp := b.On(t.side.Opposite());
    M.FillHasShape(sym, t, opp, nid);
    assert opp[0..] == opp;
  }

  // Cancelling

  lemma {:induction false} CancelLinked(o: Orders, b: M.Book, at: Arrivals, id: OrderId, side: Side, e: Event)
    requires RowsOk(o) && Linked(o, b, at) && e.OrderCanceled? && e.id == id
    requires M.Cancel(b, id, side).1 && id in o && o[id].symbol == e.symbol
    ensures Valid(o, e) && Linked(Rows(o, e), M.Cancel(b, id, side).0, at)
  {
    RemoveIdKeeps(side, b.On(side), id, at);
    CancelRanked(b, id, side, at);
    assert SideLinked(o, side, b.On(side), at);
    var x :| x in b.On(side) && x.id == id;
    assert x == ToOrder(o[id]) && x.side == side;
    var r, after := Rows(o, e), M.Cancel(b, id, side).0;
    assert id in at;
    forall s: Side ensures SideLinked(r, s, after.On(s), at) {
      assert SideLinked(o, s, b.On(s), at);
      CancelSide(o, s, b.On(s), after.On(s), id, at);
    }
  }

  lemma {:induction false} CancelSide(o: Orders, s: Side, was: seq<Order>, now: seq<Order>, id: OrderId, at: Arrivals)
    requires id in o && RowsOk(o) && SideLinked(o, s, was, at)
    requires forall x :: x in now <==> x in was && (x.id != id)
    ensures SideLinked(o[id := o[id].(status := Canceled)], s, now, at)
  {
  }

  /** A cancel that finds nothing leaves the book alone. */
  lemma {:induction false} CancelMissed(b: M.Book, id: OrderId, side: Side)
    requires !M.Cancel(b, id, side).1
    ensures M.Cancel(b, id, side).0 == b
  {
    NotRemoved(b.On(side), id);
  }

  lemma {:induction false} NotRemoved(s: seq<Order>, id: OrderId)
    requires !M.RemoveId(s, id).1
    ensures M.RemoveId(s, id).0 == s
  {
    if s != [] {
      NotRemoved(s[1..], id);
    }
  }
}
