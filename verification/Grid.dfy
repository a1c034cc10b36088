/**
 When settlement needs no rounding: prices in ticks and quantities in lots, with lot and lot times tick on
 the eight-place grid. Orders keep to lots while they are matched and filled.
 */
module Grid {
  import opened Types
  import opened Money
  import opened Settlement
  import opened OrderFlow
  import opened BookInvariant
  import R = Reservation
  import M = Matching

  datatype Unit = Unit(lot: real, tick: real)

  predicate GoodUnit(u: Unit) {
    OnGrid(u.lot) && OnGrid(Worth(u.tick, u.lot))
  }

  function Times(n: int, unit: real): real {
    n as real * unit
  }

  ghost predicate Multiple(x: real, unit: real) {
    exists n :: x == Times(n, unit)
  }

  lemma {:induction false} MultipleClosed(x: real, y: real, unit: real)
    requires Multiple(x, unit) && Multiple(y, unit)
    ensures Multiple(x + y, unit) && Multiple(x - y, unit) && Multiple(0.0, unit)
  {
    var m, n :| x == Times(m, unit) && y == Times(n, unit);
    assert x + y == Times(m + n, unit);
    assert x - y == Times(m - n, unit);
    assert 0.0 == Times(0, unit);
  }

  lemma {:induction false} MultipleOnGrid(x: real, unit: real)
    requires Multiple(x, unit) && OnGrid(unit)
    ensures OnGrid(x)
  {
    var n :| x == Times(n, unit);
    var k := (unit * SCALE).Floor;
    Associate(n as real, unit, SCALE);
    assert n as real * k as real == (n * k) as real;
    assert x * SCALE == (n * k) as real;
  }

  lemma {:induction false} Associate(a: real, b: real, c: real)
    ensures a * b * c == a * (b * c)
  {
  }

  /** A price in ticks times a quantity in lots is on the grid. */
  lemma {:induction false} WorthOnGrid(p: real, q: real, u: Unit)
    requires Multiple(p, u.tick) && Multiple(q, u.lot) && GoodUnit(u)
    ensures OnGrid(Worth(p, q))
  {
    var m, n :| p == Times(m, u.tick) && q == Times(n, u.lot);
    Products(m as real, u.tick, n as real, u.lot);
    assert Worth(p, q) == Times(m * n, Worth(u.tick, u.lot));
    MultipleOnGrid(Worth(p, q), Worth(u.tick, u.lot));
  }

  lemma {:induction false} Products(a: real, b: real, c: real, d: real)
    ensures (a * b) * (c * d) == (a * c) * (b * d)
  {
  }

  ghost predicate GridRow(r: Row, u: Unit) {
    && Multiple(r.qty, u.lot) && Multiple(r.filled, u.lot) && (r.otype.Limit? ==> Multiple(r.price, u.tick))
    && OnGrid(r.lockedAmount)
  }

  ghost predicate GridRows(o: Orders, u: Unit) {
    forall id :: id in o ==> GridRow(o[id], u)
  }

  ghost predicate InLots(trades: seq<Trade>, u: Unit) {
    forall t :: t in trades ==> Multiple(t.qty, u.lot)
  }

  ghost predicate GridEvent(e: Event, u: Unit) {
    e.SettlementRequested? ==> InLots(e.trades, u)
  }

  lemma {:induction false} VolumeInLots(trades: seq<Trade>, u: Unit)
    requires InLots(trades, u)
    ensures Multiple(M.Volume(trades), u.lot)
  {
    if trades == [] {
      assert 0.0 == Times(0, u.lot);
    } else {
      assert trades[0] in trades;
      VolumeInLots(trades[1..], u);
      MultipleClosed(trades[0].qty, M.Volume(trades[1..]), u.lot);
    }
  }

  /** Rows stay in lots when an event in lots is applied. */
  lemma {:induction false} RowsInLots(o: Orders, e: Event, u: Unit)
    requires RowsOk(o) && Valid(o, e) && GridRows(o, u) && GridEvent(e, u)
    ensures GridRows(Rows(o, e), u)
  {
    RowsForward(o, e);
    forall id | id in o ensures GridRow(Rows(o, e)[id], u) {
      RowInLots(o, e, u, id);
    }
  }

  lemma {:induction false} RowInLots(o: Orders, e: Event, u: Unit, id: OrderId)
    requires RowsOk(o) && Valid(o, e) && GridRows(o, u) && GridEvent(e, u) && id in o
    ensures id in Rows(o, e) && GridRow(Rows(o, e)[id], u)
  {
    if e.SettlementRequested? {
      if id == e.taker {
        SettledTaker(o, e);
        VolumeInLots(e.trades, u);
      } else if i :| MakerOf(e.trades, i, id) {
        SettledMaker(o, e, i);
        assert e.trades[i] in e.trades && GridRow(o[id], u);
        MultipleClosed(o[id].filled, e.trades[i].qty, u.lot);
      } else {
        forall t | t in e.trades ensures t.maker != id {
          var j :| 0 <= j < |e.trades| && e.trades[j] == t;
          assert !MakerOf(e.trades, j, id);
        }
        SettledOther(o, e, id);
      }
    }
  }

  /** Matching orders in lots trades in lots. */
  lemma {:induction false} FillInLots(sym: Symbol, t: Order, opp: seq<Order>, nid: TradeId, u: Unit)
    requires Multiple(t.qty, u.lot) && forall x :: x in opp ==> Multiple(x.qty, u.lot)
    ensures InLots(M.Fill(sym, t, opp, nid).trades, u)
    decreases opp
  {
    if opp != [] && t.user != opp[0].user && M.Crosses(t, opp[0]) {
      assert opp[0] in opp;
      if t.qty > opp[0].qty {
        MultipleClosed(t.qty, opp[0].qty, u.lot);
        FillInLots(sym, t.(qty := t.qty - opp[0].qty), opp[1..], nid + 1, u);
      }
    }
  }

  lemma {:induction false} MatchInLots(o: Orders, b: M.Book, at: Arrivals, id: OrderId, nid: TradeId, token: int,
                                       u: Unit)
    requires RowsOk(o) && Linked(o, b, at) && id in o && GridRows(o, u)
    ensures GridEvent(MatchEvent(o[id], M.Process(o[id].symbol, b, ToTaker(o[id]), nid), token), u)
  {
    var opp := b.On(o[id].side.Opposite());
    assert SideLinked(o, o[id].side.Opposite(), opp, at);
    forall x | x in opp ensures Multiple(x.qty, u.lot) {
      assert GridRow(o[x.id], u);
      MultipleClosed(o[x.id].qty, o[x.id].filled, u.lot);
    }
    assert GridRow(o[id], u);
    FillInLots(o[id].symbol, ToTaker(o[id]), opp, nid, u);
  }

  lemma {:induction false} TradeOnGrid(o: Orders, t: Trade, taker: Row, u: Unit)
    requires GoodUnit(u) && GridRows(o, u) && GridRow(taker, u) && ValidTrade(o, t, taker) && Multiple(t.qty, u.lot)
    ensures R.ExactTrade(t, taker)
  {
    assert GridRow(o[t.maker], u);
    MultipleOnGrid(t.qty, u.lot);
    WorthOnGrid(t.price, t.qty, u);
    if taker.otype.Limit? {
      WorthOnGrid(taker.price, t.qty, u);
    }
  }

  lemma {:induction false} ValueOnGrid(trades: seq<Trade>)
    requires forall t :: t in trades ==> OnGrid(Worth(t.price, t.qty))
    ensures OnGrid(M.Value(trades))
  {
    if trades != [] {
      assert trades[0] in trades;
      ValueOnGrid(trades[1..]);
      GridClosed(Worth(trades[0].price, trades[0].qty), M.Value(trades[1..]));
    }
  }

  lemma {:induction false} RefundOnGrid(o: Orders, e: Event, u: Unit)
    requires GoodUnit(u) && e.SettlementRequested? && Valid(o, e) && GridRows(o, u) && GridEvent(e, u)
    requires forall t :: t in e.trades ==> R.ExactTrade(t, o[e.taker])
    ensures OnGrid(R.RefundOf(o[e.taker], e))
  {
    var r := o[e.taker];
    assert GridRow(r, u);
    ValueOnGrid(e.trades);
    GridClosed(e.amountLocked, M.Value(e.trades));
    VolumeInLots(e.trades, u);
    MultipleClosed(r.qty, M.Volume(e.trades), u.lot);
    MultipleOnGrid(r.qty - M.Volume(e.trades), u.lot);
    MultipleOnGrid(0.0, u.lot);
    if r.otype.Limit? {
      WorthOnGrid(r.price, r.qty - M.Volume(e.trades), u);
    }
  }

  /** In lots and ticks every amount of a settlement is on the grid, so its rounding does nothing. */
  lemma {:induction false} GridIsExact(o: Orders, sym: Symbol, e: Event, u: Unit)
    requires GoodUnit(u) && RowsOk(o) && Valid(o, e) && GridRows(o, u) && GridEvent(e, u) && R.Affordable(o, e)
    requires forall id :: id in o ==> o[id].symbol == sym
    ensures R.Exact(o, e)
  {
    if e.SettlementRequested? {
      forall t | t in e.trades
        ensures R.ExactTrade(t, o[e.taker]) && t.maker in o && o[t.maker].symbol == o[e.taker].symbol
      {
        assert ValidTrade(o, t, o[e.taker]);
        TradeOnGrid(o, t, o[e.taker], u);
      }
      RefundOnGrid(o, e, u);
    }
  }

  // What is moved is always on the grid

  lemma {:induction false} NegativeOnGrid(x: real)
    requires OnGrid(x)
    ensures OnGrid(-x)
  {
    var n := (x * SCALE).Floor;
    assert -x * SCALE == (-n) as real;
  }

  lemma {:induction false} TradeMovesOnGrid(t: Trade, taker: Row, maker: Row)
    requires IsPair(taker.symbol)
    ensures forall u :: u in TradeUpdates(t, taker, maker) ==> OnGrid(u.amount) && OnGrid(u.unlock)
  {
    var worth := Worth(t.price, t.qty);
    RoundOnGrid(worth);
    RoundOnGrid(t.qty);
    RoundOnGrid(Worth(taker.price, t.qty));
    NegativeOnGrid(Round8(worth));
    NegativeOnGrid(Round8(t.qty));
  }

  lemma {:induction false} AllTradesMoveOnGrid(o: Orders, trades: seq<Trade>, taker: OrderId)
    requires taker in o && forall t :: t in trades ==> t.maker in o
    ensures forall u :: u in AllTradeUpdates(o, trades, taker) ==> OnGrid(u.amount) && OnGrid(u.unlock)
    decreases trades
  {
    if trades != [] && IsPair(o[taker].symbol) {
      TradeMovesOnGrid(trades[0], o[taker], o[trades[0].maker]);
      AllTradesMoveOnGrid(o, trades[1..], taker);
    }
  }

  /** Whatever prices and quantities are, a settlement moves and releases only amounts of eight decimal places. */
  lemma {:induction false} SettlesOnGrid(o: Orders, e: Event)
    requires e.SettlementRequested? && OrderIds(e) <= o.Keys
    ensures forall u :: u in SettlementUpdates(o, e) ==> OnGrid(u.amount) && OnGrid(u.unlock)
  {
    forall t | t in e.trades ensures t.maker in o {
      assert t.maker in OrderIds(e);
    }
    AllTradesMoveOnGrid(o, e.trades, e.taker);
    var taker := FillRows(o, e.trades, e.taker)[e.taker];
    RoundOnGrid(FinishTaker(taker, e).1);
  }
}
