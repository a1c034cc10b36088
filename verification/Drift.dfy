/** Over the life of a limit buy: what rounding adds to or takes from the funds its fills release. */
module Drift {
  import opened Types
  import opened Money
  import opened Settlement
  import opened Exchange
  import opened Ledger
  import opened Reservation
  import opened OrderFlow
  import opened Placement
  import opened Streams
  import Subscriber

  predicate Names(t: Trade, id: OrderId) {
    t.maker == id || t.taker == id
  }

  function Fills(trades: seq<Trade>, id: OrderId): nat {
    if trades == [] then 0 else (if Names(trades[0], id) then 1 else 0) + Fills(trades[1..], id)
  }

  /** The rounded unlock of one fill, taken or made. */
  function FillUnlock(t: Trade, r: Row): real {
    Round8(if t.taker == r.id then TakerUnlock(t, r) else MakerUnlock(t, r))
  }

  function Unlocks(trades: seq<Trade>, r: Row): real {
    if trades == [] then 0.0
    else (if Names(trades[0], r.id) then FillUnlock(trades[0], r) else 0.0) + Unlocks(trades[1..], r)
  }

  /** A limit buy trades at its own price whenever it is the maker. */
  ghost predicate OwnPrice(trades: seq<Trade>, r: Row) {
    forall t :: t in trades && t.maker == r.id ==> t.price == r.price
  }

  lemma {:induction false} FillsDrift(trades: seq<Trade>, r: Row)
    requires r.side.Buy? && r.otype.Limit? && OwnPrice(trades, r)
    ensures var d := Unlocks(trades, r) - Worth(r.price, TradeSum(trades, r.id));
            -Halves(Fills(trades, r.id)) <= d <= Halves(Fills(trades, r.id))
    ensures (forall t :: t in trades && Names(t, r.id) ==> OnGrid(Worth(r.price, t.qty))) ==>
              Unlocks(trades, r) == Worth(r.price, TradeSum(trades, r.id))
  {
    if trades == [] {
      assert Worth(r.price, 0.0) == 0.0;
    } else {
      var t, rest := trades[0], trades[1..];
      assert t in trades;
      FillsDrift(rest, r);
      if Names(t, r.id) {
        assert FillUnlock(t, r) == Round8(Worth(r.price, t.qty));
        RoundError(Worth(r.price, t.qty));
        RoundExact(Worth(r.price, t.qty));
        WorthAdd(r.price, t.qty, TradeSum(rest, r.id));
      }
    }
  }

  /** The refund of a taker whose rest was dropped, rounded as the settlement rounds it. */
  function Refund(r: Row): real {
    if r.qty - r.filled > 0.0 then Round8(Worth(r.price, r.qty - r.filled)) else 0.0
  }

  ghost predicate FillsOnGrid(trades: seq<Trade>, r: Row) {
    OnGrid(Worth(r.price, r.qty - r.filled)) && forall t :: t in trades && Names(t, r.id) ==>
        OnGrid(Worth(r.price, t.qty))
  }

  lemma {:induction false} OwnPrices(s: State, id: OrderId)
    requires TradesOk(s) && id in s.db.orders && s.db.orders[id].id == id
    ensures OwnPrice(s.db.trades, s.db.orders[id])
  {
    forall t | t in s.db.trades && t.maker == id ensures t.price == s.db.orders[id].price {
      assert TradeOk(s, t);
    }
  }

  // The unlocks a run issues

  /** The unlock a trade issues for its buyer, if that is the order. */
  function TradeIssues(o: Orders, t: Trade, taker: OrderId, id: OrderId): real
    requires taker in o && t.maker in o && IsPair(o[taker].symbol)
  {
    var buyer := if o[taker].side.Buy? then taker else t.maker;
    if buyer == id then TradeUpdates(t, o[taker], o[t.maker])[0].unlock else 0.0
  }

  function TradesIssue(o: Orders, trades: seq<Trade>, taker: OrderId, id: OrderId): real
    requires taker in o && IsPair(o[taker].symbol) && forall t :: t in trades ==> t.maker in o
  {
    if trades == [] then 0.0 else TradeIssues(o, trades[0], taker, id) + TradesIssue(o, trades[1..], taker, id)
  }

  /** What an applied event unlocks for a buy order: its trades', its refund, or what a cancel gives back. */
  ghost function Issues(o: Orders, e: Event, id: OrderId): real {
    if e.OrderCanceled? then (if e.id == id && id in o then UnlockAmount(o[id]) else 0.0)
    else if !(OrderIds(e) <= o.Keys) || !IsPair(o[e.taker].symbol) then 0.0
    else
      assert forall t :: t in e.trades ==> t.maker in OrderIds(e);
      TradesIssue(o, e.trades, e.taker, id)
      + if e.taker == id then RefundIssues(FinishTaker(FillRows(o, e.trades, e.taker)[id], e).1) else 0.0
  }

  function RefundIssues(refund: real): real {
    if refund > 0.0 then Round8(refund) else 0.0
  }

  /** ... counted when its delivery commits. */
  ghost function StepIssues(s: State, a: Action, id: OrderId): real
    requires Enabled(s, a)
  {
    match a
    case Consume(sym) =>
      if Deliver(s.db, s.Queue(sym)[0]).Committed? then Issues(s.db.orders, s.Queue(sym)[0], id) else 0.0
    case Redeliver(e) => if Deliver(s.db, e).Committed? then Issues(s.db.orders, e, id) else 0.0
    case Stray(e) => if Deliver(s.db, e).Committed? then Issues(s.db.orders, e, id) else 0.0
    case _ => 0.0
  }

  ghost function Issued(s: State, run: seq<Action>, id: OrderId): real
    requires Legal(s, run)
    decreases run
  {
    if run == [] then 0.0 else StepIssues(s, run[0], id) + Issued(Step(s, run[0]), run[1..], id)
  }

  predicate LimitBuy(r: Row) {
    r.side.Buy? && r.otype.Limit?
  }

  /** The unlocks of the trade rows; a canceled order also got its rest back, rounded or not. */
  predicate Accounts(total: real, trades: seq<Trade>, r: Row) {
    var rest := total - Unlocks(trades, r);
    if r.status.Canceled? then rest == Refund(r) || rest == Worth(r.price, r.Unfilled()) else rest == 0.0
  }

  ghost predicate AccountsOf(total: real, o: Orders, trades: seq<Trade>, id: OrderId) {
    if id in o then LimitBuy(o[id]) ==> Accounts(total, trades, o[id]) else total == 0.0
  }

  ghost predicate AccountsFor(total: real, db: DB, id: OrderId) {
    AccountsOf(total, db.orders, db.trades, id)
  }

  lemma {:induction false} UnlocksConcat(a: seq<Trade>, b: seq<Trade>, r: Row)
    ensures Unlocks(a + b, r) == Unlocks(a, r) + Unlocks(b, r)
  {
    if a == [] {
      assert a + b == b;
    } else {
      assert (a + b)[1..] == a[1..] + b;
      UnlocksConcat(a[1..], b, r);
    }
  }

  predicate SameDeal(a: Row, b: Row) {
    a.id == b.id && a.side == b.side && a.otype == b.otype && a.price == b.price && a.qty == b.qty
  }

  lemma {:induction false} UnlocksKept(trades: seq<Trade>, a: Row, b: Row)
    requires SameDeal(a, b)
    ensures Unlocks(trades, a) == Unlocks(trades, b)
  {
    if trades != [] {
      UnlocksKept(trades[1..], a, b);
    }
  }

  lemma {:induction false} UnlocksAbsent(trades: seq<Trade>, r: Row)
    requires forall t :: t in trades ==> !Names(t, r.id)
    ensures Unlocks(trades, r) == 0.0
  {
    if trades != [] {
      assert trades[0] in trades;
      UnlocksAbsent(trades[1..], r);
    }
  }

  lemma {:induction false} ForwardDeal(a: Row, b: Row)
    requires Forward(a, b)
    ensures SameDeal(a, b)
  {
    assert Subscriber.Terms(a).id == a.id && Subscriber.Terms(b).id == b.id;
    assert Subscriber.Terms(a).side == a.side && Subscriber.Terms(b).side == b.side;
    assert Subscriber.Terms(a).otype == a.otype && Subscriber.Terms(b).otype == b.otype;
    assert Subscriber.Terms(a).price == a.price && Subscriber.Terms(b).price == b.price;
    assert Subscriber.Terms(a).qty == a.qty && Subscriber.Terms(b).qty == b.qty;
  }

  /** Movement for movement, the trades of a settlement issue the unlocks of the trade rows. */
  lemma {:induction false} TradeIssuesUnlock(o: Orders, t: Trade, taker: OrderId, id: OrderId)
    requires taker in o && RowOk(taker, o[taker]) && ValidTrade(o, t, o[taker]) && RowOk(t.maker, o[t.maker])
    requires id in o && RowOk(id, o[id]) && LimitBuy(o[id])
    ensures TradeIssues(o, t, taker, id) == if Names(t, id) then FillUnlock(t, o[id]) else 0.0
  {
  }

  lemma {:induction false} TradesIssueUnlocks(o: Orders, trades: seq<Trade>, taker: OrderId, id: OrderId)
    requires RowsOk(o) && taker in o && forall t :: t in trades ==> t.maker in o && ValidTrade(o, t, o[taker])
    requires id in o && LimitBuy(o[id])
    ensures TradesIssue(o, trades, taker, id) == Unlocks(trades, o[id])
  {
    if trades != [] {
      assert trades[0] in trades;
      TradeIssuesUnlock(o, trades[0], taker, id);
      TradesIssueUnlocks(o, trades[1..], taker, id);
    }
  }

  lemma {:induction false} SettlementIssues(o: Orders, e: Event, trades: seq<Trade>, id: OrderId, total: real)
    requires RowsOk(o) && Valid(o, e) && e.SettlementRequested? && id in o && LimitBuy(o[id])
    requires Accounts(total, trades, o[id])
    ensures id in Rows(o, e) && Accounts(total + Issues(o, e, id), trades + e.trades, Rows(o, e)[id])
  {
    ValidIds(o, e);
    RowsForward(o, e);
    ForwardDeal(o[id], Rows(o, e)[id]);
    TradesIssueUnlocks(o, e.trades, e.taker, id);
    UnlocksConcat(trades, e.trades, o[id]);
    UnlocksKept(trades + e.trades, o[id], Rows(o, e)[id]);
    if id == e.taker {
      TakerIssues(o, e);
    } else {
      NotCanceled(o, e, id);
    }
  }

  lemma {:induction false} TakerIssues(o: Orders, e: Event)
    requires RowsOk(o) && Valid(o, e) && e.SettlementRequested? && LimitBuy(o[e.taker])
    ensures OrderIds(e) <= o.Keys && e.taker in Rows(o, e) && !o[e.taker].status.Canceled?
    ensures var r := Rows(o, e)[e.taker];
            RefundIssues(FinishTaker(FillRows(o, e.trades, e.taker)[e.taker], e).1) ==
            if r.status.Canceled? then Refund(r) else 0.0
  {
    ValidIds(o, e);
    TakerFilled(o, e.trades, e.taker);
    SettledTaker(o, e);
    var r := Rows(o, e)[e.taker];
    if r.status.Canceled? {
      PositiveWorth(r.price, r.qty - r.filled);
    }
  }

  lemma {:induction false} PositiveWorth(p: real, q: real)
    requires p > 0.0 && q > 0.0
    ensures Worth(p, q) > 0.0
  {
  }

  /** A settlement cancels nobody but its taker. */
  lemma {:induction false} NotCanceled(o: Orders, e: Event, id: OrderId)
    requires RowsOk(o) && Valid(o, e) && e.SettlementRequested? && id in o && id != e.taker
    ensures id in Rows(o, e)
    ensures Rows(o, e)[id] == o[id] || (!o[id].status.Canceled? && !Rows(o, e)[id].status.Canceled?)
  {
    if i :| MakerOf(e.trades, i, id) {
      assert ValidTrade(o, e.trades[i], o[e.taker]);
      SettledMaker(o, e, i);
    } else {
      forall t | t in e.trades ensures t.maker != id {
        var j :| 0 <= j < |e.trades| && e.trades[j] == t;
        assert !MakerOf(e.trades, j, id);
      }
      SettledOther(o, e, id);
    }
  }

  lemma {:induction false} ConsumeIssues(s: State, sym: Symbol, id: OrderId, total: real)
    requires Inv(s) && s.Queue(sym) != [] && AccountsFor(total, s.db, id)
    ensures AccountsFor(total + StepIssues(s, Consume(sym), id), AfterConsume(s, sym).db, id)
  {
    var e, o := s.Queue(sym)[0], s.db.orders;
    HeadReady(s, sym);
    HeadDelivered(s, sym);
    if Deliver(s.db, e).Committed? {
      EventIssues(o, e, s.db.trades, id, total);
    }
  }

  lemma {:induction false} EventIssues(o: Orders, e: Event, trades: seq<Trade>, id: OrderId, total: real)
    requires RowsOk(o) && Valid(o, e) && AccountsOf(total, o, trades, id)
    ensures AccountsOf(total + Issues(o, e, id), Rows(o, e), trades + TradesOf(e), id)
  {
    RowsForward(o, e);
    if id !in o {
      NothingIssued(o, e, id);
    } else {
      ForwardDeal(o[id], Rows(o, e)[id]);
      if e.OrderCanceled? {
        CancelIssues(o, e, trades, id, total);
      } else if LimitBuy(o[id]) {
        SettlementIssues(o, e, trades, id, total);
      }
    }
  }

  lemma {:induction false} CancelIssues(o: Orders, e: Event, trades: seq<Trade>, id: OrderId, total: real)
    requires RowsOk(o) && Valid(o, e) && e.OrderCanceled? && id in o
    requires LimitBuy(o[id]) ==> Accounts(total, trades, o[id])
    ensures id in Rows(o, e)
    ensures LimitBuy(Rows(o, e)[id]) ==> Accounts(total + Issues(o, e, id), trades + TradesOf(e), Rows(o, e)[id])
  {
    assert trades + [] == trades;
    UnlocksKept(trades, o[id], Rows(o, e)[id]);
  }

  lemma {:induction false} NothingIssued(o: Orders, e: Event, id: OrderId)
    requires RowsOk(o) && Valid(o, e) && id !in o
    ensures Issues(o, e, id) == 0.0
  {
    if e.SettlementRequested? {
      ValidIds(o, e);
      NoTradeIssues(o, e.trades, e.taker, id);
    }
  }

  lemma {:induction false} NoTradeIssues(o: Orders, trades: seq<Trade>, taker: OrderId, id: OrderId)
    requires taker in o && IsPair(o[taker].symbol) && id !in o && forall t :: t in trades ==> t.maker in o
    ensures TradesIssue(o, trades, taker, id) == 0.0
  {
    if trades != [] {
      assert trades[0] in trades;
      NoTradeIssues(o, trades[1..], taker, id);
    }
  }

  /** Admitting orders issues nothing, and a new order is named by no trade. */
  lemma {:induction false} AdmitIssues(db: DB, rs: seq<Request>, ids: seq<OrderId>, now: int, snaps: Snapshots,
                                       id: OrderId,
                                       total: real)
    requires |rs| == |ids| && AccountsFor(total, db, id) && AdmitAll(db, rs, ids, now, snaps).Some?
    requires forall t :: t in db.trades ==> t.maker in db.orders && t.taker in db.orders
    ensures AccountsFor(total, AdmitAll(db, rs, ids, now, snaps).value, id)
    decreases rs
  {
    if rs != [] {
      var next := Admit(db, rs[0], ids[0], now, snaps).value;
      if id == ids[0] {
        UnlocksAbsent(db.trades, next.orders[id]);
      }
      AdmitIssues(next, rs[1..], ids[1..], now, snaps, id, total);
    }
  }

  lemma {:induction false} TradeNames(s: State)
    requires TradesOk(s)
    ensures forall t :: t in s.db.trades ==> t.maker in s.db.orders && t.taker in s.db.orders
  {
    forall t | t in s.db.trades ensures t.maker in s.db.orders && t.taker in s.db.orders {
      assert TradeOk(s, t);
    }
  }

  lemma {:induction false} PlaceIssues(s: State, a: Action, id: OrderId, total: real)
    requires Inv(s) && Enabled(s, a) && (a.PlaceOne? || a.PlaceMany?) && AccountsFor(total, s.db, id)
    ensures AccountsFor(total, Step(s, a).db, id)
  {
    TradeNames(s);
    match a
    case PlaceOne(r, oid, now, snaps) =>
      if Place(s.db, r, oid, now, snaps).Some? {
        AdmitOne(s.db, r, oid, now, snaps);
        AdmitIssues(s.db, [r], [oid], now, snaps, id, total);
      }
    case PlaceMany(rs, ids, now, snaps) =>
      BatchAdmits(s.db, rs, ids, now, snaps);
      if AdmitAll(s.db, rs, ids, now, snaps).Some? {
        AdmitIssues(s.db, rs, ids, now, snaps, id, total);
      }
  }

  lemma {:induction false} StepAccounts(s: State, a: Action, id: OrderId, total: real)
    requires Inv(s) && Enabled(s, a) && AccountsFor(total, s.db, id)
    ensures AccountsFor(total + StepIssues(s, a, id), Step(s, a).db, id)
  {
    match a
    case Consume(sym) => ConsumeIssues(s, sym, id, total);
    case Redeliver(e) => SpentSkips(s.db, e);
    case Stray(e) => SpentSkips(s.db, e);
    case _ =>
      if a.PlaceOne? || a.PlaceMany? {
        PlaceIssues(s, a, id, total);
      }
  }

  lemma {:induction false} RunAccounts(s: State, run: seq<Action>, id: OrderId, total: real)
    requires Inv(s) && Legal(s, run) && AccountsFor(total, s.db, id)
    ensures AccountsFor(total + Issued(s, run, id), End(s, run).db, id)
    decreases run
  {
    if run != [] {
      StepInv(s, run[0]);
      StepAccounts(s, run[0], id, total);
      RunAccounts(Step(s, run[0]), run[1..], id, total + StepIssues(s, run[0], id));
    }
  }

  // The bound

  /** What a limit buy has no more use for: what it filled, and all of it once it is canceled. */
  function Released(r: Row): real {
    if r.status.Canceled? then r.qty else r.filled
  }

  /** Half a unit per trade, half a unit for the refund of a canceled order, and nothing at all on the grid. */
  ghost predicate DriftBounded(total: real, trades: seq<Trade>, r: Row) {
    var d, n := total - Worth(r.price, Released(r)), Fills(trades, r.id) + if r.status.Canceled? then 1 else 0;
    -Halves(n) <= d <= Halves(n) && (FillsOnGrid(trades, r) ==> d == 0.0)
  }

  lemma {:induction false} AccountedDrift(total: real, trades: seq<Trade>, r: Row)
    requires LimitBuy(r) && OwnPrice(trades, r) && r.filled <= r.qty && r.filled == TradeSum(trades, r.id)
    requires Accounts(total, trades, r)
    ensures DriftBounded(total, trades, r)
  {
    var rest := r.qty - r.filled;
    FillsDrift(trades, r);
    RoundError(Worth(r.price, rest));
    RoundExact(Worth(r.price, rest));
    WorthAdd(r.price, r.filled, rest);
    assert Worth(r.price, 0.0) == 0.0;
  }

  lemma {:induction false} StateDrift(s: State, id: OrderId, total: real)
    requires Inv(s) && id in s.db.orders && LimitBuy(s.db.orders[id]) && AccountsFor(total, s.db, id)
    ensures DriftBounded(total, s.db.trades, s.db.orders[id])
  {
    assert RowOk(id, s.db.orders[id]) && s.db.orders[id].filled == TradeSum(s.db.trades, id);
    OwnPrices(s, id);
    AccountedDrift(total, s.db.trades, s.db.orders[id]);
  }

  /**
   In every reachable state, all the unlocks the run has issued for a limit buy, as taker, as maker, by refund or
   by cancel, add up to price times what it has released, within DriftBounded; for an order that is FILLED or
   CANCELED that is price times quantity.
   */
  lemma {:induction false} LifetimeDrift(fence: Option<nat>, run: seq<Action>, s: State, id: OrderId)
    requires Legal(Start(fence), run) && s == End(Start(fence), run)
    requires id in s.db.orders && LimitBuy(s.db.orders[id])
    ensures DriftBounded(Issued(Start(fence), run, id), s.db.trades, s.db.orders[id])
    ensures s.db.orders[id].Closed() ==> Released(s.db.orders[id]) == s.db.orders[id].qty
  {
    StartInv(fence);
    RunInv(Start(fence), run);
    RunAccounts(Start(fence), run, id, 0.0);
    StateDrift(s, id, Issued(Start(fence), run, id));
    assert RowOk(id, s.db.orders[id]);
  }
}
