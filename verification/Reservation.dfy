/**
 Reservations: what an account has locked is what the open orders paid from it may still need.
 Each transaction moves both by the same amount.
 */
module Reservation {
  import opened Types
  import opened Money
  import opened Sums
  import opened Accounts
  import opened Settlement
  import opened OrderFlow
  import opened Placement
  import Subscriber
  import M = Matching

  /** What an order still reserves. */
  function Reserve(r: Row): real {
    if !r.Open() then 0.0
    else if r.side.Sell? then r.Unfilled()
    else if r.otype.Limit? then Worth(r.price, r.Unfilled())
    else r.lockedAmount
  }

  function ReserveOn(r: Row, k: Key): real {
    if IsPair(r.symbol) && UnlockKey(r) == k then Reserve(r) else 0.0
  }

  function ReserveAt(orders: Orders, k: Key): OrderId -> real {
    (id: OrderId) => if id in orders then ReserveOn(orders[id], k) else 0.0
  }

  /** All that open orders reserve from one account. */
  ghost function Reserved(orders: Orders, k: Key): real {
    Sum(orders.Keys, ReserveAt(orders, k))
  }

  /** The `locked` column is exactly what open orders reserve, and each order reserves from an existing account. */
  ghost predicate Backed(orders: Orders, t: Table) {
    (forall k :: k in t ==> t[k].locked == Reserved(orders, k)) && RowsBacked(orders, t)
  }

  ghost predicate RowsBacked(orders: Orders, t: Table) {
    forall id :: id in orders ==> RowBacked(orders[id], t)
  }

  predicate RowBacked(r: Row, t: Table) {
    IsPair(r.symbol) && UnlockKey(r) in t && r.lockedAmount >= 0.0
  }

  /** No rounding happens: all amounts of the settlement are on the grid. */
  ghost predicate ExactTrade(t: Trade, taker: Row) {
    OnGrid(t.qty) && OnGrid(Worth(t.price, t.qty)) && (taker.otype.Limit? ==> OnGrid(Worth(taker.price, t.qty)))
  }

  function RefundOf(r: Row, e: Event): real
    requires e.SettlementRequested?
  {
    FinishTaker(r.(filled := M.Volume(e.trades)), e).1
  }

  /** The event needs no rounding, and a market buy costs no more than was locked for it. */
  ghost predicate Exact(o: Orders, e: Event) {
    e.SettlementRequested? ==>
      && e.taker in o
      && (forall t :: t in e.trades ==> ExactTrade(t, o[e.taker]))
      && OnGrid(RefundOf(o[e.taker], e)) && OneSymbol(o, e) && Affordable(o, e)
  }

  lemma {:induction false} WorthAdd(p: real, a: real, b: real)
    ensures Worth(p, a + b) == Worth(p, a) + Worth(p, b)
  {
  }

  lemma {:induction false} ReserveNonNegative(id: OrderId, r: Row)
    requires RowOk(id, r) && r.lockedAmount >= 0.0
    ensures Reserve(r) >= 0.0
  {
    if r.otype.Limit? {
      WorthSign(r.price, r.Unfilled());
    }
  }

  lemma {:induction false} ReservedNonNegative(orders: Orders, k: Key)
    requires RowsOk(orders) && forall id :: id in orders ==> orders[id].lockedAmount >= 0.0
    ensures Reserved(orders, k) >= 0.0
  {
    forall id | id in orders.Keys ensures ReserveAt(orders, k)(id) >= 0.0 {
      ReserveNonNegative(id, orders[id]);
    }
    SumNonNegative(orders.Keys, ReserveAt(orders, k));
  }

  /** Rewriting one row changes one account's reservations by that row's. */
  lemma {:induction false} RowRewritten(orders: Orders, id: OrderId, r: Row, k: Key)
    requires id in orders
    ensures Reserved(orders[id := r], k) == Reserved(orders, k) - ReserveOn(orders[id], k) + ReserveOn(r, k)
  {
    assert orders[id := r].Keys == orders.Keys;
    SumPoint(orders.Keys, ReserveAt(orders, k), ReserveAt(orders[id := r], k), id);
  }

  lemma {:induction false} RowAdded(orders: Orders, id: OrderId, r: Row, k: Key)
    requires id !in orders
    ensures Reserved(orders[id := r], k) == Reserved(orders, k) + ReserveOn(r, k)
  {
    assert orders[id := r].Keys == orders.Keys + {id};
    SumInsert(orders.Keys, ReserveAt(orders[id := r], k), id);
    SumCongruent(orders.Keys, ReserveAt(orders, k), ReserveAt(orders[id := r], k));
  }

  // What trades release

  function MakerUnlock(t: Trade, maker: Row): real {
    if maker.side.Sell? then t.qty else Worth(t.price, t.qty)
  }

  function TakerUnlock(t: Trade, taker: Row): real {
    if taker.side.Sell? then t.qty
    else if taker.otype.Limit? then Worth(taker.price, t.qty)
    else Worth(t.price, t.qty)
  }

  ghost function MakersFreed(o: Orders, trades: seq<Trade>, k: Key): real
    requires forall t :: t in trades ==> t.maker in o && IsPair(o[t.maker].symbol)
  {
    if trades == [] then 0.0
    else (if UnlockKey(o[trades[0].maker]) == k then MakerUnlock(trades[0], o[trades[0].maker]) else 0.0)
         + MakersFreed(o, trades[1..], k)
  }

  /** How far rounding moves an amount. */
  function Drift(x: real): real {
    Round8(x) - x
  }

  ghost function MakersDrift(o: Orders, trades: seq<Trade>, k: Key): real
    requires forall t :: t in trades ==> t.maker in o && IsPair(o[t.maker].symbol)
  {
    if trades == [] then 0.0
    else (if UnlockKey(o[trades[0].maker]) == k then Drift(MakerUnlock(trades[0], o[trades[0].maker])) else 0.0)
         + MakersDrift(o, trades[1..], k)
  }

  function TakerDrift(trades: seq<Trade>, taker: Row): real {
    if trades == [] then 0.0 else Drift(TakerUnlock(trades[0], taker)) + TakerDrift(trades[1..], taker)
  }

  function TakerFreed(trades: seq<Trade>, taker: Row): real {
    if trades == [] then 0.0 else TakerUnlock(trades[0], taker) + TakerFreed(trades[1..], taker)
  }

  /** A trade of a settlement seen from both rows. */
  ghost predicate Fits(t: Trade, taker: Row, maker: Row) {
    && IsPair(taker.symbol) && maker.symbol == taker.symbol
    && maker.side == taker.side.Opposite() && maker.id != taker.id
    && (taker.otype.Limit? ==> taker.price > 0.0 && !M.Better(taker.side.Opposite(), taker.price, t.price))
    && t.price > 0.0 && t.qty > 0.0
  }

  lemma {:induction false} FourUnlocks(a: Update, b: Update, c: Update, d: Update, k: Key)
    requires b.unlock == 0.0 && d.unlock == 0.0
    ensures UnlockOf([a, b, c, d], k) == (if a.key == k then a.unlock else 0.0) + (if c.key == k then c.unlock else 0.0)
  {
    var us := [a, b, c, d];
    assert us[1..] == [b, c, d] && us[1..][1..] == [c, d] && us[1..][1..][1..] == [d] && us[1..][1..][1..][1..] == [];
    assert UnlockOf([d], k) == 0.0;
    assert UnlockOf([c, d], k) == if c.key == k then c.unlock else 0.0;
    assert UnlockOf([b, c, d], k) == UnlockOf([c, d], k);
  }

  lemma {:induction false} TradeUnlocks(t: Trade, taker: Row, maker: Row, k: Key)
    requires Fits(t, taker, maker)
    ensures UnlockOf(TradeUpdates(t, taker, maker), k) ==
            (if UnlockKey(maker) == k then Round8(MakerUnlock(t, maker)) else 0.0)
            + (if UnlockKey(taker) == k then Round8(TakerUnlock(t, taker)) else 0.0)
  {
    var us := TradeUpdates(t, taker, maker);
    assert us == [us[0], us[1], us[2], us[3]];
    FourUnlocks(us[0], us[1], us[2], us[3], k);
  }

  ghost predicate AllFit(o: Orders, trades: seq<Trade>, taker: OrderId) {
    && taker in o && IsPair(o[taker].symbol)
    && forall t :: t in trades ==> t.maker in o && Fits(t, o[taker], o[t.maker])
  }

  lemma {:induction false} TradesUnlock(o: Orders, trades: seq<Trade>, taker: OrderId, k: Key)
    requires AllFit(o, trades, taker)
    ensures UnlockOf(AllTradeUpdates(o, trades, taker), k) ==
            MakersFreed(o, trades, k) + MakersDrift(o, trades, k)
            + if UnlockKey(o[taker]) == k then TakerFreed(trades, o[taker]) + TakerDrift(trades, o[taker]) else 0.0
    decreases trades
  {
    if trades != [] {
      assert trades[0] in trades;
      TradeUnlocks(trades[0], o[taker], o[trades[0].maker], k);
      TradesUnlock(o, trades[1..], taker, k);
      SumsConcat(TradeUpdates(trades[0], o[taker], o[trades[0].maker]), AllTradeUpdates(o, trades[1..], taker), k);
    }
  }

  // The makers' rows

  function FillMakers(o: Orders, trades: seq<Trade>): (r: Orders)
    requires forall t :: t in trades ==> t.maker in o
    ensures r.Keys == o.Keys
    decreases trades
  {
    if trades == [] then o
    else FillMakers(o[trades[0].maker := FillMaker(o[trades[0].maker], trades[0].qty)], trades[1..])
  }

  ghost predicate FillableMaker(o: Orders, t: Trade) {
    && t.maker in o && RowOk(t.maker, o[t.maker]) && Resting(o[t.maker])
    && t.price == o[t.maker].price && 0.0 < t.qty <= o[t.maker].Unfilled()
  }

  ghost predicate AllFillable(o: Orders, trades: seq<Trade>) {
    forall t :: t in trades ==> t.maker in o && IsPair(o[t.maker].symbol) && FillableMaker(o, t)
  }

  /** A maker's reservation shrinks by what its trade unlocks. */
  lemma {:induction false} MakerReserve(o: Orders, t: Trade)
    requires FillableMaker(o, t)
    ensures var m := o[t.maker]; Reserve(FillMaker(m, t.qty)) == Reserve(m) - MakerUnlock(t, m)
  {
    var m := o[t.maker];
    WorthAdd(m.price, m.Unfilled() - t.qty, t.qty);
  }

  lemma {:induction false} FreedElsewhere(a: Orders, b: Orders, trades: seq<Trade>, k: Key)
    requires forall t :: t in trades ==>
               t.maker in a && t.maker in b && a[t.maker] == b[t.maker] && IsPair(a[t.maker].symbol)
    ensures MakersFreed(a, trades, k) == MakersFreed(b, trades, k)
  {
    if trades != [] {
      assert trades[0] in trades;
      FreedElsewhere(a, b, trades[1..], k);
    }
  }

  ghost predicate MakersApart(trades: seq<Trade>) {
    forall i, j | 0 <= i < j < |trades| :: trades[i].maker != trades[j].maker
  }

  lemma {:induction false} ApartTail(trades: seq<Trade>)
    requires trades != [] && MakersApart(trades)
    ensures MakersApart(trades[1..]) && forall t :: t in trades[1..] ==> t.maker != trades[0].maker
  {
    forall t | t in trades[1..] ensures t.maker != trades[0].maker {
      var j :| 0 <= j < |trades[1..]| && trades[1..][j] == t;
      assert trades[j + 1] == t;
    }
  }

  lemma {:induction false} MakersReserved(o: Orders, trades: seq<Trade>, k: Key)
    requires MakersApart(trades) && AllFillable(o, trades)
    ensures Reserved(FillMakers(o, trades), k) == Reserved(o, k) - MakersFreed(o, trades, k)
    decreases trades
  {
    if trades != [] {
      var t, rest := trades[0], trades[1..];
      assert t in trades;
      var m := o[t.maker];
      var next := o[t.maker := FillMaker(m, t.qty)];
      ApartTail(trades);
      MakerReserve(o, t);
      RowRewritten(o, t.maker, FillMaker(m, t.qty), k);
      FreedElsewhere(o, next, rest, k);
      MakersReserved(next, rest, k);
    }
  }

  lemma {:induction false} FillsAgree(a: Orders, b: Orders, trades: seq<Trade>, taker: OrderId)
    requires taker in a && a.Keys == b.Keys && forall t :: t in trades ==> t.maker in a && t.maker != taker
    requires forall id :: id in a && id != taker ==> a[id] == b[id]
    ensures forall id :: id in a && id != taker ==> FillRows(a, trades, taker)[id] == FillMakers(b, trades)[id]
    decreases trades
  {
    if trades != [] {
      var t := trades[0];
      assert t in trades;
      FillsAgree(FillOne(a, t, taker), b[t.maker := FillMaker(b[t.maker], t.qty)], trades[1..], taker);
    }
  }

  lemma {:induction false} MakersKeepTaker(o: Orders, trades: seq<Trade>, taker: OrderId)
    requires taker in o && forall t :: t in trades ==> t.maker in o && t.maker != taker
    ensures FillMakers(o, trades)[taker] == o[taker]
    decreases trades
  {
    if trades != [] {
      MakersKeepTaker(o[trades[0].maker := FillMaker(o[trades[0].maker], trades[0].qty)], trades[1..], taker);
    }
  }

  // The taker's row

  lemma {:induction false} TakerFreedTotal(trades: seq<Trade>, taker: Row)
    ensures TakerFreed(trades, taker) ==
            if taker.side.Sell? then M.Volume(trades)
            else if taker.otype.Limit? then Worth(taker.price, M.Volume(trades))
            else M.Value(trades)
  {
    if trades == [] {
      assert Worth(taker.price, 0.0) == 0.0;
    } else {
      TakerFreedTotal(trades[1..], taker);
      WorthAdd(taker.price, trades[0].qty, M.Volume(trades[1..]));
    }
  }

  /** A market buy may not cost more than was locked for it. */
  ghost predicate Affordable(o: Orders, e: Event) {
    e.SettlementRequested? && e.taker in o && o[e.taker].otype.Market? && o[e.taker].side.Buy? ==>
        M.Value(e.trades) <= e.amountLocked
  }

  /** What the taker no longer reserves is what its trades and its refund release. */
  lemma {:induction false} TakerReserve(o: Orders, e: Event)
    requires RowsOk(o) && Valid(o, e) && e.SettlementRequested?
    ensures e.taker in Rows(o, e)
    ensures Affordable(o, e) ==> RefundOf(o[e.taker], e) >= 0.0
    ensures Reserve(Rows(o, e)[e.taker]) ==
            Reserve(o[e.taker]) - TakerFreed(e.trades, o[e.taker]) - RefundOf(o[e.taker], e)
  {
    SettledTaker(o, e);
    VolumeOfValid(o, e);
    var r := o[e.taker];
    TakerFreedTotal(e.trades, r);
    WorthAdd(r.price, M.Volume(e.trades), r.qty - M.Volume(e.trades));
    assert Worth(r.price, 0.0) == 0.0;
    if r.otype.Limit? {
      WorthSign(r.price, r.qty - M.Volume(e.trades));
    }
  }

  lemma {:induction false} ValidFits(o: Orders, e: Event)
    requires RowsOk(o) && Valid(o, e) && e.SettlementRequested?
    requires forall t :: t in e.trades ==> o[t.maker].symbol == o[e.taker].symbol
    ensures AllFit(o, e.trades, e.taker) && MakersApart(e.trades)
    ensures AllFillable(o, e.trades)
  {
    forall t | t in e.trades ensures Fits(t, o[e.taker], o[t.maker]) && FillableMaker(o, t) {
      assert ValidTrade(o, t, o[e.taker]);
    }
  }

  lemma {:induction false} RefundUnlocks(r: Row, c: Currency, refund: real, k: Key)
    requires IsPair(r.symbol) && UnlockKey(r).currency == c
    ensures UnlockOf(RefundUpdates(r.user, c, refund), k) ==
            if UnlockKey(r) == k then refund + RefundDrift(refund) else 0.0
  {
  }

  /** The movements of a settlement: its trades', then the taker's refund. */
  lemma {:induction false} SettlementParts(o: Orders, e: Event)
    requires RowsOk(o) && Valid(o, e) && e.SettlementRequested?
    ensures OrderIds(e) <= o.Keys && forall t :: t in e.trades ==> t.maker in o && IsPair(o[t.maker].symbol)
    ensures SettlementUpdates(o, e) ==
            AllTradeUpdates(o, e.trades, e.taker)
                + RefundUpdates(o[e.taker].user, e.lockedCurrency, RefundOf(o[e.taker], e))
  {
    ValidIds(o, e);
    TakerFilled(o, e.trades, e.taker);
  }

  /** How far the refund paid is from the one due: by rounding, or by a negative one not being taken back. */
  function RefundDrift(refund: real): real {
    if refund > 0.0 then Drift(refund) else -refund
  }

  /**
   How far what a settlement unlocks on one account is from what its orders stop reserving: by rounding, and
   by what a market buy cost beyond its lock.
   */
  ghost function SettlementDrift(o: Orders, e: Event, k: Key): real
    requires e.SettlementRequested? && e.taker in o && IsPair(o[e.taker].symbol)
    requires forall t :: t in e.trades ==> t.maker in o && IsPair(o[t.maker].symbol)
  {
    MakersDrift(o, e.trades, k)
    + if UnlockKey(o[e.taker]) != k then 0.0
      else TakerDrift(e.trades, o[e.taker]) + RefundDrift(RefundOf(o[e.taker], e))
  }

  lemma {:induction false} SettlementUnlocks(o: Orders, e: Event, k: Key)
    requires RowsOk(o) && Valid(o, e) && e.SettlementRequested?
    requires AllFit(o, e.trades, e.taker)
    ensures OrderIds(e) <= o.Keys && forall t :: t in e.trades ==> t.maker in o && IsPair(o[t.maker].symbol)
    ensures UnlockOf(SettlementUpdates(o, e), k) ==
            MakersFreed(o, e.trades, k) + SettlementDrift(o, e, k)
            + if UnlockKey(o[e.taker]) == k then TakerFreed(e.trades, o[e.taker]) + RefundOf(o[e.taker], e) else 0.0
  {
    var taker := o[e.taker];
    var refund := RefundOf(taker, e);
    SettlementParts(o, e);
    TradesUnlock(o, e.trades, e.taker, k);
    RefundUnlocks(taker, e.lockedCurrency, refund, k);
    SumsConcat(AllTradeUpdates(o, e.trades, e.taker), RefundUpdates(taker.user, e.lockedCurrency, refund), k);
  }

  /** The settled rows are the filled makers with the taker's last row put in. */
  lemma {:induction false} RowsByMakers(o: Orders, e: Event)
    requires RowsOk(o) && Valid(o, e) && e.SettlementRequested?
    ensures forall t :: t in e.trades ==> t.maker in o
    ensures e.taker in Rows(o, e) && Rows(o, e) == FillMakers(o, e.trades)[e.taker := Rows(o, e)[e.taker]]
    ensures FillMakers(o, e.trades)[e.taker] == o[e.taker]
    ensures IsPair(o[e.taker].symbol) && Rows(o, e)[e.taker].symbol == o[e.taker].symbol
    ensures UnlockKey(Rows(o, e)[e.taker]) == UnlockKey(o[e.taker])
  {
    ValidIds(o, e);
    FillsAgree(o, o, e.trades, e.taker);
    MakersKeepTaker(o, e.trades, e.taker);
    SettledTaker(o, e);
  }

  ghost predicate OneSymbol(o: Orders, e: Event) {
    e.SettlementRequested? ==>
      e.taker in o && forall t :: t in e.trades ==> t.maker in o && o[t.maker].symbol == o[e.taker].symbol
  }

  /**
   Row for row, a settlement reduces the reservations on every account by what it unlocks there, up to
   its drift.
   */
  lemma {:induction false} SettleReserves(o: Orders, e: Event, k: Key)
    requires RowsOk(o) && Valid(o, e) && e.SettlementRequested? && OneSymbol(o, e)
    ensures OrderIds(e) <= o.Keys && forall t :: t in e.trades ==> t.maker in o && IsPair(o[t.maker].symbol)
    ensures Reserved(Rows(o, e), k) == Reserved(o, k) - UnlockOf(SettlementUpdates(o, e), k) + SettlementDrift(o, e, k)
  {
    ValidFits(o, e);
    MakersReserved(o, e.trades, k);
    TakerReserve(o, e);
    SettlementUnlocks(o, e, k);
    RowsByMakers(o, e);
    RowRewritten(FillMakers(o, e.trades), e.taker, Rows(o, e)[e.taker], k);
  }

  lemma {:induction false} MakersExact(o: Orders, trades: seq<Trade>, taker: OrderId, k: Key)
    requires AllFit(o, trades, taker) && forall t :: t in trades ==> ExactTrade(t, o[taker])
    ensures MakersDrift(o, trades, k) == 0.0 && TakerDrift(trades, o[taker]) == 0.0
  {
    if trades != [] {
      var t := trades[0];
      assert t in trades;
      RoundExact(t.qty);
      RoundExact(Worth(t.price, t.qty));
      RoundExact(Worth(o[taker].price, t.qty));
      MakersExact(o, trades[1..], taker, k);
    }
  }

  lemma {:induction false} NoDrift(o: Orders, e: Event, k: Key)
    requires RowsOk(o) && Valid(o, e) && e.SettlementRequested? && Exact(o, e)
    requires forall t :: t in e.trades ==> t.maker in o && IsPair(o[t.maker].symbol)
    ensures SettlementDrift(o, e, k) == 0.0
  {
    ValidFits(o, e);
    MakersExact(o, e.trades, e.taker, k);
    TakerReserve(o, e);
    RoundExact(RefundOf(o[e.taker], e));
  }

  const HALF_UNIT: real := 0.5 / SCALE

  /** `n` halves of a unit in the eighth place. */
  function Halves(n: nat): real {
    if n == 0 then 0.0 else HALF_UNIT + Halves(n - 1)
  }

  function TradeDrift(t: Trade, taker: Row, maker: Row, k: Key): real
    requires IsPair(taker.symbol) && IsPair(maker.symbol)
  {
    if UnlockKey(maker) == k then Drift(MakerUnlock(t, maker))
    else if UnlockKey(taker) == k then Drift(TakerUnlock(t, taker))
    else 0.0
  }

  lemma {:induction false} TradeDriftBound(t: Trade, taker: Row, maker: Row, k: Key)
    requires IsPair(taker.symbol) && IsPair(maker.symbol)
    ensures -HALF_UNIT <= TradeDrift(t, taker, maker, k) <= HALF_UNIT
  {
    RoundError(MakerUnlock(t, maker));
    RoundError(TakerUnlock(t, taker));
  }

  ghost predicate OtherAccounts(o: Orders, trades: seq<Trade>, taker: OrderId) {
    && taker in o && IsPair(o[taker].symbol)
    && forall t :: t in trades ==>
         t.maker in o && IsPair(o[t.maker].symbol) && UnlockKey(o[t.maker]) != UnlockKey(o[taker])
  }

  ghost function TradesDrift(o: Orders, trades: seq<Trade>, taker: OrderId, k: Key): real
    requires OtherAccounts(o, trades, taker)
  {
    MakersDrift(o, trades, k) + if UnlockKey(o[taker]) == k then TakerDrift(trades, o[taker]) else 0.0
  }

  lemma {:induction false} TradesDriftBound(o: Orders, trades: seq<Trade>, taker: OrderId, k: Key)
    requires OtherAccounts(o, trades, taker)
    ensures -Halves(|trades|) <= TradesDrift(o, trades, taker, k) <= Halves(|trades|)
  {
    if trades != [] {
      assert trades[0] in trades;
      TradeDriftBound(trades[0], o[taker], o[trades[0].maker], k);
      TradesDriftBound(o, trades[1..], taker, k);
      assert TradesDrift(o, trades, taker, k) ==
             TradeDrift(trades[0], o[taker], o[trades[0].maker], k) + TradesDrift(o, trades[1..], taker, k);
    }
  }

  /** Rounding moves what one account unlocks by at most half a unit per trade, and half a unit for the refund. */
  lemma {:induction false} DriftBound(o: Orders, e: Event, k: Key)
    requires RowsOk(o) && Valid(o, e) && e.SettlementRequested? && OneSymbol(o, e) && Affordable(o, e)
    ensures forall t :: t in e.trades ==> t.maker in o && IsPair(o[t.maker].symbol)
    ensures -Halves(|e.trades| + 1) <= SettlementDrift(o, e, k) <= Halves(|e.trades| + 1)
  {
    forall t | t in e.trades ensures UnlockKey(o[t.maker]) != UnlockKey(o[e.taker]) && IsPair(o[t.maker].symbol) {
      assert ValidTrade(o, t, o[e.taker]);
    }
    TakerReserve(o, e);
    RoundError(RefundOf(o[e.taker], e));
    TradesDriftBound(o, e.trades, e.taker, k);
    assert SettlementDrift(o, e, k) ==
           TradesDrift(o, e.trades, e.taker, k)
           + if UnlockKey(o[e.taker]) == k then RefundDrift(RefundOf(o[e.taker], e)) else 0.0;
  }

  lemma {:induction false} SameKey(a: Row, b: Row)
    requires Forward(a, b) && IsPair(a.symbol)
    ensures b.symbol == a.symbol && UnlockKey(b) == UnlockKey(a) && b.lockedAmount == a.lockedAmount
  {
    assert UnlockKey(a) == UnlockKey(Subscriber.Terms(a)) && UnlockKey(b) == UnlockKey(Subscriber.Terms(b));
    assert Subscriber.Terms(a).lockedAmount == a.lockedAmount && Subscriber.Terms(b).lockedAmount == b.lockedAmount;
    assert Subscriber.Terms(a).symbol == a.symbol && Subscriber.Terms(b).symbol == b.symbol;
  }


  // No movement takes more from a balance than it released before

  ghost predicate Covering(us: seq<Update>) {
    forall u :: u in us ==> u.unlock >= 0.0 && u.amount + u.unlock >= 0.0
  }

  lemma {:induction false} CoveringSums(us: seq<Update>, k: Key)
    requires Covering(us)
    ensures UnlockOf(us, k) >= 0.0 && AmountOf(us, k) + UnlockOf(us, k) >= 0.0
  {
    if us != [] {
      assert us[0] in us;
      CoveringSums(us[1..], k);
    }
  }

  /** A limit buyer never pays more than it had reserved for the quantity, rounding included. */
  lemma {:induction false} TradeCovers(t: Trade, taker: Row, maker: Row)
    requires Fits(t, taker, maker)
    ensures Covering(TradeUpdates(t, taker, maker))
  {
    var worth := Worth(t.price, t.qty);
    WorthSign(t.price, t.qty);
    RoundMonotone(0.0, t.qty);
    RoundMonotone(0.0, worth);
    if taker.side.Buy? && taker.otype.Limit? {
      WorthGrows(t.price, taker.price, t.qty);
      RoundMonotone(worth, Worth(taker.price, t.qty));
    }
  }

  lemma {:induction false} WorthGrows(p: real, q: real, n: real)
    requires p <= q && n >= 0.0
    ensures Worth(p, n) <= Worth(q, n)
  {
  }

  lemma {:induction false} TradesCover(o: Orders, trades: seq<Trade>, taker: OrderId)
    requires AllFit(o, trades, taker)
    ensures Covering(AllTradeUpdates(o, trades, taker))
    decreases trades
  {
    if trades != [] {
      assert trades[0] in trades;
      TradeCovers(trades[0], o[taker], o[trades[0].maker]);
      TradesCover(o, trades[1..], taker);
    }
  }

  lemma {:induction false} SettlementCovers(o: Orders, e: Event)
    requires RowsOk(o) && Valid(o, e) && e.SettlementRequested?
    requires forall t :: t in e.trades ==> o[t.maker].symbol == o[e.taker].symbol
    ensures OrderIds(e) <= o.Keys && Covering(SettlementUpdates(o, e))
  {
    ValidIds(o, e);
    ValidFits(o, e);
    TradesCover(o, e.trades, e.taker);
    var refund := FinishTaker(FillRows(o, e.trades, e.taker)[e.taker], e).1;
    if refund > 0.0 {
      RoundMonotone(0.0, refund);
    }
  }

  lemma {:induction false} RowsStayBacked(o: Orders, e: Event, t: Table)
    requires RowsOk(o) && Valid(o, e) && RowsBacked(o, t)
    ensures RowsBacked(Rows(o, e), t)
  {
    RowsForward(o, e);
    forall id | id in o ensures RowBacked(Rows(o, e)[id], t) {
      assert RowBacked(o[id], t) && Forward(o[id], Rows(o, e)[id]);
      SameKey(o[id], Rows(o, e)[id]);
    }
  }

  lemma {:induction false} SettledNonNegative(o: Orders, e: Event, t: Table, k: Key)
    requires RowsOk(o) && Valid(o, e) && RowsBacked(o, t)
    ensures Reserved(Rows(o, e), k) >= 0.0
  {
    RowsForward(o, e);
    RowsStayBacked(o, e, t);
    assert forall id :: id in Rows(o, e) ==> RowBacked(Rows(o, e)[id], t);
    ReservedNonNegative(Rows(o, e), k);
  }

  ghost function Settled(db: DB, e: Event, k: Key): Account
    requires e.SettlementRequested? && OrderIds(e) <= db.orders.Keys && k in db.accounts
  {
    var us := SettlementUpdates(db.orders, e);
    Net(db.accounts[k], UnlockOf(us, k), AmountOf(us, k))
  }

  /** On one account whose locked funds are the reservations: the unlock is covered and leaves the reservations. */
  lemma {:induction false} SettleBackedAt(db: DB, e: Event, k: Key)
    requires RowsOk(db.orders) && Valid(db.orders, e) && e.SettlementRequested? && Exact(db.orders, e)
    requires RowsBacked(db.orders, db.accounts)
    requires k in db.accounts && Checked(db.accounts[k]) && db.accounts[k].locked == Reserved(db.orders, k)
    ensures OrderIds(e) <= db.orders.Keys
    ensures UnlockOf(SettlementUpdates(db.orders, e), k) <= db.accounts[k].locked
    ensures Settled(db, e, k).locked == Reserved(Rows(db.orders, e), k) && Checked(Settled(db, e, k))
  {
    SettlementCovers(db.orders, e);
    SettledNonNegative(db.orders, e, db.accounts, k);
    SettleReserves(db.orders, e, k);
    NoDrift(db.orders, e, k);
    CoveringSums(SettlementUpdates(db.orders, e), k);
    CoveredNet(db.accounts[k], UnlockOf(SettlementUpdates(db.orders, e), k),
               AmountOf(SettlementUpdates(db.orders, e), k));
  }

  lemma {:induction false} CoveredNet(a: Account, unlock: real, amount: real)
    requires Checked(a) && 0.0 <= unlock <= a.locked && amount + unlock >= 0.0
    ensures Net(a, unlock, amount).locked == a.locked - unlock && Checked(Net(a, unlock, amount))
  {
  }

  /**
   Without either assumption, on an account whose locked funds are its reservations: the guard of the unlock holds
   exactly when the drift is no more than what stays reserved; and locked funds are the reservations again exactly
   when the drift is zero or, the guard having missed, nothing was to be released.
   */
  lemma {:induction false} SettleBackedIff(db: DB, e: Event, k: Key)
    requires RowsOk(db.orders) && Valid(db.orders, e) && e.SettlementRequested? && OneSymbol(db.orders, e)
    requires k in db.accounts && db.accounts[k].locked == Reserved(db.orders, k)
    ensures OrderIds(e) <= db.orders.Keys
    ensures forall t :: t in e.trades ==> t.maker in db.orders && IsPair(db.orders[t.maker].symbol)
    ensures UnlockOf(SettlementUpdates(db.orders, e), k) <= db.accounts[k].locked <==>
            SettlementDrift(db.orders, e, k) <= Reserved(Rows(db.orders, e), k)
    ensures LockedIsReserved(db, e, k) <==>
            if SettlementDrift(db.orders, e, k) <= Reserved(Rows(db.orders, e), k)
            then SettlementDrift(db.orders, e, k) == 0.0
            else Reserved(Rows(db.orders, e), k) == Reserved(db.orders, k)
  {
    SettleReserves(db.orders, e, k);
    SettledLocked(db, e, k);
    LockedIff(db.accounts[k].locked, UnlockOf(SettlementUpdates(db.orders, e), k), SettlementDrift(db.orders, e, k),
              Reserved(Rows(db.orders, e), k), Settled(db, e, k).locked);
  }

  lemma {:induction false} LockedIff(locked: real, unlock: real, drift: real, reserved: real, after: real)
    requires reserved == locked - unlock + drift && after == if unlock <= locked then locked - unlock else locked
    ensures unlock <= locked <==> drift <= reserved
    ensures after == reserved <==> if drift <= reserved then drift == 0.0 else reserved == locked
  {
  }

  /** Where the settlement does change what is reserved, a zero drift alone decides. */
  lemma {:induction false} SettleBackedIffExact(db: DB, e: Event, k: Key)
    requires RowsOk(db.orders) && Valid(db.orders, e) && e.SettlementRequested? && OneSymbol(db.orders, e)
    requires k in db.accounts && db.accounts[k].locked == Reserved(db.orders, k) && RowsBacked(db.orders, db.accounts)
    requires Reserved(Rows(db.orders, e), k) != Reserved(db.orders, k)
    ensures OrderIds(e) <= db.orders.Keys
    ensures forall t :: t in e.trades ==> t.maker in db.orders && IsPair(db.orders[t.maker].symbol)
    ensures LockedIsReserved(db, e, k) <==> SettlementDrift(db.orders, e, k) == 0.0
  {
    SettleBackedIff(db, e, k);
    SettledNonNegative(db.orders, e, db.accounts, k);
  }

  /** After the settlement, the account has locked what the settled orders reserve from it. */
  ghost predicate LockedIsReserved(db: DB, e: Event, k: Key)
    requires e.SettlementRequested? && OrderIds(e) <= db.orders.Keys && k in db.accounts
  {
    Settled(db, e, k).locked == Reserved(Rows(db.orders, e), k)
  }

  lemma {:induction false} SettledLocked(db: DB, e: Event, k: Key)
    requires RowsOk(db.orders) && Valid(db.orders, e) && e.SettlementRequested? && OneSymbol(db.orders, e)
    requires k in db.accounts
    ensures OrderIds(e) <= db.orders.Keys
    ensures var locked, unlock := db.accounts[k].locked, UnlockOf(SettlementUpdates(db.orders, e), k);
            Settled(db, e, k).locked == if unlock <= locked then locked - unlock else locked
  {
    SettlementCovers(db.orders, e);
    CoveringSums(SettlementUpdates(db.orders, e), k);
    UncheckedNet(db.accounts[k], UnlockOf(SettlementUpdates(db.orders, e), k),
                 AmountOf(SettlementUpdates(db.orders, e), k));
  }

  lemma {:induction false} UncheckedNet(a: Account, unlock: real, amount: real)
    requires 0.0 <= unlock
    ensures Net(a, unlock, amount).locked == if unlock <= a.locked then a.locked - unlock else a.locked
  {
  }

  /**
   Settling a valid event on accounts whose locked funds are exactly the reservations: every unlock is
   covered, no CHECK fails, and locked funds are exactly the reservations again.
   */
  lemma {:induction false} SettleBacked(db: DB, e: Event)
    requires RowsOk(db.orders) && Valid(db.orders, e) && e.SettlementRequested? && Exact(db.orders, e)
    requires ValidTable(db.accounts) && Backed(db.orders, db.accounts)
    ensures OrderIds(e) <= db.orders.Keys
    ensures var us := SettlementUpdates(db.orders, e);
            && Solvent(db.accounts, us)
            && (forall k :: k in db.accounts ==> UnlockOf(us, k) <= db.accounts[k].locked)
            && Backed(Rows(db.orders, e), NetAll(db.accounts, us)) && ValidTable(NetAll(db.accounts, us))
  {
    ValidIds(db.orders, e);
    RowsStayBacked(db.orders, e, db.accounts);
    var us, after := SettlementUpdates(db.orders, e), Rows(db.orders, e);
    forall k | k in db.accounts
      ensures UnlockOf(us, k) <= db.accounts[k].locked && Checked(NetAll(db.accounts, us)[k])
      ensures NetAll(db.accounts, us)[k].locked == Reserved(after, k)
    {
      SettleBackedAt(db, e, k);
    }
    SameAccounts(after, db.accounts, NetAll(db.accounts, us));
  }

  lemma {:induction false} SameAccounts(o: Orders, t: Table, u: Table)
    requires RowsBacked(o, t) && t.Keys <= u.Keys
    ensures RowsBacked(o, u)
  {
    forall id | id in o ensures RowBacked(o[id], u) {
      assert RowBacked(o[id], t);
    }
  }

  lemma {:induction false} CanceledRows(o: Orders, id: OrderId, t: Table)
    requires RowsOk(o) && id in o && Resting(o[id]) && RowsBacked(o, t)
    ensures RowsOk(o[id := o[id].(status := Canceled)]) && RowsBacked(o[id := o[id].(status := Canceled)], t)
  {
    assert forall i :: i in o ==> RowBacked(o[i], t);
  }

  /** A resting order's reservation is part of what is locked, and canceling takes exactly it away. */
  lemma {:induction false} CancelReserves(o: Orders, id: OrderId, t: Table, k: Key)
    requires RowsOk(o) && id in o && Resting(o[id]) && RowsBacked(o, t)
    ensures Reserved(o[id := o[id].(status := Canceled)], k) ==
            Reserved(o, k) - if UnlockKey(o[id]) == k then UnlockAmount(o[id]) else 0.0
    ensures 0.0 <= UnlockAmount(o[id]) && (UnlockKey(o[id]) == k ==> UnlockAmount(o[id]) <= Reserved(o, k))
  {
    var after := o[id := o[id].(status := Canceled)];
    RowRewritten(o, id, o[id].(status := Canceled), k);
    CanceledRows(o, id, t);
    assert forall i :: i in after ==> RowBacked(after[i], t);
    ReservedNonNegative(after, k);
    assert RowBacked(o[id], t);
    ReserveNonNegative(id, o[id]);
    assert Reserve(o[id]) == UnlockAmount(o[id]);
  }

  /** Confirming a cancel of a resting order releases exactly its reservation. */
  lemma {:induction false} CancelBacked(db: DB, e: Event)
    requires RowsOk(db.orders) && Valid(db.orders, e) && e.OrderCanceled? && TokenValid(db.fence, e.token)
    requires ValidTable(db.accounts) && Backed(db.orders, db.accounts)
    ensures ConfirmCancel(db, e).Committed?
    ensures Backed(ConfirmCancel(db, e).db.orders, ConfirmCancel(db, e).db.accounts)
    ensures ValidTable(ConfirmCancel(db, e).db.accounts)
    ensures UnlockKey(db.orders[e.id]) in db.accounts
    ensures UnlockAmount(db.orders[e.id]) <= db.accounts[UnlockKey(db.orders[e.id])].locked
  {
    var r := db.orders[e.id];
    ReleasedBacked(db.orders, e.id, db.accounts);
    assert RowBacked(r, db.accounts);
    CancelReserves(db.orders, e.id, db.accounts, UnlockKey(r));
  }

  lemma {:induction false} ReleasedBacked(o: Orders, id: OrderId, t: Table)
    requires RowsOk(o) && id in o && Resting(o[id]) && Backed(o, t) && ValidTable(t)
    ensures Backed(o[id := o[id].(status := Canceled)], ReleasedOn(t, o[id])) && ValidTable(ReleasedOn(t, o[id]))
  {
    var orders := o[id := o[id].(status := Canceled)];
    CanceledRows(o, id, t);
    assert RowBacked(o[id], t);
    SameAccounts(orders, t, ReleasedOn(t, o[id]));
    forall k | k in t
      ensures ReleasedOn(t, o[id])[k].locked == Reserved(orders, k) && Checked(ReleasedOn(t, o[id])[k])
    {
      CancelReserves(o, id, t, k);
    }
  }

  function ReleasedOn(t: Table, r: Row): Table
    requires IsPair(r.symbol)
  {
    ApplyOne(t, Update(UnlockKey(r), 0.0, UnlockAmount(r)))
  }

  lemma {:induction false} AdmittedRow(r: Request, id: OrderId, now: int, snaps: Snapshots)
    requires SaneSnapshots(snaps) && Prepare(r, snaps).Some?
    ensures var u := Prepare(r, snaps).value;
            var row := NewRow(Normalize(r), id, now, u.amount);
            && IsPair(row.symbol) && UnlockKey(row) == u.key && u.amount >= 0.0
            && (forall k :: ReserveOn(row, k) == if u.key == k then u.amount else 0.0)
            && RowOk(id, row)
  {
    LockNonNegative(r, snaps);
  }

  /** Admitting an order locks exactly what its row reserves. */
  lemma {:induction false} AdmitBacked(db: DB, r: Request, id: OrderId, now: int, snaps: Snapshots)
    requires ValidTable(db.accounts) && Backed(db.orders, db.accounts) && SaneSnapshots(snaps)
    requires Admit(db, r, id, now, snaps).Some?
    ensures var after := Admit(db, r, id, now, snaps).value;
            Backed(after.orders, after.accounts) && ValidTable(after.accounts)
  {
    var u := Prepare(r, snaps).value;
    AdmittedRow(r, id, now, snaps);
    LockedBacked(db.orders, db.accounts, NewRow(Normalize(r), id, now, u.amount), u);
  }

  /** A new row and the lock of what it reserves. */
  lemma {:induction false} LockedBacked(o: Orders, t: Table, row: Row, u: Update)
    requires Backed(o, t) && ValidTable(t) && row.id !in o && u.key in t && Checked(Lock(t[u.key], u.amount))
    requires RowBacked(row, t) && forall k :: ReserveOn(row, k) == if u.key == k then u.amount else 0.0
    ensures Backed(o[row.id := row], LockOne(t, u)) && ValidTable(LockOne(t, u))
  {
    RowsMoreBacked(o, row, t, u);
    forall k | k in t ensures LockOne(t, u)[k].locked == Reserved(o[row.id := row], k) {
      RowAdded(o, row.id, row, k);
    }
  }

  lemma {:induction false} RowsMoreBacked(o: Orders, row: Row, t: Table, u: Update)
    requires RowsBacked(o, t) && RowBacked(row, t) && u.key in t
    ensures RowsBacked(o[row.id := row], LockOne(t, u))
  {
    SameAccounts(o, t, LockOne(t, u));
    assert RowBacked(row, LockOne(t, u)) && forall i :: i in o ==> RowBacked(o[i], LockOne(t, u));
  }
}
