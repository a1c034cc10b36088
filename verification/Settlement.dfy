/**
 The settlement rules as pure functions over database contents: what one delivery of a settlement
 or a cancel confirmation does. Subscriber.dfy proves the transaction code against them.
 */
module Settlement {
  import opened Types
  import opened Money
  import opened Accounts
  import opened Matching

  datatype Status = New | PartiallyFilled | Filled | Canceled | Rejected

  /**
   A row of the orders table. `lockedAmount` is what TX1 locked for the order; the code carries it in
   the order.placed payload instead of a column, and settlement never reads it from here.
   */
  datatype Row = Row(id: OrderId, user: UserId, symbol: Symbol, side: Side, otype: OrderType, price: real, qty: real,
                     filled: real, status: Status, createdAt: int, lockedAmount: real) {
    predicate Open() {
      status.New? || status.PartiallyFilled?
    }

    predicate Closed() {
      status.Filled? || status.Canceled?
    }

    function Unfilled(): real {
      qty - filled
    }
  }

  type Orders = map<OrderId, Row>

  /** `fence` is the current token of the leader row, if there is one. */
  datatype DB = DB(orders: Orders, trades: seq<Trade>, accounts: Table, fence: Option<nat>)

  datatype Event =
    | SettlementRequested(symbol: Symbol, taker: OrderId, amountLocked: real, lockedCurrency: Currency,
                          remaining: real, trades: seq<Trade>, token: int)
    | OrderCanceled(symbol: Symbol, id: OrderId, user: UserId, token: int)

  /** What the order service sends to the engines; a placed order carries the terms of its row. */
  datatype OrderMessage =
    | OrderPlaced(order: Row)
    | CancelRequested(symbol: Symbol, id: OrderId, side: Side, user: UserId)

  /** Skipped: the consumer moves on with nothing changed. Aborted: rolled back, to be retried. */
  datatype Outcome = Committed(db: DB) | Skipped | Aborted

  /** Contents of the database once a delivery with this outcome is over. */
  function After(db: DB, o: Outcome): DB {
    if o.Committed? then o.db else db
  }

  predicate TokenValid(fence: Option<nat>, token: int) {
    token <= 0 || fence.None? || token >= fence.value
  }

  predicate TradeExists(trades: seq<Trade>, id: TradeId) {
    exists t :: t in trades && t.id == id
  }

  /** The primary key of the trades table lets all of `more` in. */
  predicate CanCreateTrades(trades: seq<Trade>, more: seq<Trade>) {
    && (forall t :: t in more ==> !TradeExists(trades, t.id))
    && (forall i, j | 0 <= i < j < |more| :: more[i].id != more[j].id)
  }

  function OrderIds(e: Event): set<OrderId>
    requires e.SettlementRequested?
  {
    (set t | t in e.trades :: t.maker) + {e.taker}
  }

  // Order rows

  function FillMaker(m: Row, q: real): Row {
    var filled := m.filled + q;
    m.(filled := filled,
       status := if filled == m.qty then Filled else if filled > 0.0 then PartiallyFilled else m.status)
  }

  /** One trade: the maker's row first, then the taker's filled quantity. */
  function FillOne(orders: Orders, t: Trade, taker: OrderId): (r: Orders)
    requires taker in orders && t.maker in orders
    ensures r.Keys == orders.Keys
  {
    var made := orders[t.maker := FillMaker(orders[t.maker], t.qty)];
    made[taker := made[taker].(filled := made[taker].filled + t.qty)]
  }

  function FillRows(orders: Orders, trades: seq<Trade>, taker: OrderId): (r: Orders)
    requires taker in orders && forall t :: t in trades ==> t.maker in orders
    ensures r.Keys == orders.Keys
    decreases trades
  {
    if trades == [] then orders else FillRows(FillOne(orders, trades[0], taker), trades[1..], taker)
  }

  /** The taker's final status and the part of its reservation to give back. */
  function FinishTaker(r: Row, e: Event): (Status, real)
    requires e.SettlementRequested?
  {
    if r.otype.Market? then
      (if r.filled == 0.0 then Canceled else Filled,
       if r.side.Buy? then e.amountLocked - Value(e.trades) else r.qty - r.filled)
    else if r.filled == r.qty then (Filled, 0.0)
    else if e.remaining == 0.0 then
      (Canceled, if r.side.Buy? then Worth(r.price, r.qty - r.filled) else r.qty - r.filled)
    else (if r.filled > 0.0 then PartiallyFilled else r.status, 0.0)
  }

  function SettleRows(orders: Orders, e: Event): Orders
    requires e.SettlementRequested? && OrderIds(e) <= orders.Keys
  {
    assert forall t :: t in e.trades ==> t.maker in OrderIds(e);
    var rows := FillRows(orders, e.trades, e.taker);
    rows[e.taker := rows[e.taker].(status := FinishTaker(rows[e.taker], e).0)]
  }

  // Account movements

  /** The four movements of one trade: the buyer pays and receives, the seller delivers and is paid. */
  function TradeUpdates(t: Trade, taker: Row, maker: Row): seq<Update>
    requires IsPair(taker.symbol)
  {
    var worth := Worth(t.price, t.qty);
    var buyer := if taker.side.Buy? then taker else maker;
    var seller := if taker.side.Buy? then maker else taker;
    var unlock := if buyer.id == taker.id && taker.otype.Limit? && taker.price != 0.0
                  then Worth(taker.price, t.qty) else worth;
    var base, quote := Base(taker.symbol), Quote(taker.symbol);
    [Update(Key(buyer.user, quote), -Round8(worth), Round8(unlock)),
     Update(Key(buyer.user, base), Round8(t.qty), 0.0),
     Update(Key(seller.user, base), -Round8(t.qty), Round8(t.qty)),
     Update(Key(seller.user, quote), Round8(worth), 0.0)]
  }

  function AllTradeUpdates(orders: Orders, trades: seq<Trade>, taker: OrderId): seq<Update>
    requires taker in orders && forall t :: t in trades ==> t.maker in orders
    decreases trades
  {
    if trades == [] || !IsPair(orders[taker].symbol) then []
    else TradeUpdates(trades[0], orders[taker], orders[trades[0].maker]) + AllTradeUpdates(orders, trades[1..], taker)
  }

  function RefundUpdates(user: UserId, currency: Currency, refund: real): seq<Update> {
    if refund > 0.0 then [Update(Key(user, currency), 0.0, Round8(refund))] else []
  }

  function SettlementUpdates(orders: Orders, e: Event): seq<Update>
    requires e.SettlementRequested? && OrderIds(e) <= orders.Keys
  {
    assert forall t :: t in e.trades ==> t.maker in OrderIds(e);
    var taker := FillRows(orders, e.trades, e.taker)[e.taker];
    AllTradeUpdates(orders, e.trades, e.taker)
    + RefundUpdates(taker.user, e.lockedCurrency, FinishTaker(taker, e).1)
  }

  /** All accounts with their movements netted. */
  ghost function NetAll(t: Table, us: seq<Update>): Table {
    map k | k in t :: Net(t[k], UnlockOf(us, k), AmountOf(us, k))
  }

  ghost predicate Solvent(t: Table, us: seq<Update>) {
    forall k :: k in t ==> Net(t[k], UnlockOf(us, k), AmountOf(us, k)).balance >= 0.0
  }

  /** Applying the sorted aggregate one statement at a time is netting every account. */
  lemma {:induction false} AggregateIsNet(t: Table, r: seq<Update>, us: seq<Update>)
    requires IsAggregate(r, us) && ValidTable(t)
    ensures ApplyAll(t, r) == NetAll(t, us)
    ensures PassesChecks(t, r) <==> Solvent(t, us)
  {
    AggregateEffect(t, r, us);
    ChecksIff(t, r);
    forall k ensures AmountOf(r, k) == AmountOf(us, k) && UnlockOf(r, k) == UnlockOf(us, k) {
      AggregateSums(r, us, k);
    }
  }

  // Deliveries

  /** Reasons to let a settlement pass without effect, before and inside the transaction. */
  ghost predicate SettlementSkipped(db: DB, e: Event)
    requires e.SettlementRequested?
  {
    || (e.trades != [] && TradeExists(db.trades, e.trades[0].id))
    || !TokenValid(db.fence, e.token)
    || !(OrderIds(e) <= db.orders.Keys)
    || !db.orders[e.taker].status.New?
  }

  ghost function Settle(db: DB, e: Event): Outcome
    requires e.SettlementRequested?
  {
    if SettlementSkipped(db, e) then Skipped
    // Splitting the symbol only fails where it happens: in the settlement of a trade.
    else if e.trades != [] && !IsPair(db.orders[e.taker].symbol) then Aborted
    else
      var us := SettlementUpdates(db.orders, e);
      if CanCreateTrades(db.trades, e.trades) && Solvent(db.accounts, us)
      then Committed(DB(SettleRows(db.orders, e), db.trades + e.trades, NetAll(db.accounts, us), db.fence))
      else Aborted
  }

  function UnlockKey(r: Row): Key
    requires IsPair(r.symbol)
  {
    Key(r.user, if r.side.Buy? then Quote(r.symbol) else Base(r.symbol))
  }

  function UnlockAmount(r: Row): real {
    if r.side.Buy? then Worth(r.price, r.Unfilled()) else r.Unfilled()
  }

  /** Confirming a cancel gives back the unrounded rest of the reservation. */
  ghost function ConfirmCancel(db: DB, e: Event): Outcome
    requires e.OrderCanceled?
  {
    if !TokenValid(db.fence, e.token) || e.id !in db.orders || db.orders[e.id].Closed() then Skipped
    else if !IsPair(db.orders[e.id].symbol) then Aborted
    else
      var r := db.orders[e.id];
      var u := Update(UnlockKey(r), 0.0, UnlockAmount(r));
      Committed(db.(orders := db.orders[e.id := r.(status := Canceled)], accounts := ApplyOne(db.accounts, u)))
  }

  ghost function Deliver(db: DB, e: Event): Outcome {
    if e.SettlementRequested? then Settle(db, e) else ConfirmCancel(db, e)
  }
}
