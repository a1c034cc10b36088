/** Money is neither created nor lost: what every transaction does to the total held per currency. */
module Conservation {
  import opened Types
  import opened Sums
  import opened Accounts
  import opened Settlement
  import opened Placement

  /** Balance and locked funds of one account, if it is in the currency. */
  function Held(t: Table, c: Currency): Key -> real {
    (k: Key) => if k in t && k.currency == c then t[k].balance + t[k].locked else 0.0
  }

  /** Everything all accounts hold of one currency. */
  ghost function Total(t: Table, c: Currency): real {
    Sum(t.Keys, Held(t, c))
  }

  /** The amounts of all movements in one currency. */
  function Flow(us: seq<Update>, c: Currency): real {
    if us == [] then 0.0 else (if us[0].key.currency == c then us[0].amount else 0.0) + Flow(us[1..], c)
  }

  /** The part of them addressed to accounts that do not exist. */
  function Missing(us: seq<Update>, t: Table, c: Currency): real {
    if us == [] then 0.0
    else (if us[0].key.currency == c && us[0].key !in t then us[0].amount else 0.0) + Missing(us[1..], t, c)
  }

  lemma {:induction false} FlowConcat(us: seq<Update>, vs: seq<Update>, c: Currency)
    ensures Flow(us + vs, c) == Flow(us, c) + Flow(vs, c)
  {
    if us == [] {
      assert us + vs == vs;
    } else {
      assert (us + vs)[1..] == us[1..] + vs;
      FlowConcat(us[1..], vs, c);
    }
  }

  function Arriving(us: seq<Update>, c: Currency): Key -> real {
    (k: Key) => if k.currency == c then AmountOf(us, k) else 0.0
  }

  function Single(u: Update, c: Currency): Key -> real {
    (k: Key) => if k == u.key && k.currency == c then u.amount else 0.0
  }

  lemma {:induction false} SingleSum(s: set<Key>, u: Update, c: Currency)
    ensures Sum(s, Single(u, c)) == if u.key in s && u.key.currency == c then u.amount else 0.0
  {
    if u.key in s {
      SumRemove(s, Single(u, c), u.key);
      SumZero(s - {u.key}, Single(u, c));
    } else {
      SumZero(s, Single(u, c));
    }
  }

  /** Summed over the existing accounts, the movements are all of them but the missing ones. */
  lemma {:induction false} ArrivingSum(t: Table, us: seq<Update>, c: Currency)
    ensures Sum(t.Keys, Arriving(us, c)) == Flow(us, c) - Missing(us, t, c)
  {
    if us == [] {
      SumZero(t.Keys, Arriving(us, c));
    } else {
      ArrivingSum(t, us[1..], c);
      SingleSum(t.Keys, us[0], c);
      SumAdd(t.Keys, Single(us[0], c), Arriving(us[1..], c), Arriving(us, c));
    }
  }

  lemma {:induction false} NetHeld(t: Table, us: seq<Update>, c: Currency, k: Key)
    requires k in t
    ensures Held(NetAll(t, us), c)(k) == Held(t, c)(k) + Arriving(us, c)(k)
  {
  }

  /** Netting movements changes a currency's total by their sum, less what has no account to go to. */
  lemma {:induction false} NetTotal(t: Table, us: seq<Update>, c: Currency)
    ensures Total(NetAll(t, us), c) == Total(t, c) + Flow(us, c) - Missing(us, t, c)
  {
    ArrivingSum(t, us, c);
    forall k | k in t.Keys ensures Held(NetAll(t, us), c)(k) == Held(t, c)(k) + Arriving(us, c)(k) {
      NetHeld(t, us, c, k);
    }
    assert NetAll(t, us).Keys == t.Keys;
    SumAdd(t.Keys, Held(t, c), Arriving(us, c), Held(NetAll(t, us), c));
  }

  /** The four movements of a trade cancel out in every currency, whatever the rounding does. */
  lemma {:induction false} TradeFlow(t: Trade, taker: Row, maker: Row, c: Currency)
    requires IsPair(taker.symbol)
    ensures Flow(TradeUpdates(t, taker, maker), c) == 0.0
  {
    var us := TradeUpdates(t, taker, maker);
    assert us[0].key.currency == us[3].key.currency && us[1].key.currency == us[2].key.currency;
    assert us[1..][1..][1..][1..] == [];
    assert Flow(us[1..][1..][1..], c) == if us[3].key.currency == c then us[3].amount else 0.0;
    assert Flow(us[1..][1..], c) == (if us[2].key.currency == c then us[2].amount else 0.0)
           + Flow(us[1..][1..][1..], c);
  }

  lemma {:induction false} AllTradesFlow(orders: Orders, trades: seq<Trade>, taker: OrderId, c: Currency)
    requires taker in orders && forall t :: t in trades ==> t.maker in orders
    ensures Flow(AllTradeUpdates(orders, trades, taker), c) == 0.0
    decreases trades
  {
    if trades != [] && IsPair(orders[taker].symbol) {
      var first := TradeUpdates(trades[0], orders[taker], orders[trades[0].maker]);
      TradeFlow(trades[0], orders[taker], orders[trades[0].maker], c);
      AllTradesFlow(orders, trades[1..], taker, c);
      FlowConcat(first, AllTradeUpdates(orders, trades[1..], taker), c);
    }
  }

  lemma {:induction false} SettlementFlow(orders: Orders, e: Event, c: Currency)
    requires e.SettlementRequested? && OrderIds(e) <= orders.Keys
    ensures Flow(SettlementUpdates(orders, e), c) == 0.0
  {
    forall t | t in e.trades ensures t.maker in orders {
      assert t.maker in OrderIds(e);
    }
    var taker := FillRows(orders, e.trades, e.taker)[e.taker];
    var refund := RefundUpdates(taker.user, e.lockedCurrency, FinishTaker(taker, e).1);
    AllTradesFlow(orders, e.trades, e.taker, c);
    FlowConcat(AllTradeUpdates(orders, e.trades, e.taker), refund, c);
    assert Flow(refund, c) == 0.0;
  }

  /**
   A delivered settlement conserves a currency exactly when the amounts it addresses to accounts that do
   not exist cancel out; nothing else about it matters: not prices, rounding or missed unlocks.
   */
  lemma {:induction false} SettleConserves(db: DB, e: Event, c: Currency)
    requires e.SettlementRequested? && Settle(db, e).Committed?
    ensures var lost := Missing(SettlementUpdates(db.orders, e), db.accounts, c);
            && Total(Settle(db, e).db.accounts, c) == Total(db.accounts, c) - lost
            && (Total(Settle(db, e).db.accounts, c) == Total(db.accounts, c) <==> lost == 0.0)
  {
    SettlementFlow(db.orders, e, c);
    NetTotal(db.accounts, SettlementUpdates(db.orders, e), c);
  }

  /** One account rewritten without changing what it holds. */
  lemma {:induction false} SwapConserves(t: Table, k: Key, a: Account, c: Currency)
    requires k in t && a.balance + a.locked == t[k].balance + t[k].locked
    ensures Total(t[k := a], c) == Total(t, c)
  {
    assert t[k := a].Keys == t.Keys;
    SumCongruent(t.Keys, Held(t, c), Held(t[k := a], c));
  }

  lemma {:induction false} ConfirmCancelConserves(db: DB, e: Event, c: Currency)
    requires e.OrderCanceled?
    ensures Total(After(db, ConfirmCancel(db, e)).accounts, c) == Total(db.accounts, c)
  {
    if ConfirmCancel(db, e).Committed? {
      var u := Update(UnlockKey(db.orders[e.id]), 0.0, UnlockAmount(db.orders[e.id]));
      if u.key in db.accounts {
        SwapConserves(db.accounts, u.key, Moved(db.accounts[u.key], u), c);
      }
    }
  }

  lemma {:induction false} LockAllConserves(t: Table, us: seq<Update>, c: Currency)
    ensures Total(LockAll(t, us), c) == Total(t, c)
  {
    assert LockAll(t, us).Keys == t.Keys;
    SumCongruent(t.Keys, Held(t, c), Held(LockAll(t, us), c));
  }

  /** Placing orders, alone or in a batch, only moves money between balance and locked. */
  lemma {:induction false} PlacementConserves(db: DB, r: Request, id: OrderId, rs: seq<Request>, ids: seq<OrderId>,
                                              now: int,
                                              snaps: Snapshots, c: Currency)
    requires |rs| == |ids|
    ensures Place(db, r, id, now, snaps).Some? ==>
            Total(Place(db, r, id, now, snaps).value.accounts, c) == Total(db.accounts, c)
    ensures Batch(db, rs, ids, now, snaps).Some? ==>
            Total(Batch(db, rs, ids, now, snaps).value.accounts, c) == Total(db.accounts, c)
  {
    PreparedLength(rs, snaps);
    if Place(db, r, id, now, snaps).Some? {
      var u := Prepare(r, snaps).value;
      SwapConserves(db.accounts, u.key, Lock(db.accounts[u.key], u.amount), c);
    }
    if Batch(db, rs, ids, now, snaps).Some? {
      LockAllConserves(db.accounts, PrepareAll(rs, snaps).value, c);
    }
  }
}
