/** Who owns what: every account is what its user was granted and what the trade rows moved in and out. */
module Holdings {
  import opened Types
  import opened Money
  import opened Settlement
  import opened OrderFlow
  import opened Ledger
  import opened Placement
  import opened Exchange
  import opened Runs
  import A = Accounts
  import Subscriber

  /** Balance and locked funds together; nothing for an account that does not exist. */
  function Held(t: A.Table, k: Key): real {
    if k in t then t[k].balance + t[k].locked else 0.0
  }

  function At(k: Key, l: Key, amount: real): real {
    if k == l then amount else 0.0
  }

  /** What one trade moves on an account: goods from the seller to the buyer, money the other way. */
  function Exchanged(buyer: UserId, seller: UserId, base: Currency, quote: Currency, goods: real, money: real,
                     k: Key): real {
    At(Key(buyer, base), k, goods) - At(Key(seller, base), k, goods)
    + At(Key(seller, quote), k, money) - At(Key(buyer, quote), k, money)
  }

  /** Buyer and seller of a trade row are told by the sides of the two orders it names. */
  function Transfer(orders: Orders, t: Trade, k: Key): real {
    if t.maker !in orders || t.taker !in orders || !IsPair(orders[t.taker].symbol) then 0.0
    else
      var taker, maker := orders[t.taker], orders[t.maker];
      var buyer := if taker.side.Buy? then taker.user else maker.user;
      var seller := if taker.side.Buy? then maker.user else taker.user;
      Exchanged(buyer, seller, Base(taker.symbol), Quote(taker.symbol), Round8(t.qty), Round8(Worth(t.price, t.qty)), k)
  }

  function Transfers(orders: Orders, trades: seq<Trade>, k: Key): real {
    if trades == [] then 0.0 else Transfer(orders, trades[0], k) + Transfers(orders, trades[1..], k)
  }

  lemma {:induction false} TransfersConcat(orders: Orders, a: seq<Trade>, b: seq<Trade>, k: Key)
    ensures Transfers(orders, a + b, k) == Transfers(orders, a, k) + Transfers(orders, b, k)
  {
    if a == [] {
      assert a + b == b;
    } else {
      assert (a + b)[1..] == a[1..] + b;
      TransfersConcat(orders, a[1..], b, k);
    }
  }

  predicate SameParty(a: Row, b: Row) {
    a.user == b.user && a.side == b.side && a.symbol == b.symbol
  }

  /** Trade rows mean the same as long as the orders they name keep user, side and symbol. */
  lemma {:induction false} TransfersKept(a: Orders, b: Orders, trades: seq<Trade>, k: Key)
    requires forall t :: t in trades ==> t.maker in a && t.taker in a
    requires forall id :: id in a ==> id in b && SameParty(a[id], b[id])
    ensures Transfers(a, trades, k) == Transfers(b, trades, k)
  {
    if trades != [] {
      assert trades[0] in trades && SameParty(a[trades[0].maker], b[trades[0].maker])
             && SameParty(a[trades[0].taker], b[trades[0].taker]);
      TransfersKept(a, b, trades[1..], k);
    }
  }

  // One settlement

  lemma {:induction false} TradeMoves(t: Trade, taker: Row, maker: Row, orders: Orders, k: Key)
    requires t.taker in orders && t.maker in orders && orders[t.taker] == taker && orders[t.maker] == maker
    requires IsPair(taker.symbol)
    ensures A.AmountOf(TradeUpdates(t, taker, maker), k) == Transfer(orders, t, k)
  {
    var us := TradeUpdates(t, taker, maker);
    assert us == [us[0], us[1], us[2], us[3]];
    FourAmounts(us[0], us[1], us[2], us[3], k);
  }

  lemma {:induction false} FourAmounts(a: A.Update, b: A.Update, c: A.Update, d: A.Update, k: Key)
    ensures A.AmountOf([a, b, c, d], k) == At(a.key, k, a.amount) + At(b.key, k, b.amount) + At(c.key, k, c.amount)
            + At(d.key, k, d.amount)
  {
    var us := [a, b, c, d];
    assert us[1..] == [b, c, d] && us[1..][1..] == [c, d] && us[1..][1..][1..] == [d] && us[1..][1..][1..][1..] == [];
    assert A.AmountOf([d], k) == At(d.key, k, d.amount);
    assert A.AmountOf([c, d], k) == At(c.key, k, c.amount) + At(d.key, k, d.amount);
    assert A.AmountOf([b, c, d], k) == At(b.key, k, b.amount) + A.AmountOf([c, d], k);
  }

  lemma {:induction false} TradesMove(o: Orders, trades: seq<Trade>, taker: OrderId, k: Key)
    requires taker in o && IsPair(o[taker].symbol) && forall t :: t in trades ==> t.maker in o && t.taker == taker
    ensures A.AmountOf(AllTradeUpdates(o, trades, taker), k) == Transfers(o, trades, k)
    decreases trades
  {
    if trades != [] {
      assert trades[0] in trades;
      TradeMoves(trades[0], o[taker], o[trades[0].maker], o, k);
      TradesMove(o, trades[1..], taker, k);
      A.SumsConcat(TradeUpdates(trades[0], o[taker], o[trades[0].maker]), AllTradeUpdates(o, trades[1..], taker), k);
    }
  }

  lemma {:induction false} SettlementMoves(o: Orders, e: Event, k: Key)
    requires RowsOk(o) && Valid(o, e) && e.SettlementRequested?
    ensures OrderIds(e) <= o.Keys && A.AmountOf(SettlementUpdates(o, e), k) == Transfers(o, e.trades, k)
  {
    ValidIds(o, e);
    forall t | t in e.trades ensures t.taker == e.taker {
      assert ValidTrade(o, t, o[e.taker]);
    }
    TradesMove(o, e.trades, e.taker, k);
    var taker := FillRows(o, e.trades, e.taker)[e.taker];
    var refund := RefundUpdates(taker.user, e.lockedCurrency, FinishTaker(taker, e).1);
    A.SumsConcat(AllTradeUpdates(o, e.trades, e.taker), refund, k);
    assert A.AmountOf(refund, k) == 0.0;
  }

  // Runs

  /** What an account holds beyond what the trade rows account for. */
  function Unexplained(db: DB, k: Key): real {
    Held(db.accounts, k) - Transfers(db.orders, db.trades, k)
  }

  /** What one action hands out to an account. */
  ghost function GrantedTo(t: A.Table, a: Action, k: Key): real {
    match a
    case Register(user) =>
      if k.user != user then 0.0
      else if k.currency == USD then 1000000.0
      else if k.currency == BTC then 100.0
      else if k.currency == ETH then 1000.0
      else 0.0
    case Recharge(user) =>
      if k.user != user || k !in t then 0.0
      else if k.currency == BTC then 10000.0 else if k.currency == USD then 100000000.0 else 0.0
    case _ => 0.0
  }

  ghost predicate NamesKnown(db: DB) {
    forall t :: t in db.trades ==> t.maker in db.orders && t.taker in db.orders
  }

  lemma {:induction false} TradesKnown(s: State)
    requires TradesOk(s)
    ensures NamesKnown(s.db)
  {
    forall t | t in s.db.trades ensures t.maker in s.db.orders && t.taker in s.db.orders {
      assert TradeOk(s, t);
    }
  }

  /** More orders, or orders moved forward, do not change what the trades explain. */
  lemma {:induction false} SameHoldings(db: DB, next: DB, k: Key)
    requires NamesKnown(db) && next.trades == db.trades && Held(next.accounts, k) == Held(db.accounts, k)
    requires forall id :: id in db.orders ==> id in next.orders && SameParty(db.orders[id], next.orders[id])
    ensures Unexplained(next, k) == Unexplained(db, k)
  {
    TransfersKept(db.orders, next.orders, db.trades, k);
  }

  lemma {:induction false} ForwardParty(a: Row, b: Row)
    requires Forward(a, b)
    ensures SameParty(a, b)
  {
    assert Subscriber.Terms(a).user == a.user && Subscriber.Terms(b).user == b.user;
    assert Subscriber.Terms(a).side == a.side && Subscriber.Terms(b).side == b.side;
    assert Subscriber.Terms(a).symbol == a.symbol && Subscriber.Terms(b).symbol == b.symbol;
  }

  lemma {:induction false} RowsParty(o: Orders, e: Event)
    requires RowsOk(o) && Valid(o, e)
    ensures forall id :: id in o ==> id in Rows(o, e) && SameParty(o[id], Rows(o, e)[id])
  {
    RowsForward(o, e);
    forall id | id in o ensures SameParty(o[id], Rows(o, e)[id]) {
      ForwardParty(o[id], Rows(o, e)[id]);
    }
  }

  lemma {:induction false} SettledHeld(s: State, sym: Symbol, k: Key)
    requires Inv(s) && Accounted(s.db.orders, s.db.accounts) && s.Queue(sym) != []
             && s.Queue(sym)[0].SettlementRequested?
    requires Deliver(s.db, s.Queue(sym)[0]).Committed?
    ensures Held(Deliver(s.db, s.Queue(sym)[0]).db.accounts, k) ==
            Held(s.db.accounts, k) + Transfers(s.db.orders, s.Queue(sym)[0].trades, k)
  {
    var e := s.Queue(sym)[0];
    HeadReady(s, sym);
    HeadAccounts(s, sym);
    SettlementMoves(s.db.orders, e, k);
    NetHolds(s.db.accounts, SettlementUpdates(s.db.orders, e), k);
    SettledAccounts(s.db, e);
  }

  lemma {:induction false} SettledAccounts(db: DB, e: Event)
    requires e.SettlementRequested? && Settle(db, e).Committed?
    ensures OrderIds(e) <= db.orders.Keys
            && Settle(db, e).db.accounts == NetAll(db.accounts, SettlementUpdates(db.orders, e))
  {
  }

  lemma {:induction false} NetHolds(t: A.Table, us: seq<A.Update>, k: Key)
    requires forall u :: u in us ==> u.key in t
    ensures Held(NetAll(t, us), k) == Held(t, k) + A.AmountOf(us, k)
  {
    if k !in t {
      A.SumsAbsent(us, k);
    }
  }

  lemma {:induction false} ConsumeHoldings(s: State, sym: Symbol, k: Key)
    requires Inv(s) && Accounted(s.db.orders, s.db.accounts) && s.Queue(sym) != []
    ensures Unexplained(AfterConsume(s, sym).db, k) == Unexplained(s.db, k)
  {
    var e := s.Queue(sym)[0];
    var out := Deliver(s.db, e);
    HeadDelivered(s, sym);
    if out.Committed? {
      HeadReady(s, sym);
      TradesKnown(s);
      if e.SettlementRequested? {
        EventNames(s.db.orders, e);
        SettledHeld(s, sym, k);
      } else {
        NothingTraded(s.db, e, k);
      }
      RowsParty(s.db.orders, e);
      AppendedTransfers(s.db.orders, out.db.orders, s.db.trades, TradesOf(e), k);
    }
  }

  lemma {:induction false} NothingTraded(db: DB, e: Event, k: Key)
    requires e.OrderCanceled? && ConfirmCancel(db, e).Committed?
    ensures Held(ConfirmCancel(db, e).db.accounts, k) == Held(db.accounts, k)
            && Transfers(db.orders, TradesOf(e), k) == 0.0
  {
  }

  lemma {:induction false} AppendedTransfers(a: Orders, b: Orders, trades: seq<Trade>, more: seq<Trade>, k: Key)
    requires forall t :: t in trades || t in more ==> t.maker in a && t.taker in a
    requires forall id :: id in a ==> id in b && SameParty(a[id], b[id])
    ensures Transfers(b, trades + more, k) == Transfers(a, trades, k) + Transfers(a, more, k)
  {
    TransfersConcat(b, trades, more, k);
    TransfersKept(a, b, trades, k);
    TransfersKept(a, b, more, k);
  }

  lemma {:induction false} EventNames(o: Orders, e: Event)
    requires RowsOk(o) && Valid(o, e) && e.SettlementRequested?
    ensures forall t :: t in e.trades ==> t.maker in o && t.taker in o
  {
    forall t | t in e.trades ensures t.maker in o && t.taker in o {
      assert ValidTrade(o, t, o[e.taker]);
    }
  }

  lemma {:induction false} AdmitHoldings(db: DB, rs: seq<Request>, ids: seq<OrderId>, now: int, snaps: Snapshots,
                                         k: Key)
    requires |rs| == |ids| && NamesKnown(db) && AdmitAll(db, rs, ids, now, snaps).Some?
    ensures Unexplained(AdmitAll(db, rs, ids, now, snaps).value, k) == Unexplained(db, k)
    decreases rs
  {
    if rs != [] {
      var next := Admit(db, rs[0], ids[0], now, snaps).value;
      SameHoldings(db, next, k);
      AdmitHoldings(next, rs[1..], ids[1..], now, snaps, k);
    }
  }

  lemma {:induction false} GrantHoldings(s: State, a: Action, k: Key)
    requires Enabled(s, a) && (a.Register? || a.Recharge?)
    ensures Held(Step(s, a).db.accounts, k) == Held(s.db.accounts, k) + GrantedTo(s.db.accounts, a, k)
  {
    match a
    case Register(user) =>
    case Recharge(user) =>
      var us := A.RechargeUpdates(user);
      var one := A.ApplyOne(s.db.accounts, us[0]);
      assert A.ApplyAll(one, us[1..]) == A.ApplyOne(one, us[1]) by {
        assert us[1..][0] == us[1] && us[1..][1..] == [];
      }
  }

  lemma {:induction false} PlaceHoldings(s: State, a: Action, k: Key)
    requires Inv(s) && Enabled(s, a) && (a.PlaceOne? || a.PlaceMany?)
    ensures Unexplained(Step(s, a).db, k) == Unexplained(s.db, k)
  {
    TradesKnown(s);
    match a
    case PlaceOne(r, id, now, snaps) =>
      if Place(s.db, r, id, now, snaps).Some? {
        SameHoldings(s.db, Step(s, a).db, k);
      }
    case PlaceMany(rs, ids, now, snaps) =>
      BatchAdmits(s.db, rs, ids, now, snaps);
      if AdmitAll(s.db, rs, ids, now, snaps).Some? {
        AdmitHoldings(s.db, rs, ids, now, snaps, k);
      }
  }

  lemma {:induction false} StepHoldings(s: State, a: Action, k: Key)
    requires Inv(s) && Accounted(s.db.orders, s.db.accounts) && Enabled(s, a)
    ensures Unexplained(Step(s, a).db, k) == Unexplained(s.db, k) + GrantedTo(s.db.accounts, a, k)
  {
    match a
    case Consume(sym) => ConsumeHoldings(s, sym, k);
    case Redeliver(_) => RedeliverNothing(s, a);
    case Stray(_) => RedeliverNothing(s, a);
    case Takeover(term, q) =>
    case Match(id, nid, token) =>
    case CancelRequested(id, token) =>
    case _ =>
      if a.Register? || a.Recharge? {
        GrantHoldings(s, a, k);
      } else {
        PlaceHoldings(s, a, k);
      }
  }

  ghost function AllGrantedTo(s: State, run: seq<Action>, k: Key): real
    requires Legal(s, run)
    decreases run
  {
    if run == [] then 0.0 else GrantedTo(s.db.accounts, run[0], k) + AllGrantedTo(Step(s, run[0]), run[1..], k)
  }

  lemma {:induction false} RunHoldings(s: State, run: seq<Action>, k: Key)
    requires Inv(s) && Accounted(s.db.orders, s.db.accounts) && Legal(s, run)
    ensures Unexplained(End(s, run).db, k) == Unexplained(s.db, k) + AllGrantedTo(s, run, k)
    decreases run
  {
    if run != [] {
      StepInv(s, run[0]);
      StepConserves(s, run[0], k.currency);
      StepHoldings(s, run[0], k);
      RunHoldings(Step(s, run[0]), run[1..], k);
    }
  }

  /**
   In every reachable state an account holds exactly what it was granted, plus what its user bought and was
   paid, minus what its user sold and paid according to the trade rows.
   */
  lemma {:induction false} AccountsFollowTrades(fence: Option<nat>, run: seq<Action>, k: Key)
    requires Legal(Start(fence), run)
    ensures var db := End(Start(fence), run).db;
            Held(db.accounts, k) == AllGrantedTo(Start(fence), run, k) + Transfers(db.orders, db.trades, k)
  {
    StartInv(fence);
    RunHoldings(Start(fence), run, k);
  }
}
