/**
 What holds over every run of the exchange: the order ledger, the direction of order statuses, absorption
 of redeliveries, and conservation of money.
 */
module Runs {
  import opened Types
  import opened Sums
  import opened Settlement
  import opened OrderFlow
  import opened Streams
  import opened Ledger
  import opened Placement
  import opened Exchange
  import opened Conservation
  import A = Accounts
  import Subscriber
  import Reservation

  // The order ledger

  /**
   After any run, an order has filled exactly what the trade rows naming it add up to, never more than it
   asked for; a limit order is FILLED exactly when it has filled all of that, PARTIALLY_FILLED only in between,
   and a market order is never left open in between and CANCELED only when nothing traded.
   */
  lemma {:induction false} OrderLedger(fence: Option<nat>, run: seq<Action>, id: OrderId)
    requires Legal(Start(fence), run) && id in End(Start(fence), run).db.orders
    ensures var db := End(Start(fence), run).db; var r := db.orders[id];
            && r.filled == TradeSum(db.trades, id)
            && 0.0 <= r.filled <= r.qty
            && (r.otype.Limit? ==> (r.status.Filled? <==> r.filled == r.qty))
            && (r.status.New? ==> r.filled == 0.0)
            && (r.status.PartiallyFilled? ==> r.otype.Limit? && 0.0 < r.filled < r.qty)
            && (r.otype.Market? && r.Closed() ==> (r.status.Filled? <==> r.filled > 0.0))
  {
    StartInv(fence);
    RunInv(Start(fence), run);
    assert RowOk(id, End(Start(fence), run).db.orders[id]);
  }

  lemma {:induction false} AdmitKeeps(db: DB, rs: seq<Request>, ids: seq<OrderId>, now: int, snaps: Snapshots,
                                      id: OrderId)
    requires |rs| == |ids| && id in db.orders && AdmitAll(db, rs, ids, now, snaps).Some?
    ensures var next := AdmitAll(db, rs, ids, now, snaps).value; id in next.orders && next.orders[id] == db.orders[id]
    decreases rs
  {
    if rs != [] {
      AdmitKeeps(Admit(db, rs[0], ids[0], now, snaps).value, rs[1..], ids[1..], now, snaps, id);
    }
  }

  lemma {:induction false} ConsumeForward(s: State, sym: Symbol, id: OrderId)
    requires Inv(s) && s.Queue(sym) != [] && id in s.db.orders
    ensures id in AfterConsume(s, sym).db.orders && Forward(s.db.orders[id], AfterConsume(s, sym).db.orders[id])
  {
    HeadReady(s, sym);
    HeadDelivered(s, sym);
    RowsForward(s.db.orders, s.Queue(sym)[0]);
  }

  lemma {:induction false} StepForward(s: State, a: Action, id: OrderId)
    requires Inv(s) && Enabled(s, a) && id in s.db.orders
    ensures id in Step(s, a).db.orders && Forward(s.db.orders[id], Step(s, a).db.orders[id])
  {
    match a
    case Consume(sym) => ConsumeForward(s, sym, id);
    case PlaceMany(rs, ids, now, snaps) =>
      BatchAdmits(s.db, rs, ids, now, snaps);
      if AdmitAll(s.db, rs, ids, now, snaps).Some? {
        AdmitKeeps(s.db, rs, ids, now, snaps, id);
      }
    case Redeliver(_) => RedeliverNothing(s, a);
    case Stray(_) => RedeliverNothing(s, a);
    case _ =>
  }

  /** No order ever returns to NEW, leaves FILLED or CANCELED, loses fills or changes its terms. */
  lemma {:induction false} RunForward(s: State, run: seq<Action>, id: OrderId)
    requires Inv(s) && Legal(s, run) && id in s.db.orders
    ensures id in End(s, run).db.orders && Forward(s.db.orders[id], End(s, run).db.orders[id])
    decreases run
  {
    if run != [] {
      var next := Step(s, run[0]);
      StepInv(s, run[0]);
      StepForward(s, run[0], id);
      RunForward(next, run[1..], id);
      ForwardTwice(s.db.orders[id], next.db.orders[id], End(s, run).db.orders[id]);
    }
  }

  // Redeliveries

  function Stripped(run: seq<Action>): seq<Action> {
    if run == [] then [] else (if run[0].Redeliver? || run[0].Stray? then [] else [run[0]]) + Stripped(run[1..])
  }

  /** Leaving out all redeliveries and strays gives a legal run that ends in the very same state. */
  lemma {:induction false} ReplaysAbsorbed(s: State, run: seq<Action>)
    requires Inv(s) && Legal(s, run)
    ensures Legal(s, Stripped(run)) && End(s, Stripped(run)) == End(s, run)
    decreases run
  {
    if run != [] {
      StepInv(s, run[0]);
      ReplaysAbsorbed(Step(s, run[0]), run[1..]);
      if run[0].Redeliver? || run[0].Stray? {
        RedeliverNothing(s, run[0]);
        assert Stripped(run) == Stripped(run[1..]);
      } else {
        assert Stripped(run)[0] == run[0] && Stripped(run)[1..] == Stripped(run[1..]);
      }
    }
  }

  // Conservation

  /** Users have accounts in all three currencies and in no other. */
  ghost predicate Funded(t: A.Table) {
    forall k :: k in t ==> k.currency <= USD && Key(k.user, BTC) in t && Key(k.user, ETH) in t && Key(k.user, USD) in t
  }

  predicate RowFunded(r: Row, t: A.Table) {
    IsPair(r.symbol) && UnlockKey(r) in t
  }

  ghost predicate Accounted(orders: Orders, t: A.Table) {
    Funded(t) && forall id :: id in orders ==> RowFunded(orders[id], t)
  }

  lemma {:induction false} FundedKey(t: A.Table, user: UserId, c: Currency, k: Key, l: Key)
    requires Funded(t) && k in t && k.user == user && l in t && l.currency == c
    ensures Key(user, c) in t
  {
    assert c == BTC || c == ETH || c == USD;
  }

  lemma {:induction false} NothingMissing(us: seq<A.Update>, t: A.Table, c: Currency)
    requires forall u :: u in us ==> u.key in t
    ensures Missing(us, t, c) == 0.0
  {
    if us != [] {
      assert us[0] in us;
      NothingMissing(us[1..], t, c);
    }
  }

  /** Two orders of one symbol on opposite sides: all four accounts of a trade exist. */
  lemma {:induction false} TradeAccounts(t: Trade, taker: Row, maker: Row, accounts: A.Table)
    requires Funded(accounts) && RowFunded(taker, accounts) && RowFunded(maker, accounts)
    requires maker.symbol == taker.symbol && maker.side == taker.side.Opposite()
    ensures forall u :: u in TradeUpdates(t, taker, maker) ==> u.key in accounts
  {
    FundedKey(accounts, taker.user, UnlockKey(maker).currency, UnlockKey(taker), UnlockKey(maker));
    FundedKey(accounts, maker.user, UnlockKey(taker).currency, UnlockKey(maker), UnlockKey(taker));
  }

  lemma {:induction false} AllTradeAccounts(o: Orders, trades: seq<Trade>, taker: OrderId, t: A.Table)
    requires Accounted(o, t) && taker in o
    requires forall x :: x in trades ==>
               x.maker in o && o[x.maker].symbol == o[taker].symbol && o[x.maker].side == o[taker].side.Opposite()
    ensures forall u :: u in AllTradeUpdates(o, trades, taker) ==> u.key in t
    decreases trades
  {
    if trades != [] {
      assert trades[0] in trades;
      TradeAccounts(trades[0], o[taker], o[trades[0].maker], t);
      AllTradeAccounts(o, trades[1..], taker, t);
    }
  }

  /** A valid settlement of one symbol only moves money between existing accounts. */
  lemma {:induction false} SettlementAccounts(o: Orders, sym: Symbol, e: Event, t: A.Table)
    requires RowsOk(o) && Valid(o, e) && e.SettlementRequested? && Accounted(o, t)
    requires forall id :: id in o ==> o[id].symbol == sym
    ensures OrderIds(e) <= o.Keys && forall u :: u in SettlementUpdates(o, e) ==> u.key in t
  {
    ValidIds(o, e);
    forall x | x in e.trades ensures x.maker in o && o[x.maker].side == o[e.taker].side.Opposite() {
      assert ValidTrade(o, x, o[e.taker]);
    }
    AllTradeAccounts(o, e.trades, e.taker, t);
    TakerFilled(o, e.trades, e.taker);
    assert RowFunded(o[e.taker], t) && UnlockKey(o[e.taker]) == Key(o[e.taker].user, e.lockedCurrency);
  }

  lemma {:induction false} HeadAccounts(s: State, sym: Symbol)
    requires Inv(s) && s.Queue(sym) != [] && Accounted(s.db.orders, s.db.accounts)
             && s.Queue(sym)[0].SettlementRequested?
    ensures var e := s.Queue(sym)[0];
            && OrderIds(e) <= s.db.orders.Keys
            && forall u :: u in SettlementUpdates(s.db.orders, e) ==> u.key in s.db.accounts
  {
    var e, o := s.Queue(sym)[0], s.View(sym);
    HeadReady(s, sym);
    assert forall id :: id in o ==> RowFunded(o[id], s.db.accounts);
    SettlementAccounts(o, sym, e, s.db.accounts);
    Subscriber.LockedSuffices(s.db.orders, o, e);
  }

  lemma {:induction false} RowsFunded(o: Orders, e: Event, t: A.Table)
    requires RowsOk(o) && Valid(o, e) && Accounted(o, t)
    ensures Accounted(Rows(o, e), t)
  {
    RowsForward(o, e);
    forall id | id in o ensures RowFunded(Rows(o, e)[id], t) {
      assert RowFunded(o[id], t) && Forward(o[id], Rows(o, e)[id]);
      Reservation.SameKey(o[id], Rows(o, e)[id]);
    }
  }


  lemma {:induction false} SameKeysAccounted(o: Orders, t: A.Table, u: A.Table)
    requires Accounted(o, t) && u.Keys == t.Keys
    ensures Accounted(o, u)
  {
    forall id | id in o ensures RowFunded(o[id], u) {
      assert RowFunded(o[id], t);
    }
  }

  /** Money handed out to test users by one action. */
  ghost function Granted(t: A.Table, a: Action, c: Currency): real {
    match a
    case Register(_) => if c == USD then 1000000.0 else if c == BTC then 100.0 else if c == ETH then 1000.0 else 0.0
    case Recharge(user) =>
      if Key(user, c) !in t then 0.0 else if c == BTC then 10000.0 else if c == USD then 100000000.0 else 0.0
    case _ => 0.0
  }

  lemma {:induction false} OpenAccount(t: A.Table, k: Key, a: A.Account, c: Currency)
    requires k !in t
    ensures Total(t[k := a], c) == Total(t, c) + if k.currency == c then a.balance + a.locked else 0.0
  {
    assert t[k := a].Keys == t.Keys + {k};
    SumInsert(t.Keys, Held(t[k := a], c), k);
    SumCongruent(t.Keys, Held(t, c), Held(t[k := a], c));
  }

  lemma {:induction false} RegisterGrants(t: A.Table, user: UserId, c: Currency)
    requires forall x :: Key(user, x) !in t
    ensures Total(A.Register(t, user), c) == Total(t, c) + Granted(t, Action.Register(user), c)
  {
    var one := t[Key(user, USD) := A.Account(1000000.0, 0.0)];
    var two := one[Key(user, BTC) := A.Account(100.0, 0.0)];
    OpenAccount(t, Key(user, USD), A.Account(1000000.0, 0.0), c);
    OpenAccount(one, Key(user, BTC), A.Account(100.0, 0.0), c);
    OpenAccount(two, Key(user, ETH), A.Account(1000.0, 0.0), c);
    assert A.Register(t, user) == two[Key(user, ETH) := A.Account(1000.0, 0.0)];
  }

  lemma {:induction false} CreditGrants(t: A.Table, k: Key, amount: real, c: Currency)
    ensures A.ApplyOne(t, A.Update(k, amount, 0.0)).Keys == t.Keys
    ensures Total(A.ApplyOne(t, A.Update(k, amount, 0.0)), c) ==
            Total(t, c) + if k in t && k.currency == c then amount else 0.0
  {
    var next := A.ApplyOne(t, A.Update(k, amount, 0.0));
    assert next.Keys == t.Keys;
    if k in t {
      SumPoint(t.Keys, Held(t, c), Held(next, c), k);
    }
  }

  lemma {:induction false} RechargeGrants(t: A.Table, user: UserId, c: Currency)
    ensures A.Recharge(t, user).Keys == t.Keys
    ensures Total(A.Recharge(t, user), c) == Total(t, c) + Granted(t, Action.Recharge(user), c)
  {
    var us := A.RechargeUpdates(user);
    var one := A.ApplyOne(t, us[0]);
    CreditGrants(t, us[0].key, us[0].amount, c);
    CreditGrants(one, us[1].key, us[1].amount, c);
    assert A.ApplyAll(one, us[1..]) == A.ApplyOne(one, us[1]) by {
      assert us[1..][0] == us[1] && us[1..][1..] == [];
    }
  }

  lemma {:induction false} ConsumeAccounted(s: State, sym: Symbol)
    requires Inv(s) && Accounted(s.db.orders, s.db.accounts) && s.Queue(sym) != []
             && Deliver(s.db, s.Queue(sym)[0]).Committed?
    ensures var next := Deliver(s.db, s.Queue(sym)[0]).db; Accounted(next.orders, next.accounts)
  {
    var e := s.Queue(sym)[0];
    HeadReady(s, sym);
    HeadDelivered(s, sym);
    RowsFunded(s.db.orders, e, s.db.accounts);
    assert Deliver(s.db, e).db.accounts.Keys == s.db.accounts.Keys;
    SameKeysAccounted(Rows(s.db.orders, e), s.db.accounts, Deliver(s.db, e).db.accounts);
  }

  lemma {:induction false} ConsumeConserves(s: State, sym: Symbol, c: Currency)
    requires Inv(s) && Accounted(s.db.orders, s.db.accounts) && s.Queue(sym) != []
             && Deliver(s.db, s.Queue(sym)[0]).Committed?
    ensures Total(Deliver(s.db, s.Queue(sym)[0]).db.accounts, c) == Total(s.db.accounts, c)
  {
    var e := s.Queue(sym)[0];
    if e.SettlementRequested? {
      HeadAccounts(s, sym);
      NothingMissing(SettlementUpdates(s.db.orders, e), s.db.accounts, c);
      SettleConserves(s.db, e, c);
    } else {
      ConfirmCancelConserves(s.db, e, c);
    }
  }

  lemma {:induction false} ConsumeStepConserves(s: State, sym: Symbol, c: Currency)
    requires Inv(s) && Accounted(s.db.orders, s.db.accounts) && s.Queue(sym) != []
    ensures var next := AfterConsume(s, sym).db;
            Accounted(next.orders, next.accounts) && Total(next.accounts, c) == Total(s.db.accounts, c)
  {
    HeadDelivered(s, sym);
    if Deliver(s.db, s.Queue(sym)[0]).Committed? {
      ConsumeAccounted(s, sym);
      ConsumeConserves(s, sym, c);
    }
  }

  lemma {:induction false} AdmitConserves(db: DB, rs: seq<Request>, ids: seq<OrderId>, now: int, snaps: Snapshots,
                                          c: Currency)
    requires |rs| == |ids| && Accounted(db.orders, db.accounts) && AdmitAll(db, rs, ids, now, snaps).Some?
    ensures var next := AdmitAll(db, rs, ids, now, snaps).value;
            Accounted(next.orders, next.accounts) && Total(next.accounts, c) == Total(db.accounts, c)
    decreases rs
  {
    if rs != [] {
      var next := Admit(db, rs[0], ids[0], now, snaps).value;
      var u := Prepare(rs[0], snaps).value;
      SwapConserves(db.accounts, u.key, A.Lock(db.accounts[u.key], u.amount), c);
      AdmitFunded(db, rs[0], ids[0], now, snaps);
      AdmitConserves(next, rs[1..], ids[1..], now, snaps, c);
    }
  }

  lemma {:induction false} AdmitFunded(db: DB, r: Request, id: OrderId, now: int, snaps: Snapshots)
    requires Accounted(db.orders, db.accounts) && Admit(db, r, id, now, snaps).Some?
    ensures var next := Admit(db, r, id, now, snaps).value; Accounted(next.orders, next.accounts)
  {
    var next := Admit(db, r, id, now, snaps).value;
    SameKeysAccounted(db.orders, db.accounts, next.accounts);
    forall x | x in next.orders ensures RowFunded(next.orders[x], next.accounts) {
      assert x in db.orders ==> RowFunded(db.orders[x], next.accounts);
    }
  }

  lemma {:induction false} RegisterAccounted(o: Orders, t: A.Table, user: UserId)
    requires Accounted(o, t)
    ensures Accounted(o, A.Register(t, user))
  {
    forall id | id in o ensures RowFunded(o[id], A.Register(t, user)) {
      assert RowFunded(o[id], t);
    }
  }

  lemma {:induction false} FundsConserve(s: State, a: Action, c: Currency)
    requires Accounted(s.db.orders, s.db.accounts) && Enabled(s, a) && (a.Register? || a.Recharge?)
    ensures var next := Step(s, a).db;
            && Accounted(next.orders, next.accounts)
            && Total(next.accounts, c) == Total(s.db.accounts, c) + Granted(s.db.accounts, a, c)
  {
    match a
    case Register(user) =>
      RegisterGrants(s.db.accounts, user, c);
      RegisterAccounted(s.db.orders, s.db.accounts, user);
    case Recharge(user) =>
      RechargeGrants(s.db.accounts, user, c);
      SameKeysAccounted(s.db.orders, s.db.accounts, A.Recharge(s.db.accounts, user));
  }

  lemma {:induction false} PlaceConserves(s: State, a: Action, c: Currency)
    requires Inv(s) && Accounted(s.db.orders, s.db.accounts) && Enabled(s, a) && (a.PlaceOne? || a.PlaceMany?)
    ensures var next := Step(s, a).db;
            Accounted(next.orders, next.accounts) && Total(next.accounts, c) == Total(s.db.accounts, c)
  {
    match a
    case PlaceOne(r, id, now, snaps) =>
      if Place(s.db, r, id, now, snaps).Some? {
        PlacementConserves(s.db, r, id, [], [], now, snaps, c);
        AdmitFunded(s.db, r, id, now, snaps);
      }
    case PlaceMany(rs, ids, now, snaps) =>
      BatchAdmits(s.db, rs, ids, now, snaps);
      if AdmitAll(s.db, rs, ids, now, snaps).Some? {
        AdmitConserves(s.db, rs, ids, now, snaps, c);
      }
  }

  /** Every step changes what all accounts hold of a currency by what it hands out, so by nothing else. */
  lemma {:induction false} StepConserves(s: State, a: Action, c: Currency)
    requires Inv(s) && Accounted(s.db.orders, s.db.accounts) && Enabled(s, a)
    ensures var next := Step(s, a).db;
            && Accounted(next.orders, next.accounts)
            && Total(next.accounts, c) == Total(s.db.accounts, c) + Granted(s.db.accounts, a, c)
  {
    match a
    case Consume(sym) => ConsumeStepConserves(s, sym, c);
    case Redeliver(_) => RedeliverNothing(s, a);
    case Stray(_) => RedeliverNothing(s, a);
    case Match(id, nid, token) =>
    case CancelRequested(id, token) =>
    case Takeover(term, q) =>
    case _ =>
      if a.Register? || a.Recharge? {
        FundsConserve(s, a, c);
      } else {
        PlaceConserves(s, a, c);
      }
  }

  /** All that a run hands out. */
  ghost function GrantedBy(s: State, run: seq<Action>, c: Currency): real
    requires Legal(s, run)
    decreases run
  {
    if run == [] then 0.0 else Granted(s.db.accounts, run[0], c) + GrantedBy(Step(s, run[0]), run[1..], c)
  }

  lemma {:induction false} RunConserves(s: State, run: seq<Action>, c: Currency)
    requires Inv(s) && Accounted(s.db.orders, s.db.accounts) && Legal(s, run)
    ensures Total(End(s, run).db.accounts, c) == Total(s.db.accounts, c) + GrantedBy(s, run, c)
    decreases run
  {
    if run != [] {
      StepInv(s, run[0]);
      StepConserves(s, run[0], c);
      RunConserves(Step(s, run[0]), run[1..], c);
    }
  }

  /** In every reachable state, all accounts together hold exactly what was handed out. */
  lemma {:induction false} MoneyConserved(fence: Option<nat>, run: seq<Action>, c: Currency)
    requires Legal(Start(fence), run)
    ensures Total(End(Start(fence), run).db.accounts, c) == GrantedBy(Start(fence), run, c)
  {
    StartInv(fence);
    RunConserves(Start(fence), run, c);
  }
}
