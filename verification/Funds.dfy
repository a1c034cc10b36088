/**
 The reservation invariant over whole runs: locked funds are exactly what open orders still reserve, so
 no unlock ever misses and no CHECK constraint ever fires. It needs amounts that settlement does not have
 to round, and market buys that cost no more than was locked for them.
 */
module Funds {
  import opened Types
  import opened Sums
  import opened Settlement
  import opened OrderFlow
  import opened Streams
  import opened Placement
  import opened Exchange
  import opened Reservation
  import opened Grid
  import A = Accounts

  /** Lot and tick of every symbol. */
  type Units = Symbol -> Unit

  ghost predicate GoodUnits(units: Units) {
    forall sym :: GoodUnit(units(sym))
  }

  ghost predicate OnUnits(orders: Orders, units: Units) {
    forall id :: id in orders ==> GridRow(orders[id], units(orders[id].symbol))
  }

  ghost predicate QueuesOnUnits(queue: map<Symbol, seq<Event>>, units: Units) {
    forall sym :: sym in queue ==> AllGrid(queue[sym], units(sym))
  }

  ghost predicate AllGrid(q: seq<Event>, u: Unit) {
    forall e :: e in q ==> GridEvent(e, u)
  }

  ghost predicate Strong(s: State, units: Units) {
    Inv(s) && Backed(s.db.orders, s.db.accounts) && OnUnits(s.db.orders, units) && QueuesOnUnits(s.queue, units)
  }

  /** The order a request becomes is in lots and ticks, with an amount to lock that is on the grid. */
  ghost predicate GridRequest(r: Request, snaps: Snapshots, units: Units) {
    Prepare(r, snaps).Some? ==> forall id, now ::
      GridRow(NewRow(Normalize(r), id, now, Prepare(r, snaps).value.amount), units(r.symbol))
  }

  /** The two assumptions: requests on the grid, and affordable market buys. */
  ghost predicate Careful(s: State, a: Action, units: Units) {
    match a
    case PlaceOne(r, _, _, snaps) => GridRequest(r, snaps, units)
    case PlaceMany(rs, _, _, snaps) => forall r :: r in rs ==> GridRequest(r, snaps, units)
    case Consume(sym) => s.Queue(sym) != [] ==> Affordable(s.db.orders, s.Queue(sym)[0])
    case _ => true
  }

  ghost predicate CarefulRun(s: State, run: seq<Action>, units: Units)
    decreases run
  {
    run == [] || (Enabled(s, run[0]) && Careful(s, run[0], units) && CarefulRun(Step(s, run[0]), run[1..], units))
  }

  lemma {:induction false} ViewOnUnits(s: State, units: Units, sym: Symbol)
    requires OnUnits(s.db.orders, units)
    ensures GridRows(s.View(sym), units(sym))
  {
  }

  lemma {:induction false} FoldInLots(o: Orders, q: seq<Event>, u: Unit)
    requires RowsOk(o) && Chain(o, q) && GridRows(o, u) && AllGrid(q, u)
    ensures GridRows(Fold(o, q), u)
    decreases q
  {
    if q != [] {
      assert q[0] in q;
      RowsInLots(o, q[0], u);
      RowsForward(o, q[0]);
      FoldInLots(Rows(o, q[0]), q[1..], u);
    }
  }

  lemma {:induction false} PublishOnUnits(queue: map<Symbol, seq<Event>>, units: Units, sym: Symbol, more: seq<Event>)
    requires QueuesOnUnits(queue, units) && AllGrid(more, units(sym))
    ensures QueuesOnUnits(Publish(queue, sym, more), units)
  {
  }

  lemma {:induction false} HeadOnUnits(queue: map<Symbol, seq<Event>>, units: Units, sym: Symbol)
    requires QueuesOnUnits(queue, units) && sym in queue && queue[sym] != []
    ensures GridEvent(queue[sym][0], units(sym)) && QueuesOnUnits(queue[sym := queue[sym][1..]], units)
  {
    assert AllGrid(queue[sym], units(sym));
  }

  // Consuming

  /** Exactness only looks at the orders the event names. */
  lemma {:induction false} ExactMore(o: Orders, more: Orders, e: Event)
    requires Exact(o, e) && o.Keys <= more.Keys && forall id :: id in o ==> more[id] == o[id]
    ensures Exact(more, e)
  {
  }

  lemma {:induction false} HeadExact(s: State, units: Units, sym: Symbol)
    requires Strong(s, units) && GoodUnits(units) && s.Queue(sym) != [] && Affordable(s.db.orders, s.Queue(sym)[0])
    ensures Exact(s.db.orders, s.Queue(sym)[0])
  {
    var e, o := s.Queue(sym)[0], s.View(sym);
    HeadReady(s, sym);
    ViewOnUnits(s, units, sym);
    HeadOnUnits(s.queue, units, sym);
    GridIsExact(o, sym, e, units(sym));
    ExactMore(o, s.db.orders, e);
  }

  /**
   Consuming an event never aborts: every unlock finds its funds, no balance goes negative, and locked
   funds equal the reservations again.
   */
  lemma {:induction false} HeadBacked(s: State, units: Units, sym: Symbol)
    requires Strong(s, units) && GoodUnits(units) && s.Queue(sym) != [] && Affordable(s.db.orders, s.Queue(sym)[0])
    ensures var e := s.Queue(sym)[0]; var out := Deliver(s.db, e);
            && out.Committed? && Backed(out.db.orders, out.db.accounts)
            && (e.SettlementRequested? ==>
                  OrderIds(e) <= s.db.orders.Keys && forall k :: k in s.db.accounts ==>
                    A.UnlockOf(SettlementUpdates(s.db.orders, e), k) <= s.db.accounts[k].locked)
            && (e.OrderCanceled? ==>
                  && e.id in s.db.orders && IsPair(s.db.orders[e.id].symbol)
                  && UnlockKey(s.db.orders[e.id]) in s.db.accounts
                  && UnlockAmount(s.db.orders[e.id]) <= s.db.accounts[UnlockKey(s.db.orders[e.id])].locked)
  {
    HeadReady(s, sym);
    if s.Queue(sym)[0].SettlementRequested? {
      SettlementBacked(s, units, sym);
    } else {
      CancelBacked(s.db, s.Queue(sym)[0]);
    }
  }

  lemma {:induction false} SettlementBacked(s: State, units: Units, sym: Symbol)
    requires Strong(s, units) && GoodUnits(units) && s.Queue(sym) != [] && Affordable(s.db.orders, s.Queue(sym)[0])
    requires s.Queue(sym)[0].SettlementRequested?
    ensures var e := s.Queue(sym)[0]; var out := Deliver(s.db, e);
            && out.Committed? && Backed(out.db.orders, out.db.accounts)
            && OrderIds(e) <= s.db.orders.Keys
            && forall k :: k in s.db.accounts ==>
                A.UnlockOf(SettlementUpdates(s.db.orders, e), k) <= s.db.accounts[k].locked
  {
    HeadReady(s, sym);
    HeadDelivered(s, sym);
    HeadExact(s, units, sym);
    SettleBacked(s.db, s.Queue(sym)[0]);
  }

  lemma {:induction false} AppliedOnUnits(s: State, units: Units, sym: Symbol)
    requires Strong(s, units) && s.Queue(sym) != []
    ensures OnUnits(Rows(s.db.orders, s.Queue(sym)[0]), units)
  {
    var e, o := s.Queue(sym)[0], s.View(sym);
    HeadReady(s, sym);
    ViewOnUnits(s, units, sym);
    HeadOnUnits(s.queue, units, sym);
    RowsInLots(o, e, units(sym));
    RowsOnSymbol(s.db.orders, sym, e);
    MergedOnUnits(s.db.orders, Rows(s.db.orders, e), sym, units);
  }

  lemma {:induction false} MergedOnUnits(was: Orders, now: Orders, sym: Symbol, units: Units)
    requires OnUnits(was, units) && GridRows(On(now, sym), units(sym))
    requires forall other :: other != sym ==> On(now, other) == On(was, other)
    ensures OnUnits(now, units)
  {
    forall id | id in now ensures GridRow(now[id], units(now[id].symbol)) {
      var other := now[id].symbol;
      if other == sym {
        assert id in On(now, sym);
      } else {
        assert id in On(now, other) && id in On(was, other);
      }
    }
  }

  lemma {:induction false} ConsumeStrong(s: State, units: Units, sym: Symbol)
    requires Strong(s, units) && GoodUnits(units) && s.Queue(sym) != [] && Affordable(s.db.orders, s.Queue(sym)[0])
    ensures Strong(AfterConsume(s, sym), units)
  {
    var e, next := s.Queue(sym)[0], AfterConsume(s, sym);
    HeadBacked(s, units, sym);
    HeadDelivered(s, sym);
    AppliedOnUnits(s, units, sym);
    ConsumeInv(s, sym);
    HeadOnUnits(s.queue, units, sym);
    assert next.db == Deliver(s.db, e).db && next.queue == s.queue[sym := s.queue[sym][1..]];
  }

  // The other steps

  lemma {:induction false} MatchStrong(s: State, units: Units, id: OrderId, nid: TradeId, token: int)
    requires Strong(s, units) && CanMatch(s, id, nid, token)
    ensures Strong(AfterMatch(s, id, nid, token), units)
  {
    var sym := s.db.orders[id].symbol;
    MatchInv(s, id, nid, token);
    SettlementsInLots(s, units, id, nid, token);
    PublishOnUnits(s.queue, units, sym, Settlements(s, id, nid, token));
    assert AfterMatch(s, id, nid, token).db == s.db;
  }

  lemma {:induction false} FoldOnUnits(s: State, units: Units, sym: Symbol)
    requires Strong(s, units)
    ensures var f := Fold(s.View(sym), s.Queue(sym));
            RowsOk(f) && GridRows(f, units(sym)) && Linked(f, s.Book(sym), s.at)
  {
    var o, q := s.View(sym), s.Queue(sym);
    assert FlowOk(s, sym) && AllGrid(q, units(sym));
    ViewOnUnits(s, units, sym);
    FoldInLots(o, q, units(sym));
    FoldForward(o, q);
  }

  /** The queued events do not touch an order its engine has not seen. */
  lemma {:induction false} UnmatchedRow(s: State, id: OrderId)
    requires Inv(s) && id in s.db.orders && id !in s.at
    ensures var sym := s.db.orders[id].symbol;
            var f := Fold(s.View(sym), s.Queue(sym)); id in f && f[id] == s.db.orders[id]
  {
    var sym := s.db.orders[id].symbol;
    var o, q := s.View(sym), s.Queue(sym);
    assert FlowOk(s, sym);
    FoldForward(o, q);
    assert Forward(o[id], Fold(o, q)[id]);
  }

  lemma {:induction false} SettlementsInLots(s: State, units: Units, id: OrderId, nid: TradeId, token: int)
    requires Strong(s, units) && CanMatch(s, id, nid, token)
    ensures AllGrid(Settlements(s, id, nid, token), units(s.db.orders[id].symbol))
  {
    var sym := s.db.orders[id].symbol;
    FoldOnUnits(s, units, sym);
    UnmatchedRow(s, id);
    MatchedInLots(s, Fold(s.View(sym), s.Queue(sym)), units(sym), id, nid, token);
  }

  lemma {:induction false} MatchedInLots(s: State, f: Orders, u: Unit, id: OrderId, nid: TradeId, token: int)
    requires CanMatch(s, id, nid, token) && RowsOk(f) && GridRows(f, u)
    requires Linked(f, s.Book(s.db.orders[id].symbol), s.at) && id in f && f[id] == s.db.orders[id]
    ensures AllGrid(Settlements(s, id, nid, token), u)
  {
    MatchInLots(f, s.Book(f[id].symbol), s.at, id, nid, token, u);
  }

  lemma {:induction false} CancelStrong(s: State, units: Units, id: OrderId, token: int)
    requires Strong(s, units) && id in s.db.orders && TokenValid(s.db.fence, token)
    ensures Strong(AfterCancel(s, id, token), units)
  {
    var r := s.db.orders[id];
    CancelInv(s, id, token);
    PublishOnUnits(s.queue, units, r.symbol, Cancellations(s, id, token));
    assert AfterCancel(s, id, token).db == s.db;
  }

  lemma {:induction false} AdmitStrong(s: State, units: Units, r: Request, id: OrderId, now: int, snaps: Snapshots)
    requires Strong(s, units) && SaneSnapshots(snaps) && GridRequest(r, snaps, units)
    ensures Strong(WithDB(s, Admit(s.db, r, id, now, snaps)), units)
  {
    if Admit(s.db, r, id, now, snaps).Some? {
      AdmitInv(s, r, id, now, snaps);
      AdmitBacked(s.db, r, id, now, snaps);
    }
  }

  lemma {:induction false} AdmitAllStrong(s: State, units: Units, rs: seq<Request>, ids: seq<OrderId>, now: int,
                                          snaps: Snapshots)
    requires Strong(s, units) && |rs| == |ids| && SaneSnapshots(snaps)
    requires forall r :: r in rs ==> GridRequest(r, snaps, units)
    ensures Strong(WithDB(s, AdmitAll(s.db, rs, ids, now, snaps)), units)
    decreases rs
  {
    if rs != [] && Admit(s.db, rs[0], ids[0], now, snaps).Some? {
      var next := WithDB(s, Admit(s.db, rs[0], ids[0], now, snaps));
      AdmitStrong(s, units, rs[0], ids[0], now, snaps);
      AdmitAllStrong(next, units, rs[1..], ids[1..], now, snaps);
      assert WithDB(s, AdmitAll(s.db, rs, ids, now, snaps)) ==
             WithDB(next, AdmitAll(next.db, rs[1..], ids[1..], now, snaps))
                 || AdmitAll(s.db, rs, ids, now, snaps).None?;
    }
  }

  /** Accounts nobody ordered from have nothing reserved. */
  lemma {:induction false} NothingReserved(o: Orders, t: A.Table, k: Key)
    requires RowsBacked(o, t) && k !in t
    ensures Reserved(o, k) == 0.0
  {
    forall id | id in o.Keys ensures ReserveAt(o, k)(id) == 0.0 {
      assert RowBacked(o[id], t);
    }
    SumZero(o.Keys, ReserveAt(o, k));
  }

  lemma {:induction false} RegisterBacked(o: Orders, t: A.Table, user: UserId)
    requires Backed(o, t)
    ensures Backed(o, A.Register(t, user))
  {
    var u := A.Register(t, user);
    SameAccounts(o, t, u);
    forall k | k in u ensures u[k].locked == Reserved(o, k) {
      if k !in t {
        NothingReserved(o, t, k);
      }
    }
  }

  lemma {:induction false} RechargeBacked(o: Orders, t: A.Table, user: UserId)
    requires Backed(o, t)
    ensures Backed(o, A.Recharge(t, user))
  {
    var us := A.RechargeUpdates(user);
    var one := A.ApplyOne(t, us[0]);
    assert A.ApplyAll(one, us[1..]) == A.ApplyOne(one, us[1]) by {
      assert us[1..][0] == us[1] && us[1..][1..] == [];
    }
    SameAccounts(o, t, A.Recharge(t, user));
  }

  lemma {:induction false} FundsStrong(s: State, units: Units, a: Action)
    requires Strong(s, units) && Enabled(s, a) && (a.Register? || a.Recharge?)
    ensures Strong(Step(s, a), units)
  {
    FundsStepInv(s, a);
    match a
    case Register(user) => RegisterBacked(s.db.orders, s.db.accounts, user);
    case Recharge(user) => RechargeBacked(s.db.orders, s.db.accounts, user);
  }

  lemma {:induction false} PlaceStrong(s: State, units: Units, a: Action)
    requires Strong(s, units) && Enabled(s, a) && Careful(s, a, units) && (a.PlaceOne? || a.PlaceMany?)
    ensures Strong(Step(s, a), units)
  {
    match a
    case PlaceOne(r, id, now, snaps) => AdmitStrong(s, units, r, id, now, snaps);
    case PlaceMany(rs, ids, now, snaps) =>
      BatchAdmits(s.db, rs, ids, now, snaps);
      AdmitAllStrong(s, units, rs, ids, now, snaps);
  }

  lemma {:induction false} StepStrong(s: State, units: Units, a: Action)
    requires Strong(s, units) && GoodUnits(units) && Enabled(s, a) && Careful(s, a, units)
    ensures Strong(Step(s, a), units)
  {
    match a
    case Match(id, nid, token) => MatchStrong(s, units, id, nid, token);
    case CancelRequested(id, token) => CancelStrong(s, units, id, token);
    case Consume(sym) => ConsumeStrong(s, units, sym);
    case Redeliver(_) => RedeliverNothing(s, a);
    case Stray(_) => RedeliverNothing(s, a);
    case Takeover(term, q) => TakeoverInv(s, term, q);
    case _ =>
      if a.Register? || a.Recharge? {
        FundsStrong(s, units, a);
      } else {
        PlaceStrong(s, units, a);
      }
  }

  lemma {:induction false} RunStrong(s: State, units: Units, run: seq<Action>)
    requires Strong(s, units) && GoodUnits(units) && CarefulRun(s, run, units)
    ensures Legal(s, run) && Strong(End(s, run), units)
    decreases run
  {
    if run != [] {
      StepStrong(s, units, run[0]);
      RunStrong(Step(s, run[0]), units, run[1..]);
    }
  }

  /**
   In every state of every careful run each account has locked exactly what its user's open orders still
   reserve, and whatever event is next, its delivery commits.
   */
  lemma {:induction false} ReservationInvariant(fence: Option<nat>, units: Units, run: seq<Action>, sym: Symbol)
    requires GoodUnits(units) && CarefulRun(Start(fence), run, units)
    ensures Legal(Start(fence), run)
    ensures var s := End(Start(fence), run);
            && (forall k :: k in s.db.accounts ==> s.db.accounts[k].locked == Reserved(s.db.orders, k))
            && (s.Queue(sym) != [] && Affordable(s.db.orders, s.Queue(sym)[0]) ==>
                  Deliver(s.db, s.Queue(sym)[0]).Committed?)
  {
    var s0 := Start(fence);
    StartInv(fence);
    RunStrong(s0, units, run);
    var s := End(s0, run);
    if s.Queue(sym) != [] && Affordable(s.db.orders, s.Queue(sym)[0]) {
      HeadBacked(s, units, sym);
    }
  }
}
