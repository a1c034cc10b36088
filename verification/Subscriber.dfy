/** The settlement consumer: TX2 and the cancel confirmation, statement by statement. */
module Subscriber {
  import opened Types
  import opened Money
  import opened Sorting
  import opened Settlement
  import opened Repository
  import opened Aggregation
  import A = Accounts
  import L = RowLocks
  import M = Matching

  /** A row without the two columns settlement changes. */
  function Terms(r: Row): Row {
    r.(filled := 0.0, status := New)
  }

  predicate SameTerms(a: Orders, b: Orders) {
    a.Keys == b.Keys && forall id :: id in a ==> Terms(a[id]) == Terms(b[id])
  }

  lemma {:induction false} FillOneTerms(orders: Orders, t: Trade, taker: OrderId)
    requires taker in orders && t.maker in orders
    ensures SameTerms(FillOne(orders, t, taker), orders)
  {
  }

  lemma {:induction false} FillRowsTerms(orders: Orders, trades: seq<Trade>, taker: OrderId)
    requires taker in orders && forall t :: t in trades ==> t.maker in orders
    ensures SameTerms(FillRows(orders, trades, taker), orders)
    decreases trades
  {
    if trades != [] {
      FillOneTerms(orders, trades[0], taker);
      FillRowsTerms(FillOne(orders, trades[0], taker), trades[1..], taker);
    }
  }

  /** Settling a locked part of the table settles the table. */
  lemma {:induction false} FillRowsMerge(orders: Orders, locked: Orders, trades: seq<Trade>, taker: OrderId)
    requires taker in locked && forall t :: t in trades ==> t.maker in locked
    ensures FillRows(orders + locked, trades, taker) == orders + FillRows(locked, trades, taker)
    decreases trades
  {
    if trades != [] {
      FillOneMerge(orders, locked, trades[0], taker);
      FillRowsMerge(orders, FillOne(locked, trades[0], taker), trades[1..], taker);
    }
  }

  lemma {:induction false} FillOneMerge(orders: Orders, locked: Orders, t: Trade, taker: OrderId)
    requires taker in locked && t.maker in locked
    ensures FillOne(orders + locked, t, taker) == orders + FillOne(locked, t, taker)
  {
  }

  lemma {:induction false} TradeUpdatesTerms(t: Trade, taker: Row, maker: Row, taker': Row, maker': Row)
    requires IsPair(taker.symbol) && Terms(taker) == Terms(taker') && Terms(maker) == Terms(maker')
    ensures TradeUpdates(t, taker, maker) == TradeUpdates(t, taker', maker')
  {
    assert taker.symbol == Terms(taker).symbol && taker.side == Terms(taker).side && taker.id == Terms(taker).id
           && taker.user == Terms(taker).user && taker.price == Terms(taker).price && taker.otype == Terms(taker).otype;
    assert maker.side == Terms(maker).side && maker.id == Terms(maker).id && maker.user == Terms(maker).user;
  }

  lemma {:induction false} AllTradeUpdatesTerms(a: Orders, b: Orders, trades: seq<Trade>, taker: OrderId)
    requires taker in a && forall t :: t in trades ==> t.maker in a
    requires taker in b && forall t :: t in trades ==> t.maker in b
    requires Terms(a[taker]) == Terms(b[taker])
    requires forall t :: t in trades ==> Terms(a[t.maker]) == Terms(b[t.maker])
    ensures AllTradeUpdates(a, trades, taker) == AllTradeUpdates(b, trades, taker)
    decreases trades
  {
    assert a[taker].symbol == Terms(a[taker]).symbol && b[taker].symbol == Terms(b[taker]).symbol;
    if trades != [] && IsPair(a[taker].symbol) {
      assert trades[0] in trades;
      TradeUpdatesTerms(trades[0], a[taker], a[trades[0].maker], b[taker], b[trades[0].maker]);
      AllTradeUpdatesTerms(a, b, trades[1..], taker);
    }
  }

  lemma {:induction false} AcquireAscending(held: seq<L.Resource>, r: L.Resource)
    requires L.Ascending(held) && forall x :: x in held ==> L.Less(x, r) || x == r
    ensures L.Ascending(L.Acquire(held, r))
  {
    if r !in held {
      var next := held + [r];
      forall i, j | 0 <= i < j < |next| ensures L.Less(next[i], next[j]) {
        assert next[i] in held;
      }
    }
  }

  /** Settling the locked rows and writing them back settles the table, with the same movements. */
  lemma {:induction false} LockedSuffices(orders: Orders, locked: Orders, e: Event)
    requires e.SettlementRequested? && OrderIds(e) <= locked.Keys <= orders.Keys
    requires forall id :: id in locked ==> locked[id] == orders[id]
    ensures SettleRows(orders, e) == orders + SettleRows(locked, e)
    ensures SettlementUpdates(orders, e) == SettlementUpdates(locked, e)
  {
    forall t | t in e.trades ensures t.maker in locked && t.maker in orders {
      assert t.maker in OrderIds(e);
    }
    assert orders + locked == orders;
    FillRowsMerge(orders, locked, e.trades, e.taker);
    AllTradeUpdatesTerms(orders, locked, e.trades, e.taker);
  }

  lemma {:induction false} SettleRowsTerms(orders: Orders, e: Event)
    requires e.SettlementRequested? && OrderIds(e) <= orders.Keys
    ensures SameTerms(SettleRows(orders, e), orders)
  {
    forall t | t in e.trades ensures t.maker in orders {
      assert t.maker in OrderIds(e);
    }
    FillRowsTerms(orders, e.trades, e.taker);
  }

  lemma {:induction false} AppendAssociative(a: seq<A.Update>, b: seq<A.Update>, c: seq<A.Update>)
    ensures a + (b + c) == a + b + c
  {
  }

  class EventSubscriber {
    const repo: PostgresRepository

    constructor (repo: PostgresRepository)
      ensures this.repo == repo
    {
      this.repo := repo;
    }

    /** Lock the orders in the given order; stops at a missing one. */
    method LockOrders(ids: seq<OrderId>) returns (found: bool, locked: Orders)
      requires repo.Valid()
      requires Increasing(ids, (a: OrderId, b: OrderId) => a < b)
      requires L.Ascending(repo.locks) && forall x :: x in repo.locks ==> x == L.FenceRow
      modifies repo`locks
      ensures found <==> forall id :: id in ids ==> id in repo.orders
      ensures found ==>
                locked.Keys == (set id | id in ids) && forall id :: id in locked ==> locked[id] == repo.orders[id]
      ensures found ==> forall id :: id in ids ==> L.OrderRow(id) in repo.locks
      ensures L.Ascending(repo.locks) && forall x :: x in repo.locks ==> !x.AccountRow?
    {
      locked := map[];
      for i := 0 to |ids|
        invariant locked.Keys == (set id | id in ids[..i])
        invariant forall id :: id in locked ==> id in repo.orders && locked[id] == repo.orders[id]
        invariant L.Ascending(repo.locks)
        invariant forall k | 0 <= k < i :: L.OrderRow(ids[k]) in repo.locks
        invariant forall x :: x in repo.locks ==> x == L.FenceRow || exists k :: 0 <= k < i && x == L.OrderRow(ids[k])
      {
        forall x | x in repo.locks ensures L.Less(x, L.OrderRow(ids[i])) {
          if x != L.FenceRow {
            ghost var k :| 0 <= k < i && x == L.OrderRow(ids[k]);
            assert ((a: OrderId, b: OrderId) => a < b)(ids[k], ids[i]);
          }
        }
        AcquireAscending(repo.locks, L.OrderRow(ids[i]));
        var r := repo.GetOrderForUpdate(ids[i]);
        if r.None? {
          assert ids[i] in ids;
          return false, locked;
        }
        locked := locked[ids[i] := r.value];
        assert ids[..i + 1] == ids[..i] + [ids[i]];
      }
      found := true;
      assert ids[..|ids|] == ids;
    }

    /** One trade: the maker's row, the four movements, then the taker's row. */
    method SettleTrade(rows: Orders, ghost locked: Orders, t: Trade, takerId: OrderId)
      returns (ok: bool, next: Orders, ups: seq<A.Update>)
      requires takerId in rows && t.maker in rows && SameTerms(rows, locked)
      ensures ok == IsPair(locked[takerId].symbol)
      ensures ok ==> next == FillOne(rows, t, takerId) && ups == TradeUpdates(t, locked[takerId], locked[t.maker])
    {
      next, ups := rows[t.maker := FillMaker(rows[t.maker], t.qty)], [];
      var taker, maker := next[takerId], next[t.maker];
      assert Terms(taker) == Terms(locked[takerId]) && Terms(maker) == Terms(locked[t.maker]);
      assert taker.symbol == Terms(taker).symbol && locked[takerId].symbol == Terms(locked[takerId]).symbol;
      ok := IsPair(taker.symbol);
      if ok {
        TradeUpdatesTerms(t, taker, maker, locked[takerId], locked[t.maker]);
        ups := TradeUpdates(t, taker, maker);
        next := next[takerId := taker.(filled := taker.filled + t.qty)];
      }
    }

    /** The loop over the trades: rows change one trade at a time while the movements pile up. */
    method ApplyTrades(locked: Orders, e: Event) returns (ok: bool, rows: Orders, updates: seq<A.Update>)
      requires e.SettlementRequested? && OrderIds(e) <= locked.Keys
      requires forall id :: id in locked ==> locked[id].id == id
      ensures ok <==> e.trades == [] || IsPair(locked[e.taker].symbol)
      ensures forall t :: t in e.trades ==> t.maker in locked
      ensures ok ==>
                rows == FillRows(locked, e.trades, e.taker) && updates == AllTradeUpdates(locked, e.trades, e.taker)
    {
      forall t | t in e.trades ensures t.maker in locked {
        assert t.maker in OrderIds(e);
      }
      rows, updates := locked, [];
      for i := 0 to |e.trades|
        invariant SameTerms(rows, locked)
        invariant i > 0 ==> IsPair(locked[e.taker].symbol)
        invariant FillRows(locked, e.trades, e.taker) == FillRows(rows, e.trades[i..], e.taker)
        invariant AllTradeUpdates(locked, e.trades, e.taker) ==
                  updates + AllTradeUpdates(locked, e.trades[i..], e.taker)
      {
        var t, later := e.trades[i], e.trades[i + 1..];
        assert t in e.trades && e.trades[i..][0] == t && e.trades[i..][1..] == later;
        assert Terms(rows[e.taker]) == Terms(locked[e.taker]) && Terms(rows[t.maker]) == Terms(locked[t.maker]);
        var one, next, more := SettleTrade(rows, locked, t, e.taker);
        FillOneTerms(rows, t, e.taker);
        if !one {
          return false, rows, updates;
        }
        AppendAssociative(updates, more, AllTradeUpdates(locked, later, e.taker));
        rows, updates := next, updates + more;
      }
      ok := true;
    }

    /** Write the settled rows back; all of them are locked already, so nothing new is. */
    method SaveOrders(ids: seq<OrderId>, rows: Orders)
      requires repo.Valid() && rows.Keys == (set id | id in ids) && rows.Keys <= repo.orders.Keys
      requires forall id :: id in rows ==> rows[id].id == id && Terms(rows[id]) == Terms(repo.orders[id])
      requires forall id :: id in ids ==> L.OrderRow(id) in repo.locks
      modifies repo`orders, repo`locks
      ensures repo.Valid() && repo.orders == old(repo.orders) + rows && repo.locks == old(repo.locks)
    {
      for i := 0 to |ids|
        invariant repo.Valid() && repo.orders.Keys == old(repo.orders).Keys && repo.locks == old(repo.locks)
        invariant forall id :: id in ids[..i] ==> id in rows && repo.orders[id] == rows[id]
        invariant forall id :: id in repo.orders && id !in ids[..i] ==> repo.orders[id] == old(repo.orders)[id]
      {
        assert ids[i] in ids && ids[..i + 1] == ids[..i] + [ids[i]];
        var r := rows[ids[i]];
        assert Terms(r) == Terms(repo.orders[ids[i]]);
        assert repo.orders[ids[i]].(filled := r.filled, status := r.status) ==
               Terms(r).(filled := r.filled, status := r.status);
        repo.UpdateOrder(r);
      }
      assert ids[..|ids|] == ids;
    }

    method CreateTrades(more: seq<Trade>) returns (ok: bool)
      modifies repo`trades
      ensures ok == CanCreateTrades(old(repo.trades), more)
      ensures ok ==> repo.trades == old(repo.trades) + more
    {
      for i := 0 to |more|
        invariant repo.trades == old(repo.trades) + more[..i]
        invariant CanCreateTrades(old(repo.trades), more[..i])
      {
        assert more[..i + 1] == more[..i] + [more[i]];
        ghost var before := repo.trades;
        var created := repo.CreateTrade(more[i]);
        if !created {
          ghost var t :| t in before && t.id == more[i].id;
          if t in more[..i] {
            ghost var k :| 0 <= k < i && more[k] == t;
          } else {
            assert t in old(repo.trades) && more[i] in more;
          }
          return false;
        }
        forall t | t in more[..i + 1] ensures !TradeExists(old(repo.trades), t.id) {
          assert t == more[i] ==> forall s :: s in old(repo.trades) ==> s in before;
        }
        forall j | 0 <= j < i ensures more[j].id != more[i].id {
          assert more[j] in more[..i] && more[j] in before;
        }
      }
      assert more[..|more|] == more;
      ok := true;
    }

    /** Issue the statements of the aggregated movements; false when a CHECK fails. */
    method ApplyUpdates(r: seq<A.Update>) returns (ok: bool)
      requires repo.Valid() && Increasing(r, A.KeyAhead())
      requires L.Ascending(repo.locks) && forall x :: x in repo.locks ==> !x.AccountRow?
      modifies repo`accounts, repo`locks
      ensures ok == A.PassesChecks(old(repo.accounts), r)
      ensures ok ==> repo.Valid() && repo.accounts == A.ApplyAll(old(repo.accounts), r)
      ensures L.Ascending(repo.locks)
    {
      for i := 0 to |r|
        invariant repo.Valid()
        invariant A.PassesChecks(old(repo.accounts), r) == A.PassesChecks(repo.accounts, r[i..])
        invariant A.ApplyAll(old(repo.accounts), r) == A.ApplyAll(repo.accounts, r[i..])
        invariant L.Ascending(repo.locks)
        invariant forall x, j :: x in repo.locks && i <= j < |r| ==> L.Less(x, L.AccountRow(r[j].key))
      {
        assert r[i..][0] == r[i] && r[i..][1..] == r[i + 1..];
        forall j | i < j < |r| ensures KeyLess(r[i].key, r[j].key) {
          assert A.KeyAhead()(r[i], r[j]);
        }
        var one := ApplyUpdate(r[i]);
        if !one {
          return false;
        }
      }
      ok := true;
    }

    /** The one or two statements of a movement. */
    method ApplyUpdate(u: A.Update) returns (ok: bool)
      requires repo.Valid() && L.Ascending(repo.locks)
      requires forall x :: x in repo.locks ==> L.Less(x, L.AccountRow(u.key))
      modifies repo`accounts, repo`locks
      ensures repo.Valid() && L.Ascending(repo.locks)
      ensures forall x :: x in repo.locks ==> x in old(repo.locks) || x == L.AccountRow(u.key)
      ensures ok == (u.key in old(repo.accounts) ==>
                       A.Checked(A.Released(old(repo.accounts)[u.key], u))
                           && A.Checked(A.Moved(old(repo.accounts)[u.key], u)))
      ensures ok ==> repo.accounts == A.ApplyOne(old(repo.accounts), u)
    {
      AcquireAscending(repo.locks, L.AccountRow(u.key));
      if u.unlock > 0.0 {
        ok := repo.UnlockFunds(u.key, u.unlock);
        if !ok {
          return;
        }
      }
      if u.amount != 0.0 {
        ok := repo.UpdateBalance(u.key, u.amount);
        if !ok {
          return;
        }
      }
      ok := true;
    }

    /** Everything TX2 computes before it writes. */
    method ComputeSettlement(e: Event, locked: Orders) returns (ok: bool, rows: Orders, updates: seq<A.Update>)
      requires e.SettlementRequested? && OrderIds(e) <= locked.Keys
      requires forall id :: id in locked ==> locked[id].id == id
      ensures ok <==> e.trades == [] || IsPair(locked[e.taker].symbol)
      ensures ok ==> rows == SettleRows(locked, e) && updates == SettlementUpdates(locked, e)
    {
      ok, rows, updates := ApplyTrades(locked, e);
      if ok {
        var taker := rows[e.taker];
        var status, refund := FinishTakerRow(taker, e);
        rows := rows[e.taker := taker.(status := status)];
        if refund > 0.0 {
          updates := updates + [A.Update(Key(taker.user, e.lockedCurrency), 0.0, Round8(refund))];
        }
      }
    }

    /** Write rows, trades and account movements; false when a constraint stops it. */
    method WriteSettlement(e: Event, ids: seq<OrderId>, rows: Orders, updates: seq<A.Update>) returns (ok: bool)
      requires e.SettlementRequested? && repo.Valid()
      requires rows.Keys == (set id | id in ids) && rows.Keys <= repo.orders.Keys
      requires forall id :: id in rows ==> rows[id].id == id && Terms(rows[id]) == Terms(repo.orders[id])
      requires L.Ascending(repo.locks) && forall x :: x in repo.locks ==> !x.AccountRow?
      requires forall id :: id in ids ==> L.OrderRow(id) in repo.locks
      modifies repo`orders, repo`trades, repo`accounts, repo`fence, repo`locks
      ensures ok == (CanCreateTrades(old(repo.trades), e.trades) && Solvent(old(repo.accounts), updates))
      ensures ok ==> repo.Valid()
      ensures ok ==> repo.View() == DB(old(repo.orders) + rows, old(repo.trades) + e.trades,
                                       NetAll(old(repo.accounts), updates), old(repo.fence))
      ensures L.Ascending(repo.locks)
    {
      SaveOrders(ids, rows);
      ok := CreateTrades(e.trades);
      if !ok {
        return;
      }
      var aggregated := AggregateAndSort(updates);
      AggregateIsNet(repo.accounts, aggregated, updates);
      ok := ApplyUpdates(aggregated);
    }

    /** The part of TX2 behind all its early exits. */
    method SettleLocked(e: Event, ids: seq<OrderId>, locked: Orders) returns (ok: bool)
      requires e.SettlementRequested? && repo.Valid() && !SettlementSkipped(repo.View(), e)
      requires locked.Keys == OrderIds(e) == (set id | id in ids)
      requires forall id :: id in locked ==> locked[id] == repo.orders[id]
      requires L.Ascending(repo.locks) && forall x :: x in repo.locks ==> !x.AccountRow?
      requires forall id :: id in ids ==> L.OrderRow(id) in repo.locks
      modifies repo`orders, repo`trades, repo`accounts, repo`fence, repo`locks
      ensures ok == Settle(old(repo.View()), e).Committed? && Settle(old(repo.View()), e) != Skipped
      ensures ok ==> repo.Valid() && repo.View() == Settle(old(repo.View()), e).db
      ensures L.Ascending(repo.locks)
    {
      LockedSuffices(repo.orders, locked, e);
      SettleRowsTerms(locked, e);
      var one, rows, updates := ComputeSettlement(e, locked);
      if !one {
        return false;
      }
      forall id | id in rows ensures rows[id].id == id && Terms(rows[id]) == Terms(repo.orders[id]) {
        assert rows[id].id == Terms(rows[id]).id && locked[id].id == Terms(locked[id]).id;
      }
      ok := WriteSettlement(e, ids, rows, updates);
    }

    /** The taker's final status and its refund. */
    method FinishTakerRow(taker: Row, e: Event) returns (status: Status, refund: real)
      requires e.SettlementRequested?
      ensures (status, refund) == FinishTaker(taker, e)
    {
      status, refund := taker.status, 0.0;
      if taker.otype.Market? {
        status := if taker.filled == 0.0 then Canceled else Filled;
        if taker.side.Buy? {
          var total := 0.0;
          for i := 0 to |e.trades|
            invariant M.Value(e.trades) == total + M.Value(e.trades[i..])
          {
            assert e.trades[i..][0] == e.trades[i] && e.trades[i..][1..] == e.trades[i + 1..];
            total := total + Worth(e.trades[i].price, e.trades[i].qty);
          }
          refund := e.amountLocked - total;
        } else {
          refund := taker.qty - taker.filled;
        }
      } else {
        if taker.filled == taker.qty {
          status := Filled;
        } else if e.remaining == 0.0 {
          status := Canceled;
          var canceledQty := taker.qty - taker.filled;
          if taker.side.Buy? {
            refund := Worth(taker.price, canceledQty);
          } else {
            refund := canceledQty;
          }
        } else if taker.filled > 0.0 {
          status := PartiallyFilled;
        }
      }
    }

    /** TX2. Everything it changes it changes together, or not at all. */
    method ExecuteSettlementTx(e: Event) returns (retry: bool)
      requires e.SettlementRequested? && repo.Valid()
      modifies repo`orders, repo`trades, repo`accounts, repo`fence, repo`locks
      ensures repo.Valid()
      ensures repo.View() == After(old(repo.View()), Settle(old(repo.View()), e))
      ensures retry == Settle(old(repo.View()), e).Aborted?
      ensures L.Ascending(repo.locks)
    {
      var saved := repo.BeginTx();
      var valid := true;
      if e.token > 0 {
        valid := repo.ValidateFencingTokenTx(e.token);
      }
      if !valid {
        return false;
      }
      var ids := SortKeys(OrderIds(e), (a: OrderId, b: OrderId) => a < b);
      var found, locked := LockOrders(ids);
      if !found {
        return false;
      }
      assert locked.Keys == OrderIds(e);
      if !locked[e.taker].status.New? {
        return false;
      }
      if |e.trades| > 0 {
        var applied := repo.TradeExistsByID(e.trades[0].id);
        if applied {
          return false;
        }
      }
      assert !SettlementSkipped(saved, e);
      var ok := SettleLocked(e, ids, locked);
      if !ok {
        repo.Rollback(saved);
      }
      retry := !ok;
    }

    /** Cheap idempotency checks first, then TX2. */
    method HandleSettlementRequested(e: Event) returns (retry: bool)
      requires e.SettlementRequested? && repo.Valid()
      modifies repo`orders, repo`trades, repo`accounts, repo`fence, repo`locks
      ensures repo.Valid()
      ensures repo.View() == After(old(repo.View()), Settle(old(repo.View()), e))
      ensures retry == Settle(old(repo.View()), e).Aborted?
      ensures L.Ascending(repo.locks) || repo.locks == old(repo.locks)
    {
      if |e.trades| > 0 {
        var applied := repo.TradeExistsByID(e.trades[0].id);
        if applied {
          return false;
        }
      } else if e.taker !in repo.orders || !repo.orders[e.taker].status.New? {
        return false;
      }
      retry := ExecuteSettlementTx(e);
    }

    /** The transaction confirming a cancel. */
    method HandleOrderCanceled(e: Event) returns (retry: bool)
      requires e.OrderCanceled? && repo.Valid()
      modifies repo`orders, repo`trades, repo`accounts, repo`fence, repo`locks
      ensures repo.Valid()
      ensures repo.View() == After(old(repo.View()), ConfirmCancel(old(repo.View()), e))
      ensures retry == ConfirmCancel(old(repo.View()), e).Aborted?
      ensures L.Ascending(repo.locks)
    {
      var saved := repo.BeginTx();
      if e.token > 0 {
        var valid := repo.ValidateFencingTokenTx(e.token);
        if !valid {
          return false;
        }
      }
      AcquireAscending(repo.locks, L.OrderRow(e.id));
      var found := repo.GetOrderForUpdate(e.id);
      if found.None? {
        return false;
      }
      var order := found.value;
      if order.status.Filled? || order.status.Canceled? {
        return false;
      }
      if !IsPair(order.symbol) {
        return true;
      }
      var amount := UnlockAmount(order);
      if amount > 0.0 {
        AcquireAscending(repo.locks, L.AccountRow(UnlockKey(order)));
        var ok := repo.UnlockFunds(UnlockKey(order), amount);
        assert ok;
      }
      repo.UpdateOrder(order.(status := Canceled));
      retry := false;
    }

    /** One message of the settlements topic. */
    method HandleEvents(e: Event) returns (retry: bool)
      requires repo.Valid()
      modifies repo`orders, repo`trades, repo`accounts, repo`fence, repo`locks
      ensures repo.Valid()
      ensures repo.View() == After(old(repo.View()), Deliver(old(repo.View()), e))
      ensures retry == Deliver(old(repo.View()), e).Aborted?
      ensures L.Ascending(repo.locks) || repo.locks == old(repo.locks)
    {
      if e.SettlementRequested? {
        retry := HandleSettlementRequested(e);
      } else {
        retry := HandleOrderCanceled(e);
      }
    }
  }
}
