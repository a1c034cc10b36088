/**
 When placing an order succeeds and what it writes and locks, said on the request and the tables alone, and what that
 means for a market buy that is matched on the book it was estimated from.
 */
module Admission {
  import opened Types
  import opened Money
  import opened Accounts
  import opened Settlement
  import opened OrderFlow
  import opened Placement
  import E = Estimate
  import M = Matching
  import R = Reservation

  // What a quantity costs on a list of levels

  /** The quantity on the first `n` levels. */
  function Offered(levels: seq<E.Level>, n: nat): real
    requires n <= |levels|
  {
    if n == 0 then 0.0 else Offered(levels, n - 1) + levels[n - 1].qty
  }

  /** What level `n` contributes to a quantity when the levels before it come first. */
  function Share(levels: seq<E.Level>, n: nat, qty: real): real
    requires n < |levels|
  {
    var missing := qty - Offered(levels, n);
    if missing <= 0.0 then 0.0 else if missing < levels[n].qty then missing else levels[n].qty
  }

  function Cost(levels: seq<E.Level>, n: nat, qty: real): real
    requires n <= |levels|
  {
    if n == 0 then 0.0 else Cost(levels, n - 1, qty) + Worth(levels[n - 1].price, Share(levels, n - 1, qty))
  }

  lemma {:induction false} OfferedTail(levels: seq<E.Level>, n: nat)
    requires n < |levels|
    ensures Offered(levels, n + 1) == levels[0].qty + Offered(levels[1..], n)
  {
    if n > 0 {
      OfferedTail(levels, n - 1);
    }
  }

  lemma {:induction false} OfferedNonNegative(levels: seq<E.Level>, n: nat)
    requires n <= |levels| && E.SaneLevels(levels)
    ensures Offered(levels, n) >= 0.0
  {
    if n > 0 {
      OfferedNonNegative(levels, n - 1);
      assert levels[n - 1] in levels;
    }
  }

  lemma {:induction false} ShareTail(levels: seq<E.Level>, n: nat, qty: real)
    requires 0 < n < |levels|
    ensures Share(levels, n, qty) == Share(levels[1..], n - 1, qty - levels[0].qty)
  {
    OfferedTail(levels, n - 1);
  }

  lemma {:induction false} CostTail(levels: seq<E.Level>, n: nat, qty: real)
    requires n < |levels|
    ensures Cost(levels, n + 1, qty) == Worth(levels[0].price, Share(levels, 0, qty))
                                        + Cost(levels[1..], n, qty - levels[0].qty)
  {
    if n > 0 {
      CostTail(levels, n - 1, qty);
      ShareTail(levels, n, qty);
      assert levels[n] == levels[1..][n - 1];
    }
  }

  lemma {:induction false} CostOfNothing(levels: seq<E.Level>, n: nat, qty: real)
    requires n <= |levels| && E.SaneLevels(levels) && qty <= 0.0
    ensures Cost(levels, n, qty) == 0.0
  {
    if n > 0 {
      CostOfNothing(levels, n - 1, qty);
      OfferedNonNegative(levels, n - 1);
    }
  }

  /** The part of the first level, and what is asked of the others. */
  lemma {:induction false} CostSplit(levels: seq<E.Level>, qty: real)
    requires levels != [] && E.SaneLevels(levels) && qty > 0.0
    ensures Cost(levels, |levels|, qty) ==
            if qty <= levels[0].qty then Worth(levels[0].price, qty)
            else Worth(levels[0].price, levels[0].qty) + Cost(levels[1..], |levels| - 1, qty - levels[0].qty)
  {
    assert levels[0] in levels && forall l :: l in levels[1..] ==> l in levels;
    CostTail(levels, |levels| - 1, qty);
    assert Share(levels, 0, qty) == if qty < levels[0].qty then qty else levels[0].qty;
    if qty <= levels[0].qty {
      CostOfNothing(levels[1..], |levels| - 1, qty - levels[0].qty);
    }
  }

  /** The estimate succeeds exactly when the levels hold the quantity, and is what its parts cost level by level. */
  lemma {:induction false} RequiredIsCost(levels: seq<E.Level>, qty: real)
    requires E.SaneLevels(levels) && qty > 0.0
    ensures E.Required(levels, qty).Some? <==> qty <= Offered(levels, |levels|)
    ensures E.Required(levels, qty).Some? ==> E.Required(levels, qty).value == Cost(levels, |levels|, qty)
    decreases levels
  {
    if levels != [] {
      var n := |levels| - 1;
      forall l | l in levels[1..] ensures l in levels {}
      OfferedTail(levels, n);
      CostSplit(levels, qty);
      if qty <= levels[0].qty {
        OfferedNonNegative(levels[1..], n);
      } else {
        RequiredIsCost(levels[1..], qty - levels[0].qty);
      }
    }
  }

  // Single placement

  function AsksOf(snaps: Snapshots, sym: Symbol): seq<E.Level> {
    if sym in snaps then snaps[sym] else []
  }

  /** The account an order is paid from. */
  function PayingAccount(r: Request): Key {
    var part := if r.side.Sell? then 0 else 1;
    Key(r.user, if part < |r.symbol| then r.symbol[part] else 0)
  }

  /** What has to be on it. */
  function Payable(r: Request, snaps: Snapshots): real {
    var p, q := Round8(r.price), Round8(r.qty);
    if r.side.Sell? then q
    else if r.otype.Limit? then Worth(p, q)
    else 1.05 * Cost(AsksOf(snaps, r.symbol), |AsksOf(snaps, r.symbol)|, q)
  }

  /** The request makes sense, and a market buy finds what it wants in the snapshot. */
  predicate Sound(r: Request, snaps: Snapshots) {
    && Round8(r.qty) > 0.0 && (r.otype.Limit? ==> Round8(r.price) > 0.0) && |r.symbol| == 2
    && (r.side.Buy? && r.otype.Market? ==>
          Round8(r.qty) <= Offered(AsksOf(snaps, r.symbol), |AsksOf(snaps, r.symbol)|))
  }

  /** The lock of a market buy, from the cached asks. */
  lemma {:induction false} MarketBuyPrepared(r: Request, snaps: Snapshots)
    requires SaneSnapshots(snaps) && Round8(r.qty) > 0.0 && r.side.Buy? && r.otype.Market? && |r.symbol| == 2
    ensures var asks := AsksOf(snaps, r.symbol); var cost := Cost(asks, |asks|, Round8(r.qty));
            Prepare(r, snaps) == if Round8(r.qty) <= Offered(asks, |asks|)
                                 then Some(Update(Key(r.user, r.symbol[1]), 1.05 * cost, 0.0)) else None
  {
    RequiredIsCost(AsksOf(snaps, r.symbol), Round8(r.qty));
  }

  /** The lock of any other order. */
  lemma {:induction false} OtherPrepared(r: Request, snaps: Snapshots)
    requires Sound(r, snaps) && !(r.side.Buy? && r.otype.Market?)
    ensures Prepare(r, snaps) ==
            if r.side.Sell? then Some(Update(Key(r.user, r.symbol[0]), Round8(r.qty), 0.0))
            else Some(Update(Key(r.user, r.symbol[1]), Worth(Round8(r.price), Round8(r.qty)), 0.0))
  {
  }

  lemma {:induction false} UnsoundFails(r: Request, snaps: Snapshots)
    requires Round8(r.qty) <= 0.0 || (r.otype.Limit? && Round8(r.price) <= 0.0) || |r.symbol| != 2
    ensures Prepare(r, snaps) == None
  {
  }

  lemma {:induction false} PreparedIs(r: Request, snaps: Snapshots)
    requires SaneSnapshots(snaps)
    ensures Prepare(r, snaps) ==
            if Sound(r, snaps) then Some(Update(PayingAccount(r), Payable(r, snaps), 0.0)) else None
  {
    if Round8(r.qty) <= 0.0 || (r.otype.Limit? && Round8(r.price) <= 0.0) || |r.symbol| != 2 {
      UnsoundFails(r, snaps);
    } else if r.side.Buy? && r.otype.Market? {
      MarketBuyPrepared(r, snaps);
    } else {
      OtherPrepared(r, snaps);
    }
  }

  /**
   An order is placed exactly when: its quantity and, for a limit order, its price are positive once rounded; its symbol
   is one of the two; its id is new; and the account it is paid from exists and holds the quantity of a sell, price
   times quantity of a limit buy, or 1.05 times what the cached asks charge for a market buy that they can fill.
   */
  lemma {:induction false} PlaceIff(db: DB, r: Request, id: OrderId, now: int, snaps: Snapshots)
    requires ValidTable(db.accounts) && SaneSnapshots(snaps)
    ensures var p, q, asks := Round8(r.price), Round8(r.qty), AsksOf(snaps, r.symbol);
            Place(db, r, id, now, snaps).Some? <==>
            && q > 0.0 && (r.otype.Limit? ==> p > 0.0)
            && (r.symbol == [BTC, USD] || r.symbol == [ETH, USD]) && id !in db.orders
            && var k := Key(r.user, if r.side.Sell? then r.symbol[0] else r.symbol[1]);
               && k in db.accounts
               && (r.side.Sell? ==> db.accounts[k].balance >= q)
               && (r.side.Buy? && r.otype.Limit? ==> db.accounts[k].balance >= p * q)
               && (r.side.Buy? && r.otype.Market? ==>
                     q <= Offered(asks, |asks|) && db.accounts[k].balance >= 1.05 * Cost(asks, |asks|, q))
  {
    PreparedIs(r, snaps);
    if Sound(r, snaps) {
      LockNonNegative(r, snaps);
    }
  }

  lemma {:induction false} AdmitWrites(db: DB, r: Request, id: OrderId, now: int, snaps: Snapshots)
    requires SaneSnapshots(snaps) && Place(db, r, id, now, snaps).Some?
    ensures var k, amount := PayingAccount(r), Payable(r, snaps);
            var p, q := Round8(r.price), Round8(r.qty);
            && |r.symbol| == 2 && k in db.accounts
            && Place(db, r, id, now, snaps).value ==
               DB(db.orders[id := Row(id, r.user, r.symbol, r.side, r.otype, p, q, 0.0, New, now, amount)],
                  db.trades,
                  db.accounts[k := Account(db.accounts[k].balance - amount, db.accounts[k].locked + amount)],
                  db.fence)
  {
    PreparedIs(r, snaps);
  }

  /** What it writes: one NEW row with the terms, the time and the amount, and that amount moved to locked. */
  lemma {:induction false} PlaceWrites(db: DB, r: Request, id: OrderId, now: int, snaps: Snapshots)
    requires SaneSnapshots(snaps) && Place(db, r, id, now, snaps).Some?
    ensures var p, q, asks := Round8(r.price), Round8(r.qty), AsksOf(snaps, r.symbol);
            && |r.symbol| == 2
            && var k := Key(r.user, if r.side.Sell? then r.symbol[0] else r.symbol[1]);
               var amount := if r.side.Sell? then q else if r.otype.Limit? then p * q else 1.05 * Cost(asks, |asks|, q);
               && k in db.accounts
               && Place(db, r, id, now, snaps).value ==
                  DB(db.orders[id := Row(id, r.user, r.symbol, r.side, r.otype, p, q, 0.0, New, now, amount)],
                     db.trades,
                     db.accounts[k := Account(db.accounts[k].balance - amount, db.accounts[k].locked + amount)],
                     db.fence)
  {
    AdmitWrites(db, r, id, now, snaps);
  }

  // Batches

  /** All that the requests of a batch take from one account. */
  function PayableFrom(rs: seq<Request>, snaps: Snapshots, k: Key): real {
    if rs == [] then 0.0
    else (if PayingAccount(rs[0]) == k then Payable(rs[0], snaps) else 0.0)
         + PayableFrom(rs[1..], snaps, k)
  }

  lemma {:induction false} AllPreparedIs(rs: seq<Request>, snaps: Snapshots)
    requires SaneSnapshots(snaps)
    ensures PrepareAll(rs, snaps).Some? <==> forall r :: r in rs ==> Sound(r, snaps)
    ensures PrepareAll(rs, snaps).Some? ==>
              var us := PrepareAll(rs, snaps).value;
              && |us| == |rs|
              && (forall i | 0 <= i < |rs| :: us[i] == Update(PayingAccount(rs[i]), Payable(rs[i], snaps), 0.0))
              && forall k :: AmountOf(us, k) == PayableFrom(rs, snaps, k)
  {
    if rs != [] {
      PreparedIs(rs[0], snaps);
      AllPreparedIs(rs[1..], snaps);
      assert rs == [rs[0]] + rs[1..];
    }
  }

  /**
   A batch is placed exactly when every request makes sense, the ids are new and different, and every account
   involved exists and holds what the whole batch takes from it.
   */
  lemma {:induction false} BatchIff(db: DB, rs: seq<Request>, ids: seq<OrderId>, now: int, snaps: Snapshots)
    requires |rs| == |ids| && ValidTable(db.accounts) && SaneSnapshots(snaps)
    ensures Batch(db, rs, ids, now, snaps).Some? <==>
            && (forall r :: r in rs ==> Sound(r, snaps))
            && (forall i | 0 <= i < |ids| :: ids[i] !in db.orders)
            && (forall i, j | 0 <= i < j < |ids| :: ids[i] != ids[j])
            && (forall r :: r in rs ==>
                  && PayingAccount(r) in db.accounts
                  && db.accounts[PayingAccount(r)].balance >= PayableFrom(rs, snaps, PayingAccount(r)))
  {
    AllPreparedIs(rs, snaps);
    PreparedLength(rs, snaps);
    if forall r :: r in rs ==> Sound(r, snaps) {
      var us := PrepareAll(rs, snaps).value;
      AllPreparedNonNegative(rs, snaps);
      forall k ensures AmountOf(us, k) >= 0.0 {
        AmountsNonNegative(us, k);
      }
      BearableIff(db.accounts, rs, us, snaps);
    }
  }

  lemma {:induction false} LockableIff(t: Table, k: Key, amount: real)
    requires ValidTable(t) && amount >= 0.0
    ensures Lockable(t, Update(k, amount, 0.0)) <==> k in t && t[k].balance >= amount
  {
  }

  ghost predicate Bears(t: Table, rs: seq<Request>, snaps: Snapshots, r: Request) {
    PayingAccount(r) in t && t[PayingAccount(r)].balance >= PayableFrom(rs, snaps, PayingAccount(r))
  }

  lemma {:induction false} BearableIff(t: Table, rs: seq<Request>, us: seq<Update>, snaps: Snapshots)
    requires ValidTable(t) && |us| == |rs|
    requires forall i | 0 <= i < |rs| :: us[i].key == PayingAccount(rs[i])
    requires forall k :: AmountOf(us, k) == PayableFrom(rs, snaps, k) >= 0.0
    ensures AllLockable(t, us) <==> forall r :: r in rs ==> Bears(t, rs, snaps, r)
  {
    forall i | 0 <= i < |rs|
      ensures Lockable(t, Update(us[i].key, AmountOf(us, us[i].key), 0.0)) <==> Bears(t, rs, snaps, rs[i])
    {
      LockableIff(t, us[i].key, AmountOf(us, us[i].key));
    }
    if AllLockable(t, us) {
      forall r | r in rs ensures Bears(t, rs, snaps, r) {
        var i :| 0 <= i < |rs| && rs[i] == r;
        assert us[i] in us;
      }
    }
    if forall r :: r in rs ==> Bears(t, rs, snaps, r) {
      forall u | u in us ensures Lockable(t, Update(u.key, AmountOf(us, u.key), 0.0)) {
        var i :| 0 <= i < |us| && us[i] == u;
        assert rs[i] in rs;
      }
    }
  }

  lemma {:induction false} NewRowsIds(orders: Orders, rs: seq<Request>, ids: seq<OrderId>, now: int, us: seq<Update>,
                                      id: OrderId)
    requires |rs| == |ids| == |us|
    ensures id in NewRows(orders, rs, ids, now, us) <==> id in orders || id in ids
    decreases rs
  {
    if rs != [] {
      var next := orders[ids[0] := NewRow(Normalize(rs[0]), ids[0], now, us[0].amount)];
      NewRowsIds(next, rs[1..], ids[1..], now, us[1..], id);
      assert ids == [ids[0]] + ids[1..];
    }
  }

  /** What a batch writes: a NEW row for every request, all of one time, and each account's sum moved to locked. */
  lemma {:induction false} BatchWrites(db: DB, rs: seq<Request>, ids: seq<OrderId>, now: int, snaps: Snapshots)
    requires |rs| == |ids| && SaneSnapshots(snaps) && Batch(db, rs, ids, now, snaps).Some?
    ensures var next := Batch(db, rs, ids, now, snaps).value;
            && next.trades == db.trades && next.fence == db.fence && next.accounts.Keys == db.accounts.Keys
            && (forall id :: id in next.orders <==> id in db.orders || id in ids)
            && (forall id :: id in db.orders ==> id in next.orders && next.orders[id] == db.orders[id])
            && (forall i | 0 <= i < |rs| ::
                  && ids[i] !in db.orders && ids[i] in next.orders
                  && next.orders[ids[i]] ==
                     Row(ids[i], rs[i].user, rs[i].symbol, rs[i].side, rs[i].otype, Round8(rs[i].price),
                         Round8(rs[i].qty), 0.0, New, now, Payable(rs[i], snaps)))
            && (forall k :: k in db.accounts ==>
                  var amount := PayableFrom(rs, snaps, k);
                  next.accounts[k] == Account(db.accounts[k].balance - amount, db.accounts[k].locked + amount))
  {
    AllPreparedIs(rs, snaps);
    PreparedLength(rs, snaps);
    var us := PrepareAll(rs, snaps).value;
    var next := Batch(db, rs, ids, now, snaps).value;
    forall id ensures id in next.orders <==> id in db.orders || id in ids {
      NewRowsIds(db.orders, rs, ids, now, us, id);
    }
    forall id | id in db.orders ensures next.orders[id] == db.orders[id] {
      NewRowsKeep(db.orders, rs, ids, now, us, id);
    }
    forall i | 0 <= i < |rs|
      ensures next.orders[ids[i]] == NewRow(Normalize(rs[i]), ids[i], now, Payable(rs[i], snaps))
    {
      NewRowsAt(db.orders, rs, ids, now, us, i);
    }
  }

  // Market buys on an unchanged book

  /**
   What is locked for a market buy against what matching it costs: never less, and 1.05 times as much when it is filled,
   which only an own order among the asks can prevent.
   */
  ghost predicate Secured(locked: real, row: Row, p: M.Processed, asks: seq<Order>) {
    && locked >= M.Value(p.trades) >= 0.0
    && (M.Volume(p.trades) == row.qty ==> locked == 1.05 * M.Value(p.trades))
    && (M.Volume(p.trades) != row.qty ==> exists o :: o in asks && o.user == row.user)
  }

  lemma {:induction false} PayableSecures(r: Request, snaps: Snapshots, row: Row, b: M.Book, depth: int, nid: TradeId)
    requires SaneSnapshots(snaps) && Sound(r, snaps) && r.side.Buy? && r.otype.Market?
    requires row.side.Buy? && row.otype.Market? && row.user == r.user && row.qty == Round8(r.qty)
    requires M.Positive(b.asks) && forall o :: o in b.asks ==> o.price >= 0.0
    requires r.symbol in snaps && E.Shows(snaps[r.symbol], b.asks, depth)
    ensures Secured(Payable(r, snaps), row, M.Process(r.symbol, b, ToTaker(row), nid), b.asks)
  {
    var asks := snaps[r.symbol];
    RequiredIsCost(asks, row.qty);
    E.SnapshotAgrees(asks, b.asks, depth, row.qty);
    E.EstimateCoversFill(r.symbol, ToTaker(row), b.asks, nid);
  }

  /**
   A market buy placed on the snapshot of an ask side and matched on that side: the locked funds grow by at least what
   its trades cost, and by 1.05 times that when it meets no own order; so its settlement is affordable.
   */
  lemma {:induction false} MarketBuyLocks(db: DB, r: Request, id: OrderId, now: int, snaps: Snapshots, b: M.Book,
                                          depth: int, nid: TradeId, token: int)
    requires SaneSnapshots(snaps) && Place(db, r, id, now, snaps).Some? && r.side.Buy? && r.otype.Market?
    requires M.Positive(b.asks) && forall o :: o in b.asks ==> o.price >= 0.0
    requires r.symbol in snaps && E.Shows(snaps[r.symbol], b.asks, depth)
    ensures var next := Place(db, r, id, now, snaps).value;
            var k, p := Key(r.user, Quote(r.symbol)), M.Process(r.symbol, b, ToTaker(next.orders[id]), nid);
            var growth := next.accounts[k].locked - db.accounts[k].locked;
            && growth == next.orders[id].lockedAmount
            && growth >= M.Value(p.trades)
            && ((forall o :: o in b.asks ==> o.user != r.user) ==> growth == 1.05 * M.Value(p.trades))
            && R.Affordable(next.orders, MatchEvent(next.orders[id], p, token))
  {
    PlaceWrites(db, r, id, now, snaps);
    PreparedIs(r, snaps);
    PayableSecures(r, snaps, Place(db, r, id, now, snaps).value.orders[id], b, depth, nid);
  }

  /** The same for any market buy of a batch; its account's locked funds grow by what all its orders lock. */
  lemma {:induction false} BatchBuyLocks(db: DB, rs: seq<Request>, ids: seq<OrderId>, now: int, snaps: Snapshots,
                                         i: nat, b: M.Book, depth: int, nid: TradeId, token: int)
    requires |rs| == |ids| && SaneSnapshots(snaps) && Batch(db, rs, ids, now, snaps).Some?
    requires i < |rs| && rs[i].side.Buy? && rs[i].otype.Market?
    requires M.Positive(b.asks) && forall o :: o in b.asks ==> o.price >= 0.0
    requires rs[i].symbol in snaps && E.Shows(snaps[rs[i].symbol], b.asks, depth)
    ensures ids[i] in Batch(db, rs, ids, now, snaps).value.orders && IsPair(rs[i].symbol)
    ensures var next := Batch(db, rs, ids, now, snaps).value; var row := next.orders[ids[i]];
            var p := M.Process(rs[i].symbol, b, ToTaker(row), nid);
            && row.symbol == rs[i].symbol && row.lockedAmount >= M.Value(p.trades)
            && ((forall o :: o in b.asks ==> o.user != row.user) ==> row.lockedAmount == 1.05 * M.Value(p.trades))
            && R.Affordable(next.orders, MatchEvent(row, p, token))
  {
    BatchWrites(db, rs, ids, now, snaps);
    AllPreparedIs(rs, snaps);
    assert rs[i] in rs;
    PayableSecures(rs[i], snaps, Batch(db, rs, ids, now, snaps).value.orders[ids[i]], b, depth, nid);
  }
}
