/** TX1 as pure functions: reserving funds and creating orders, one at a time or as a batch. */
module Placement {
  import opened Types
  import opened Money
  import opened Accounts
  import opened Settlement
  import E = Estimate

  /** What the caller of the order service asks for. */
  datatype Request = Request(user: UserId, symbol: Symbol, side: Side, otype: OrderType, price: real, qty: real)

  /** The cached order book snapshots, asks only. */
  type Snapshots = map<Symbol, seq<E.Level>>

  function Normalize(r: Request): Request {
    r.(price := Round8(r.price), qty := Round8(r.qty))
  }

  predicate Acceptable(r: Request) {
    r.qty > 0.0 && (r.otype.Limit? ==> r.price > 0.0)
  }

  /** Funds to reserve, as one entry whose `amount` is to be locked; None when it cannot be computed. */
  function LockFor(r: Request, snaps: Snapshots): Option<Update> {
    if !IsPair(r.symbol) then None
    else if r.side.Sell? then Some(Update(Key(r.user, Base(r.symbol)), r.qty, 0.0))
    else if r.otype.Limit? then Some(Update(Key(r.user, Quote(r.symbol)), Worth(r.price, r.qty), 0.0))
    else if r.symbol !in snaps || snaps[r.symbol] == [] then None
    else
      match E.Required(snaps[r.symbol], r.qty)
      case None => None
      case Some(c) => Some(Update(Key(r.user, Quote(r.symbol)), c * E.LOCK_MARGIN, 0.0))
  }

  function NewRow(r: Request, id: OrderId, now: int, amount: real): Row {
    Row(id, r.user, r.symbol, r.side, r.otype, r.price, r.qty, 0.0, New, now, amount)
  }

  predicate Lockable(t: Table, u: Update) {
    CanLock(t, u.key, u.amount) && Checked(Lock(t[u.key], u.amount))
  }

  function LockOne(t: Table, u: Update): Table
    requires u.key in t
  {
    t[u.key := Lock(t[u.key], u.amount)]
  }

  /** The lock of one request, if it is acceptable at all. */
  function Prepare(r: Request, snaps: Snapshots): Option<Update> {
    if Acceptable(Normalize(r)) then LockFor(Normalize(r), snaps) else None
  }

  /** TX1 for one order without the check of the symbol; None when it fails and leaves nothing behind. */
  function Admit(db: DB, r: Request, id: OrderId, now: int, snaps: Snapshots): Option<DB> {
    match Prepare(r, snaps)
    case None => None
    case Some(u) =>
      if !Lockable(db.accounts, u) || id in db.orders then None
      else Some(db.(orders := db.orders[id := NewRow(Normalize(r), id, now, u.amount)],
                    accounts := LockOne(db.accounts, u)))
  }

  /** TX1 for one order: the symbol is checked after everything else, and a bad one rolls it all back. */
  function Place(db: DB, r: Request, id: OrderId, now: int, snaps: Snapshots): Option<DB> {
    if r.symbol in ALLOWED_SYMBOLS then Admit(db, r, id, now, snaps) else None
  }

  /** Placing the orders one after the other, all in one go or not at all. */
  function PlaceAll(db: DB, rs: seq<Request>, ids: seq<OrderId>, now: int, snaps: Snapshots): Option<DB>
    requires |rs| == |ids|
    decreases rs
  {
    if rs == [] then Some(db)
    else
      match Place(db, rs[0], ids[0], now, snaps)
      case None => None
      case Some(next) => PlaceAll(next, rs[1..], ids[1..], now, snaps)
  }

  function AdmitAll(db: DB, rs: seq<Request>, ids: seq<OrderId>, now: int, snaps: Snapshots): Option<DB>
    requires |rs| == |ids|
    decreases rs
  {
    if rs == [] then Some(db)
    else
      match Admit(db, rs[0], ids[0], now, snaps)
      case None => None
      case Some(next) => AdmitAll(next, rs[1..], ids[1..], now, snaps)
  }

  lemma {:induction false} AdmitOne(db: DB, r: Request, id: OrderId, now: int, snaps: Snapshots)
    ensures AdmitAll(db, [r], [id], now, snaps) == Admit(db, r, id, now, snaps)
  {
    assert [r][1..] == [] && [id][1..] == [];
    if Admit(db, r, id, now, snaps).Some? {
      assert AdmitAll(Admit(db, r, id, now, snaps).value, [], [], now, snaps) == Admit(db, r, id, now, snaps);
    }
  }

  lemma {:induction false} AdmitTwo(db: DB, r: Request, i: OrderId, j: OrderId, now: int, snaps: Snapshots)
    requires Admit(db, r, i, now, snaps).Some?
    ensures AdmitAll(db, [r, r], [i, j], now, snaps) == Admit(Admit(db, r, i, now, snaps).value, r, j, now, snaps)
  {
    assert [r, r][1..] == [r] && [i, j][1..] == [j];
    AdmitOne(Admit(db, r, i, now, snaps).value, r, j, now, snaps);
  }

  // The batch

  function PrepareAll(rs: seq<Request>, snaps: Snapshots): Option<seq<Update>> {
    if rs == [] then Some([])
    else
      match (Prepare(rs[0], snaps), PrepareAll(rs[1..], snaps))
      case (Some(u), Some(us)) => Some([u] + us)
      case _ => None
  }

  /** Every account touched can bear the sum of its locks. */
  ghost predicate AllLockable(t: Table, us: seq<Update>) {
    forall u :: u in us ==> Lockable(t, Update(u.key, AmountOf(us, u.key), 0.0))
  }

  ghost function LockAll(t: Table, us: seq<Update>): Table {
    map k | k in t :: Lock(t[k], AmountOf(us, k))
  }

  function NewRows(orders: Orders, rs: seq<Request>, ids: seq<OrderId>, now: int, us: seq<Update>): Orders
    requires |rs| == |ids| == |us|
    decreases rs
  {
    if rs == [] then orders
    else NewRows(orders[ids[0] := NewRow(Normalize(rs[0]), ids[0], now, us[0].amount)], rs[1..], ids[1..], now, us[1..])
  }

  predicate FreshIds(orders: Orders, ids: seq<OrderId>) {
    (forall id :: id in ids ==> id !in orders) && (forall i, j | 0 <= i < j < |ids| :: ids[i] != ids[j])
  }

  lemma {:induction false} PreparedLength(rs: seq<Request>, snaps: Snapshots)
    ensures PrepareAll(rs, snaps).Some? ==> |PrepareAll(rs, snaps).value| == |rs|
  {
    if rs != [] {
      PreparedLength(rs[1..], snaps);
    }
  }

  /** TX1 for a batch: sums are locked per account, then all rows are copied in. */
  ghost function Batch(db: DB, rs: seq<Request>, ids: seq<OrderId>, now: int, snaps: Snapshots): Option<DB>
    requires |rs| == |ids|
  {
    PreparedLength(rs, snaps);
    match PrepareAll(rs, snaps)
    case None => None
    case Some(us) =>
      if AllLockable(db.accounts, us) && FreshIds(db.orders, ids)
      then Some(db.(orders := NewRows(db.orders, rs, ids, now, us), accounts := LockAll(db.accounts, us)))
      else None
  }

  ghost predicate SaneSnapshots(snaps: Snapshots) {
    forall s :: s in snaps ==> E.SaneLevels(snaps[s])
  }

  /** What a request locks is never negative. */
  lemma {:induction false} LockNonNegative(r: Request, snaps: Snapshots)
    requires SaneSnapshots(snaps) && Prepare(r, snaps).Some?
    ensures Prepare(r, snaps).value.amount >= 0.0
  {
    var q := Normalize(r);
    if q.side.Buy? {
      if q.otype.Limit? {
        WorthSign(q.price, q.qty);
      } else {
        E.RequiredNonNegative(snaps[q.symbol], q.qty);
      }
    }
  }

  /**
   What is placed is within half a unit of what was asked for and on the grid, and so is what a sell locks;
   rejected is what is not positive once rounded.
   */
  lemma {:induction false} PlacedOnGrid(db: DB, r: Request, id: OrderId, now: int, snaps: Snapshots)
    ensures Place(db, r, id, now, snaps).Some? ==>
              var next := Place(db, r, id, now, snaps).value;
              && id !in db.orders && next.orders.Keys == db.orders.Keys + {id}
              && var row := next.orders[id];
                 && OnGrid(row.price) && OnGrid(row.qty) && row.qty > 0.0 && (row.otype.Limit? ==> row.price > 0.0)
                 && -0.5 / SCALE <= row.qty - r.qty <= 0.5 / SCALE && -0.5 / SCALE <= row.price - r.price <= 0.5 / SCALE
                 && (row.side.Sell? ==> OnGrid(row.lockedAmount))
    ensures !Acceptable(Normalize(r)) ==> Place(db, r, id, now, snaps).None?
  {
    RoundOnGrid(r.price);
    RoundOnGrid(r.qty);
    RoundError(r.price);
    RoundError(r.qty);
  }

  lemma {:induction false} AmountsNonNegative(us: seq<Update>, k: Key)
    requires forall u :: u in us ==> u.amount >= 0.0
    ensures AmountOf(us, k) >= 0.0
  {
    if us != [] {
      assert us[0] in us;
      AmountsNonNegative(us[1..], k);
    }
  }

  /** Locking the first amount and then the sums of the rest is locking the sums. */
  lemma {:induction false} LockHead(t: Table, us: seq<Update>)
    requires us != [] && ValidTable(t) && forall u :: u in us ==> u.amount >= 0.0
    ensures AllLockable(t, us) <==> Lockable(t, us[0]) && AllLockable(LockOne(t, us[0]), us[1..])
    ensures AllLockable(t, us) ==> LockAll(t, us) == LockAll(LockOne(t, us[0]), us[1..])
  {
    forall k ensures AmountOf(us[1..], k) >= 0.0 {
      AmountsNonNegative(us[1..], k);
    }
    assert us[0] in us;
    if AllLockable(t, us) {
      LockableTail(t, us);
      assert forall k :: AmountOf(us, k) == (if us[0].key == k then us[0].amount else 0.0) + AmountOf(us[1..], k);
    }
    if Lockable(t, us[0]) && AllLockable(LockOne(t, us[0]), us[1..]) {
      LockableAgain(t, us);
    }
  }

  lemma {:induction false} LockableTail(t: Table, us: seq<Update>)
    requires us != [] && ValidTable(t) && us[0].amount >= 0.0 && forall k :: AmountOf(us[1..], k) >= 0.0
    requires AllLockable(t, us)
    ensures Lockable(t, us[0]) && AllLockable(LockOne(t, us[0]), us[1..])
  {
    assert us[0] in us;
    assert Lockable(t, Update(us[0].key, AmountOf(us, us[0].key), 0.0));
    assert AmountOf(us, us[0].key) == us[0].amount + AmountOf(us[1..], us[0].key);
    forall u | u in us[1..] ensures Lockable(LockOne(t, us[0]), Update(u.key, AmountOf(us[1..], u.key), 0.0)) {
      assert u in us;
    }
  }

  lemma {:induction false} LockableAgain(t: Table, us: seq<Update>)
    requires us != [] && ValidTable(t) && us[0].amount >= 0.0
    requires Lockable(t, us[0]) && AllLockable(LockOne(t, us[0]), us[1..])
    ensures AllLockable(t, us)
  {
    var h, rest := us[0], us[1..];
    forall u | u in us ensures Lockable(t, Update(u.key, AmountOf(us, u.key), 0.0)) {
      if exists v :: v in rest && v.key == u.key {
        var v :| v in rest && v.key == u.key;
        assert Lockable(LockOne(t, h), Update(v.key, AmountOf(rest, v.key), 0.0));
      } else {
        SumsAbsent(rest, u.key);
        assert u == h by { assert us == [h] + rest; }
      }
    }
  }

  /** A batch admits its orders exactly as admitting them one by one would, or leaves nothing behind. */
  lemma {:induction false} BatchAdmits(db: DB, rs: seq<Request>, ids: seq<OrderId>, now: int, snaps: Snapshots)
    requires |rs| == |ids| && ValidTable(db.accounts) && SaneSnapshots(snaps)
    ensures Batch(db, rs, ids, now, snaps) == AdmitAll(db, rs, ids, now, snaps)
    decreases rs
  {
    PreparedLength(rs, snaps);
    if rs == [] {
      assert LockAll(db.accounts, []) == db.accounts;
    } else {
      PreparedLength(rs[1..], snaps);
      if PrepareAll(rs, snaps).Some? {
        BatchStep(db, rs, ids, now, snaps);
      } else if Admit(db, rs[0], ids[0], now, snaps).Some? {
        BatchAdmits(Admit(db, rs[0], ids[0], now, snaps).value, rs[1..], ids[1..], now, snaps);
      }
    }
  }

  lemma {:induction false} AllowedAdmits(db: DB, rs: seq<Request>, ids: seq<OrderId>, now: int, snaps: Snapshots)
    requires |rs| == |ids| && forall r :: r in rs ==> r.symbol in ALLOWED_SYMBOLS
    ensures AdmitAll(db, rs, ids, now, snaps) == PlaceAll(db, rs, ids, now, snaps)
    decreases rs
  {
    if rs != [] && Place(db, rs[0], ids[0], now, snaps).Some? {
      AllowedAdmits(Place(db, rs[0], ids[0], now, snaps).value, rs[1..], ids[1..], now, snaps);
    }
  }

  /**
   For allowed symbols and one set of snapshots, a batch succeeds exactly when placing its orders one by
   one would all succeed, with the same database afterwards; otherwise it leaves nothing behind.
   */
  lemma {:induction false} BatchIsSequential(db: DB, rs: seq<Request>, ids: seq<OrderId>, now: int, snaps: Snapshots)
    requires |rs| == |ids| && ValidTable(db.accounts) && SaneSnapshots(snaps)
    requires forall r :: r in rs ==> r.symbol in ALLOWED_SYMBOLS
    ensures Batch(db, rs, ids, now, snaps) == PlaceAll(db, rs, ids, now, snaps)
  {
    BatchAdmits(db, rs, ids, now, snaps);
    AllowedAdmits(db, rs, ids, now, snaps);
  }

  lemma {:induction false} ForbiddenFails(db: DB, rs: seq<Request>, ids: seq<OrderId>, now: int, snaps: Snapshots,
                                          i: nat)
    requires |rs| == |ids| && i < |rs| && rs[i].symbol !in ALLOWED_SYMBOLS
    ensures PlaceAll(db, rs, ids, now, snaps).None?
    decreases rs
  {
    if i > 0 && Place(db, rs[0], ids[0], now, snaps).Some? {
      ForbiddenFails(Place(db, rs[0], ids[0], now, snaps).value, rs[1..], ids[1..], now, snaps, i - 1);
    }
  }

  /**
   The batch path never looks at the list of allowed symbols, the single path does: the two agree exactly when
   every symbol is allowed, or an order cannot be prepared, an account cannot bear its locks, or an id is taken.
   */
  lemma {:induction false} BatchAgreesIff(db: DB, rs: seq<Request>, ids: seq<OrderId>, now: int, snaps: Snapshots)
    requires |rs| == |ids| && ValidTable(db.accounts) && SaneSnapshots(snaps)
    ensures Batch(db, rs, ids, now, snaps) == PlaceAll(db, rs, ids, now, snaps) <==>
            || (forall r :: r in rs ==> r.symbol in ALLOWED_SYMBOLS)
            || PrepareAll(rs, snaps).None?
            || !AllLockable(db.accounts, PrepareAll(rs, snaps).value)
            || !FreshIds(db.orders, ids)
  {
    if forall r :: r in rs ==> r.symbol in ALLOWED_SYMBOLS {
      BatchIsSequential(db, rs, ids, now, snaps);
    } else {
      var r :| r in rs && r.symbol !in ALLOWED_SYMBOLS;
      var i :| 0 <= i < |rs| && rs[i] == r;
      ForbiddenFails(db, rs, ids, now, snaps, i);
    }
  }

  lemma {:induction false} AllPreparedNonNegative(rs: seq<Request>, snaps: Snapshots)
    requires SaneSnapshots(snaps) && PrepareAll(rs, snaps).Some?
    ensures forall u :: u in PrepareAll(rs, snaps).value ==> u.amount >= 0.0
  {
    if rs != [] {
      LockNonNegative(rs[0], snaps);
      AllPreparedNonNegative(rs[1..], snaps);
    }
  }

  lemma {:induction false} FreshHead(orders: Orders, ids: seq<OrderId>, r: Row)
    requires ids != []
    ensures FreshIds(orders, ids) <==> ids[0] !in orders && FreshIds(orders[ids[0] := r], ids[1..])
  {
    assert ids == [ids[0]] + ids[1..];
    if ids[0] !in orders && FreshIds(orders[ids[0] := r], ids[1..]) {
      forall i, j | 0 <= i < j < |ids| ensures ids[i] != ids[j] {
        assert ids[1..][j - 1] in ids[1..];
        assert i > 0 ==> ids[i] == ids[1..][i - 1];
      }
    }
    if FreshIds(orders, ids) {
      forall id | id in ids[1..] ensures id != ids[0] {
        var j :| 0 <= j < |ids[1..]| && ids[1..][j] == id;
        assert ids[j + 1] == id;
      }
    }
  }

  lemma {:induction false} BatchStep(db: DB, rs: seq<Request>, ids: seq<OrderId>, now: int, snaps: Snapshots)
    requires rs != [] && |rs| == |ids| && ValidTable(db.accounts) && SaneSnapshots(snaps)
    requires PrepareAll(rs, snaps).Some?
    ensures Batch(db, rs, ids, now, snaps) == AdmitAll(db, rs, ids, now, snaps)
    decreases rs, 0
  {
    var us := PrepareAll(rs, snaps).value;
    PreparedLength(rs, snaps);
    AllPreparedNonNegative(rs, snaps);
    LockHead(db.accounts, us);
    assert us[1..] == PrepareAll(rs[1..], snaps).value;
    FreshHead(db.orders, ids, NewRow(Normalize(rs[0]), ids[0], now, us[0].amount));
    if Admit(db, rs[0], ids[0], now, snaps).Some? {
      BatchAdmits(Admit(db, rs[0], ids[0], now, snaps).value, rs[1..], ids[1..], now, snaps);
    }
  }

  lemma {:induction false} NewRowsKeep(orders: Orders, rs: seq<Request>, ids: seq<OrderId>, now: int, us: seq<Update>,
                                       id: OrderId)
    requires |rs| == |ids| == |us| && id !in ids && id in orders
    ensures id in NewRows(orders, rs, ids, now, us) && NewRows(orders, rs, ids, now, us)[id] == orders[id]
    decreases rs
  {
    if rs != [] {
      var next := orders[ids[0] := NewRow(Normalize(rs[0]), ids[0], now, us[0].amount)];
      NewRowsKeep(next, rs[1..], ids[1..], now, us[1..], id);
    }
  }

  lemma {:induction false} NewRowsAt(orders: Orders, rs: seq<Request>, ids: seq<OrderId>, now: int, us: seq<Update>,
                                     i: nat)
    requires |rs| == |ids| == |us| && FreshIds(orders, ids) && i < |rs|
    ensures ids[i] in NewRows(orders, rs, ids, now, us)
    ensures NewRows(orders, rs, ids, now, us)[ids[i]] == NewRow(Normalize(rs[i]), ids[i], now, us[i].amount)
    decreases rs
  {
    var row := NewRow(Normalize(rs[0]), ids[0], now, us[0].amount);
    FreshHead(orders, ids, row);
    if i == 0 {
      assert ids[0] !in ids[1..];
      NewRowsKeep(orders[ids[0] := row], rs[1..], ids[1..], now, us[1..], ids[0]);
    } else {
      NewRowsAt(orders[ids[0] := row], rs[1..], ids[1..], now, us[1..], i - 1);
    }
  }
}
