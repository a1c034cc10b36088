/**
 Cold start: the active orders the database returns, put back into empty books one by one, against the
 book the engine had before it went down.
 */
module Recovery {
  import opened Types
  import opened Sorting
  import opened Settlement
  import opened OrderFlow
  import opened BookInvariant
  import opened Streams
  import opened Aggregation
  import opened Manager
  import Subscriber
  import M = Matching

  /** Resting limit orders, oldest first; rows created in the same millisecond come in any order. */
  ghost predicate QueryResult(orders: Orders, q: seq<Row>) {
    && (forall r :: r in q ==> r.id in orders && orders[r.id] == r && Resting(r))
    && (forall id :: id in orders && Resting(orders[id]) ==> orders[id] in q)
    && (forall i, j | 0 <= i < j < |q| :: q[i].id != q[j].id && q[i].createdAt <= q[j].createdAt)
  }

  /** A symbol's book after putting the rows into it in order; anything but a limit order is skipped. */
  function RestoredOnto(b: M.Book, sym: Symbol, q: seq<Row>): M.Book {
    if q == [] then b
    else
      var last, before := q[|q| - 1], RestoredOnto(b, sym, q[..|q| - 1]);
      if last.otype.Limit? && last.symbol == sym then M.AddOrder(before, ToOrder(last)) else before
  }

  /** Restoring into an empty book. */
  function Restored(sym: Symbol, q: seq<Row>): M.Book {
    RestoredOnto(M.EMPTY_BOOK, sym, q)
  }

  function Created(orders: Orders, id: OrderId): int {
    if id in orders then orders[id].createdAt else 0
  }

  function Older(orders: Orders): (OrderId, OrderId) -> bool {
    (a: OrderId, b: OrderId) => Created(orders, a) < Created(orders, b)
        || (Created(orders, a) == Created(orders, b) && a < b)
  }

  /** The query recovery starts from. */
  method GetActiveOrders(orders: Orders) returns (q: seq<Row>)
    requires forall id :: id in orders ==> orders[id].id == id
    ensures QueryResult(orders, q)
  {
    var ids := SortKeys<OrderId>((set id | id in orders && Resting(orders[id])), Older(orders));
    q := [];
    for i := 0 to |ids|
      invariant |q| == i && forall k | 0 <= k < i :: ids[k] in orders && q[k] == orders[ids[k]]
    {
      assert ids[i] in ids;
      q := q + [orders[ids[i]]];
    }
    RowsListed(orders, ids, q, Older(orders));
  }

  ghost predicate RespectsAge(orders: Orders, less: (OrderId, OrderId) -> bool) {
    forall a, b :: less(a, b) ==> a != b && Created(orders, a) <= Created(orders, b)
  }

  /** Rows listed along increasing ids are a query result, whichever way equal ages are ordered. */
  lemma {:induction false} RowsListed(orders: Orders, ids: seq<OrderId>, q: seq<Row>, less: (OrderId, OrderId) -> bool)
    requires forall id :: id in orders ==> orders[id].id == id
    requires RespectsAge(orders, less) && Increasing(ids, less)
    requires forall id :: id in ids <==> id in orders && Resting(orders[id])
    requires |q| == |ids| && forall k | 0 <= k < |q| :: ids[k] in orders && q[k] == orders[ids[k]]
    ensures QueryResult(orders, q)
  {
    forall r | r in q ensures r.id in orders && orders[r.id] == r && Resting(r) {
      var k :| 0 <= k < |q| && q[k] == r;
      assert ids[k] in ids;
    }
    forall id | id in orders && Resting(orders[id]) ensures orders[id] in q {
      var k :| 0 <= k < |ids| && ids[k] == id;
      assert q[k] == orders[id];
    }
    forall i, j | 0 <= i < j < |q| ensures q[i].id != q[j].id && q[i].createdAt <= q[j].createdAt {
      assert less(ids[i], ids[j]);
    }
  }

  /** Load the active orders on top of what the engines hold; a failing query leaves them as they are. */
  method RestoreEngineSnapshot(manager: EngineManager, orders: Orders, queryOk: bool) returns (ok: bool)
    requires manager.Valid() && forall id :: id in orders ==> orders[id].id == id
    modifies manager, manager.Books()
    ensures manager.Valid() && ok == queryOk
    ensures ok ==> exists q :: QueryResult(orders, q)
                               && forall sym :: manager.Book(sym) == RestoredOnto(old(manager.Book(sym)), sym, q)
    ensures !ok ==> forall sym :: manager.Book(sym) == old(manager.Book(sym))
  {
    if !queryOk {
      return false;
    }
    ok := true;
    var q := GetActiveOrders(orders);
    for i := 0 to |q|
      invariant manager.Valid() && fresh(manager.Books() - old(manager.Books()))
      invariant forall sym :: manager.Book(sym) == RestoredOnto(old(manager.Book(sym)), sym, q[..i])
    {
      assert q[..i + 1][..i] == q[..i];
      if q[i].otype.Limit? {
        RestoreOrder(manager, q[i].symbol, ToOrder(q[i]));
      }
    }
    assert q[..|q|] == q;
  }

  /**
   Taking the lead: whatever was in memory goes, and every book is what the database says. A query that fails is
   only logged, and the new leader goes on with empty books.
   */
  method BecomeLeader(manager: EngineManager, orders: Orders, queryOk: bool)
    requires manager.Valid() && forall id :: id in orders ==> orders[id].id == id
    modifies manager, manager.Books()
    ensures manager.Valid()
    ensures queryOk ==> exists q :: QueryResult(orders, q) && forall sym :: manager.Book(sym) == Restored(sym, q)
    ensures !queryOk ==> forall sym :: manager.Book(sym) == M.EMPTY_BOOK
  {
    manager.Reset();
    var ok := RestoreEngineSnapshot(manager, orders, queryOk);
  }

  // One side of a restored book

  function Listed(sym: Symbol, q: seq<Row>, side: Side): seq<Order> {
    if q == [] then []
    else
      var last, s := q[|q| - 1], Listed(sym, q[..|q| - 1], side);
      if last.otype.Limit? && last.symbol == sym && last.side == side then s + [ToOrder(last)] else s
  }

  lemma {:induction false} RestoredSide(sym: Symbol, q: seq<Row>, side: Side)
    ensures Restored(sym, q).On(side) == StableSort(Listed(sym, q, side), M.Ahead(side))
  {
    if q != [] {
      var init, last := q[..|q| - 1], q[|q| - 1];
      RestoredSide(sym, init, side);
      if last.otype.Limit? && last.symbol == sym && last.side == side {
        var s := Listed(sym, init, side);
        AheadIsWeakOrder(side);
        StableSortCorrect(s, M.Ahead(side));
        SortAppend(StableSort(s, M.Ahead(side)), ToOrder(last), M.Ahead(side));
        assert (s + [ToOrder(last)])[..|s|] == s;
      }
    }
  }

  ghost predicate Precedes<T>(s: seq<T>, a: T, b: T) {
    exists i, j :: 0 <= i < j < |s| && s[i] == a && s[j] == b
  }

  predicate Belongs(r: Row, sym: Symbol, side: Side) {
    r.otype.Limit? && r.symbol == sym && r.side == side
  }

  lemma {:induction false} ListedMembers(sym: Symbol, q: seq<Row>, side: Side)
    ensures forall x :: x in Listed(sym, q, side) ==> exists r :: r in q && Belongs(r, sym, side) && x == ToOrder(r)
    ensures forall r :: r in q && Belongs(r, sym, side) ==> ToOrder(r) in Listed(sym, q, side)
  {
    if q != [] {
      var init, last := q[..|q| - 1], q[|q| - 1];
      ListedMembers(sym, init, side);
      assert q == init + [last];
      forall x | x in Listed(sym, q, side) ensures exists r :: r in q && Belongs(r, sym, side) && x == ToOrder(r) {
        if x in Listed(sym, init, side) {
          var r :| r in init && Belongs(r, sym, side) && x == ToOrder(r);
          assert r in q;
        } else {
          assert last in q && x == ToOrder(last);
        }
      }
    }
  }

  /** Listing keeps the order of the rows, in both directions. */
  lemma {:induction false} ListedPrecedes(sym: Symbol, q: seq<Row>, side: Side, a: Row, b: Row)
    requires Precedes(q, a, b)
    requires Belongs(a, sym, side) && Belongs(b, sym, side)
    ensures Precedes(Listed(sym, q, side), ToOrder(a), ToOrder(b))
  {
    var i, j :| 0 <= i < j < |q| && q[i] == a && q[j] == b;
    var init, last := q[..|q| - 1], q[|q| - 1];
    var s, t := Listed(sym, init, side), Listed(sym, q, side);
    if j < |q| - 1 {
      assert init[i] == a && init[j] == b;
      ListedPrecedes(sym, init, side, a, b);
      var k, l :| 0 <= k < l < |s| && s[k] == ToOrder(a) && s[l] == ToOrder(b);
      assert t[k] == ToOrder(a) && t[l] == ToOrder(b);
    } else {
      assert a in init by { assert init[i] == a; }
      ListedMembers(sym, init, side);
      assert ToOrder(a) in s;
      var k :| 0 <= k < |s| && s[k] == ToOrder(a);
      assert t[k] == ToOrder(a) && t[|s|] == ToOrder(b);
    }
  }

  ghost predicate InAgeOrder(orders: Orders, s: seq<Order>) {
    forall i, j | 0 <= i < j < |s| :: s[i].id != s[j].id && Created(orders, s[i].id) <= Created(orders, s[j].id)
  }

  /** Orders of the same side listed one after the other were created in that sequence. */
  lemma {:induction false} ListedByAge(orders: Orders, sym: Symbol, q: seq<Row>, side: Side)
    requires forall r :: r in q ==> r.id in orders && orders[r.id] == r
    requires forall i, j | 0 <= i < j < |q| :: q[i].id != q[j].id && q[i].createdAt <= q[j].createdAt
    ensures InAgeOrder(orders, Listed(sym, q, side))
  {
    if q != [] {
      var init, last := q[..|q| - 1], q[|q| - 1];
      ListedByAge(orders, sym, init, side);
      ListedMembers(sym, init, side);
      var s := Listed(sym, init, side);
      assert last in q;
      forall x | x in s ensures x.id != last.id && Created(orders, x.id) <= Created(orders, last.id) {
        var r :| r in init && Belongs(r, sym, side) && x == ToOrder(r);
        var i :| 0 <= i < |init| && init[i] == r;
        assert q[i] == r && r in q;
      }
      AgeAppend(orders, s, ToOrder(last));
    }
  }

  lemma {:induction false} AgeAppend(orders: Orders, s: seq<Order>, o: Order)
    requires InAgeOrder(orders, s)
    requires forall x :: x in s ==> x.id != o.id && Created(orders, x.id) <= Created(orders, o.id)
    ensures InAgeOrder(orders, s + [o])
  {
    var t := s + [o];
    forall i, j | 0 <= i < j < |t| ensures t[i].id != t[j].id && Created(orders, t[i].id) <= Created(orders, t[j].id) {
      assert t[i] in s;
    }
  }

  // Ties keep their order

  lemma {:induction false} TiesPrecede<T>(s: seq<T>, a: T, b: T, y: T, less: (T, T) -> bool)
    requires Precedes(s, a, b) && !less(y, a) && !less(a, y) && !less(y, b) && !less(b, y)
    ensures Precedes(Ties(s, y, less), a, b)
  {
    var i, j :| 0 <= i < j < |s| && s[i] == a && s[j] == b;
    var rest := Ties(s[1..], y, less);
    if i > 0 {
      assert s[1..][i - 1] == a && s[1..][j - 1] == b;
      TiesPrecede(s[1..], a, b, y, less);
      var k, l :| 0 <= k < l < |rest| && rest[k] == a && rest[l] == b;
      var d := |Ties(s, y, less)| - |rest|;
      assert Ties(s, y, less)[k + d] == a && Ties(s, y, less)[l + d] == b;
    } else {
      assert b in s[1..] by { assert s[1..][j - 1] == b; }
      TiesMembers(s[1..], y, less);
      var l :| 0 <= l < |rest| && rest[l] == b;
      assert Ties(s, y, less)[0] == a && Ties(s, y, less)[l + 1] == b;
    }
  }

  lemma {:induction false} TiesPreceded<T>(s: seq<T>, a: T, b: T, y: T, less: (T, T) -> bool)
    requires Precedes(Ties(s, y, less), a, b)
    ensures Precedes(s, a, b)
  {
    var t, rest := Ties(s, y, less), Ties(s[1..], y, less);
    var i, j :| 0 <= i < j < |t| && t[i] == a && t[j] == b;
    var d := |t| - |rest|;
    if i >= d {
      assert rest[i - d] == a && rest[j - d] == b;
      TiesPreceded(s[1..], a, b, y, less);
      var k, l :| 0 <= k < l < |s[1..]| && s[1..][k] == a && s[1..][l] == b;
      assert s[k + 1] == a && s[l + 1] == b;
    } else {
      assert rest[j - 1] == b;
      TiesMembers(s[1..], y, less);
      assert b in s[1..];
      var l :| 0 <= l < |s[1..]| && s[1..][l] == b;
      assert s[0] == a && s[l + 1] == b;
    }
  }

  /** Elements that keep their order in a sequence keep it among its ties. */
  lemma {:induction false} TiesIncreasing<T(!new)>(s: seq<T>, y: T, less: (T, T) -> bool, before: (T, T) -> bool)
    requires forall i, j | 0 <= i < j < |s| && !less(y, s[i]) && !less(s[i], y) && !less(y, s[j]) && !less(s[j], y) ::
               before(s[i], s[j])
    ensures Increasing(Ties(s, y, less), before)
  {
    var t := Ties(s, y, less);
    forall i, j | 0 <= i < j < |t| ensures before(t[i], t[j]) {
      TiesMembers(s, y, less);
      assert t[i] in t && t[j] in t && Precedes(t, t[i], t[j]);
      TiesPreceded(s, t[i], t[j], y, less);
    }
  }

  // The theorem

  /** Along each price level of the live book, creation times strictly increase. */
  ghost predicate FifoClocked(orders: Orders, s: seq<Order>) {
    forall i, j | 0 <= i < j < |s| && s[i].price == s[j].price :: Created(orders, s[i].id) < Created(orders, s[j].id)
  }

  /** A live side in a state with nothing under way: it holds the resting orders of the symbol, in queue order. */
  ghost predicate LiveSide(orders: Orders, sym: Symbol, side: Side, s: seq<Order>, at: Arrivals) {
    && Queued(side, s, at)
    && (forall x :: x in s ==> x.id in orders && orders[x.id].symbol == sym && orders[x.id].side == side
                               && Resting(orders[x.id]) && x == ToOrder(orders[x.id]))
    && (forall id :: id in orders && orders[id].symbol == sym && orders[id].side == side && Resting(orders[id]) ==>
          ToOrder(orders[id]) in s)
  }

  lemma {:induction false} SameMembers(orders: Orders, sym: Symbol, side: Side, s: seq<Order>, at: Arrivals,
                                       q: seq<Row>)
    requires LiveSide(orders, sym, side, s, at) && QueryResult(orders, q)
    ensures forall x :: x in Listed(sym, q, side) <==> x in s
  {
    ListedMembers(sym, q, side);
    forall x | x in s ensures x in Listed(sym, q, side) {
      assert orders[x.id] in q;
    }
  }

  function Younger(orders: Orders): (Order, Order) -> bool {
    (a: Order, b: Order) => Created(orders, a.id) < Created(orders, b.id)
  }

  lemma {:induction false} SameLevel(orders: Orders, sym: Symbol, side: Side, s: seq<Order>, at: Arrivals,
                                     q: seq<Row>, y: Order)
    requires LiveSide(orders, sym, side, s, at) && QueryResult(orders, q) && FifoClocked(orders, s)
    ensures Ties(Listed(sym, q, side), y, M.Ahead(side)) == Ties(s, y, M.Ahead(side))
  {
    SameMembers(orders, sym, side, s, at, q);
    ListedByAge(orders, sym, q, side);
    LevelsByAge(orders, Listed(sym, q, side), s);
    SameTies(orders, side, Listed(sym, q, side), s, y);
  }

  lemma {:induction false} SameTies(orders: Orders, side: Side, l: seq<Order>, s: seq<Order>, y: Order)
    requires FifoClocked(orders, s) && (forall x :: x in l <==> x in s)
    requires forall i, j | 0 <= i < j < |l| && l[i].price == l[j].price :: Younger(orders)(l[i], l[j])
    ensures Ties(l, y, M.Ahead(side)) == Ties(s, y, M.Ahead(side))
  {
    var ahead := M.Ahead(side);
    TiesIncreasing(l, y, ahead, Younger(orders));
    TiesIncreasing(s, y, ahead, Younger(orders));
    TiesMembers(l, y, ahead);
    TiesMembers(s, y, ahead);
    IncreasingUnique(Ties(l, y, ahead), Ties(s, y, ahead), Younger(orders));
  }

  /** Equal prices in a list by age are as far apart in age as in the live side. */
  lemma {:induction false} LevelsByAge(orders: Orders, l: seq<Order>, s: seq<Order>)
    requires FifoClocked(orders, s) && forall x :: x in l ==> x in s
    requires InAgeOrder(orders, l)
    ensures forall i, j | 0 <= i < j < |l| && l[i].price == l[j].price :: Younger(orders)(l[i], l[j])
  {
    forall i, j | 0 <= i < j < |l| && l[i].price == l[j].price ensures Younger(orders)(l[i], l[j]) {
      assert l[i] in s && l[j] in s && l[i] != l[j];
      var k, m :| 0 <= k < |s| && s[k] == l[i] && 0 <= m < |s| && s[m] == l[j];
      assert k < m || m < k;
    }
  }

  lemma {:induction false} SideRestored(orders: Orders, sym: Symbol, side: Side, s: seq<Order>, at: Arrivals,
                                        q: seq<Row>)
    requires LiveSide(orders, sym, side, s, at) && QueryResult(orders, q) && FifoClocked(orders, s)
    ensures Restored(sym, q).On(side) == s
  {
    var l, ahead := Listed(sym, q, side), M.Ahead(side);
    RestoredSide(sym, q, side);
    AheadIsWeakOrder(side);
    QueuedSorted(side, s, at);
    StableSortCorrect(l, ahead);
    forall y ensures Ties(StableSort(l, ahead), y, ahead) == Ties(s, y, ahead) {
      SameLevel(orders, sym, side, s, at, q, y);
    }
    StableSortUnique(StableSort(l, ahead), s, ahead);
  }

  // The other direction: a result that lists one order before another of its level

  lemma {:induction false} InsertIncreasing<T(!new)>(s: seq<T>, x: T, less: (T, T) -> bool)
    requires StrictTotalOrder(less) && Increasing(s, less) && x !in s
    ensures Increasing(Insert(s, x, less), less)
  {
    InsertElements(s, x, less);
    if s != [] && !less(x, s[0]) {
      InsertIncreasing(s[1..], x, less);
      InsertElements(s[1..], x, less);
      forall y | y in Insert(s[1..], x, less) ensures less(s[0], y) {
        if y != x {
          var k :| 0 <= k < |s[1..]| && s[1..][k] == y;
          assert s[k + 1] == y;
        }
      }
    }
  }

  lemma {:induction false} Listing<T(!new)>(keys: set<T>, less: (T, T) -> bool) returns (s: seq<T>)
    requires StrictTotalOrder(less)
    ensures Increasing(s, less) && forall x :: x in s <==> x in keys
    decreases |keys|
  {
    s := [];
    if keys != {} {
      var x :| x in keys;
      var rest := Listing(keys - {x}, less);
      InsertIncreasing(rest, x, less);
      InsertElements(rest, x, less);
      s := Insert(rest, x, less);
    }
  }

  /** Age first, and among equals `first` before all others. */
  function Favoring(orders: Orders, first: OrderId): (OrderId, OrderId) -> bool {
    (a: OrderId, b: OrderId) =>
      Created(orders, a) < Created(orders, b)
      || (Created(orders, a) == Created(orders, b) && (if b == first then false else a == first || a < b))
  }

  lemma {:induction false} ResultFavoring(orders: Orders, first: OrderId, other: OrderId) returns (q: seq<Row>)
    requires forall id :: id in orders ==> orders[id].id == id
    requires first in orders && other in orders && first != other && Resting(orders[first]) && Resting(orders[other])
    requires Created(orders, first) <= Created(orders, other)
    ensures QueryResult(orders, q) && Precedes(q, orders[first], orders[other])
  {
    var less := Favoring(orders, first);
    var ids := Listing<OrderId>((set id | id in orders && Resting(orders[id])), less);
    forall k | 0 <= k < |ids| ensures ids[k] in orders {
      assert ids[k] in ids;
    }
    q := seq(|ids|, k requires 0 <= k < |ids| => orders[ids[k]]);
    RowsListed(orders, ids, q, less);
    assert first in ids && other in ids;
    var i, j :| 0 <= i < |ids| && ids[i] == first && 0 <= j < |ids| && ids[j] == other;
    assert !less(other, first);
    assert i < j && q[i] == orders[first] && q[j] == orders[other];
  }

  lemma {:induction false} LevelMisordered(orders: Orders, sym: Symbol, side: Side, s: seq<Order>, at: Arrivals,
                                           i: nat, j: nat)
    returns (q: seq<Row>)
    requires forall id :: id in orders ==> orders[id].id == id
    requires LiveSide(orders, sym, side, s, at) && i < j < |s| && s[i].price == s[j].price
    requires Created(orders, s[i].id) >= Created(orders, s[j].id)
    ensures QueryResult(orders, q) && Restored(sym, q).On(side) != s
  {
    var a, b := s[i], s[j];
    assert a in s && b in s && Before(side, at, a, b);
    q := ResultFavoring(orders, b.id, a.id);
    var l, ahead := Listed(sym, q, side), M.Ahead(side);
    ListedPrecedes(sym, q, side, orders[b.id], orders[a.id]);
    TiesPrecede(l, b, a, a, ahead);
    AheadIsWeakOrder(side);
    StableSortCorrect(l, ahead);
    RestoredSide(sym, q, side);
    assert Precedes(Ties(StableSort(l, ahead), a, ahead), b, a);
    TiesPreceded(StableSort(l, ahead), b, a, a, ahead);
    OneWay(side, s, at, a, b);
  }

  lemma {:induction false} OneWay(side: Side, s: seq<Order>, at: Arrivals, a: Order, b: Order)
    requires Queued(side, s, at) && Before(side, at, a, b)
    ensures !Precedes(s, b, a)
  {
  }

  /** Every result of the query restores a side exactly when creation times tell the orders of a level apart. */
  lemma {:induction false} SideRecoveryIff(orders: Orders, sym: Symbol, side: Side, s: seq<Order>, at: Arrivals)
    requires forall id :: id in orders ==> orders[id].id == id
    requires LiveSide(orders, sym, side, s, at)
    ensures (forall q :: QueryResult(orders, q) ==> Restored(sym, q).On(side) == s) <==> FifoClocked(orders, s)
  {
    if FifoClocked(orders, s) {
      forall q | QueryResult(orders, q) ensures Restored(sym, q).On(side) == s {
        SideRestored(orders, sym, side, s, at, q);
      }
    } else {
      var i, j :| 0 <= i < j < |s| && s[i].price == s[j].price && Created(orders, s[i].id) >= Created(orders, s[j].id);
      var q := LevelMisordered(orders, sym, side, s, at, i, j);
    }
  }

  /** Every result the query may give rebuilds this book. */
  ghost predicate AlwaysRestored(orders: Orders, sym: Symbol, b: M.Book) {
    forall q :: QueryResult(orders, q) ==> Restored(sym, q) == b
  }

  lemma {:induction false} BySides(orders: Orders, sym: Symbol, b: M.Book)
    ensures AlwaysRestored(orders, sym, b) <==>
            (forall q :: QueryResult(orders, q) ==> Restored(sym, q).On(Buy) == b.On(Buy))
            && (forall q :: QueryResult(orders, q) ==> Restored(sym, q).On(Sell) == b.On(Sell))
  {
  }

  lemma {:induction false} QueueClocked(orders: Orders, side: Side, s: seq<Order>, at: Arrivals)
    requires Queued(side, s, at)
    requires forall x, y :: x in at && y in at && at[x] < at[y] ==> Created(orders, x) < Created(orders, y)
    ensures FifoClocked(orders, s)
  {
    forall i, j | 0 <= i < j < |s| && s[i].price == s[j].price
      ensures Created(orders, s[i].id) < Created(orders, s[j].id)
    {
      assert Before(side, at, s[i], s[j]);
    }
  }

  // Taking over while events are still queued

  ghost predicate CrossedBook(b: M.Book) {
    exists x, y :: x in b.bids && y in b.asks && x.price >= y.price
  }

  lemma {:induction false} RestoredMembers(orders: Orders, sym: Symbol, q: seq<Row>, side: Side)
    requires RowsOk(orders) && QueryResult(orders, q)
    ensures forall x :: x in Restored(sym, q).On(side) ==>
              x.id in orders && Resting(orders[x.id]) && Belongs(orders[x.id], sym, side) && x == ToOrder(orders[x.id])
    ensures forall id :: id in orders && Resting(orders[id]) && Belongs(orders[id], sym, side) ==>
              ToOrder(orders[id]) in Restored(sym, q).On(side)
  {
    var l, s := Listed(sym, q, side), Restored(sym, q).On(side);
    ListedMembers(sym, q, side);
    RestoredSide(sym, q, side);
    AheadIsWeakOrder(side);
    StableSortCorrect(l, M.Ahead(side));
    assert forall x :: x in s <==> x in multiset(s);
    assert forall x :: x in l <==> x in multiset(l);
  }

  /** A resting buy and a resting sell at prices that cross. */
  predicate CrossingPair(o: Orders, x: OrderId, y: OrderId) {
    && x in o && y in o && Resting(o[x]) && Resting(o[y]) && o[x].side.Buy? && o[y].side.Sell?
    && o[x].price >= o[y].price
  }

  lemma {:induction false} RestoredCrossedIff(orders: Orders, sym: Symbol, q: seq<Row>)
    requires RowsOk(orders) && QueryResult(orders, q)
    ensures CrossedBook(Restored(sym, q)) <==> exists x, y :: CrossingPair(On(orders, sym), x, y)
  {
    var o, b := On(orders, sym), Restored(sym, q);
    RestoredMembers(orders, sym, q, Buy);
    RestoredMembers(orders, sym, q, Sell);
    assert b.On(Buy) == b.bids && b.On(Sell) == b.asks;
    if CrossedBook(b) {
      var x, y :| x in b.bids && y in b.asks && x.price >= y.price;
      assert CrossingPair(o, x.id, y.id);
    }
    if x, y :| CrossingPair(o, x, y) {
      assert ToOrder(orders[x]) in b.bids && ToOrder(orders[y]) in b.asks;
    }
  }

  lemma {:induction false} SameTrading(a: Row, b: Row)
    requires Forward(a, b) && !a.status.Rejected?
    ensures b.price == a.price && b.side == a.side && b.otype == a.otype && (b.Open() ==> a.Open())
  {
    assert Subscriber.Terms(a).price == a.price && Subscriber.Terms(b).price == b.price;
    assert Subscriber.Terms(a).side == a.side && Subscriber.Terms(b).side == b.side;
    assert Subscriber.Terms(a).otype == a.otype && Subscriber.Terms(b).otype == b.otype;
  }

  // Ranks of restored orders

  /** The place of an order in the list; 0 for one that is not in it. */
  function Rank(q: seq<Row>, id: OrderId): nat {
    if q == [] then 0 else if q[|q| - 1].id == id then |q| - 1 else Rank(q[..|q| - 1], id)
  }

  /** What the engine knows of arrivals after a restart: the places of what it restored. */
  function Renumbered(at: Arrivals, q: seq<Row>): Arrivals {
    map id | id in at :: Rank(q, id)
  }

  lemma {:induction false} RankAt(q: seq<Row>, i: nat)
    requires i < |q| && forall j, k | 0 <= j < k < |q| :: q[j].id != q[k].id
    ensures Rank(q, q[i].id) == i
  {
    if i < |q| - 1 {
      RankAt(q[..|q| - 1], i);
    }
  }

  lemma {:induction false} RankBound(q: seq<Row>, id: OrderId)
    ensures Rank(q, id) == 0 || Rank(q, id) < |q|
  {
    if q != [] {
      RankBound(q[..|q| - 1], id);
    }
  }

  lemma {:induction false} ListFits(q: seq<Row>, ids: set<OrderId>)
    requires forall r :: r in q ==> r.id in ids
    requires forall i, j | 0 <= i < j < |q| :: q[i].id != q[j].id
    ensures |q| <= |ids|
  {
    if q != [] {
      var init, last := q[..|q| - 1], q[|q| - 1];
      assert last in q;
      forall r | r in init ensures r.id in ids - {last.id} {
        var i :| 0 <= i < |init| && init[i] == r;
        assert q[i] == r && r in q;
      }
      ListFits(init, ids - {last.id});
    }
  }

  /** Fresh numbers stay above those of all orders known. */
  lemma {:induction false} RenumberedBound(at: Arrivals, q: seq<Row>)
    requires forall r :: r in q ==> r.id in at
    requires forall i, j | 0 <= i < j < |q| :: q[i].id != q[j].id
    ensures Renumbered(at, q).Keys == at.Keys && forall id :: id in at ==> Renumbered(at, q)[id] < |Renumbered(at, q)|
  {
    assert Renumbered(at, q).Keys == at.Keys;
    assert |Renumbered(at, q)| == |at.Keys|;
    ListFits(q, at.Keys);
    forall id | id in at ensures Rank(q, id) < |at.Keys| {
      RankBound(q, id);
      assert |at.Keys| > 0;
    }
  }

  ghost predicate Numbered(q: seq<Row>, at: Arrivals) {
    forall i | 0 <= i < |q| :: q[i].id in at && at[q[i].id] == i
  }

  lemma {:induction false} RenumberedNumbers(at: Arrivals, q: seq<Row>)
    requires forall r :: r in q ==> r.id in at
    requires forall i, j | 0 <= i < j < |q| :: q[i].id != q[j].id
    ensures Numbered(q, Renumbered(at, q))
  {
    forall i | 0 <= i < |q| ensures q[i].id in at && Renumbered(at, q)[q[i].id] == i {
      assert q[i] in q;
      RankAt(q, i);
    }
  }

  /** Restoring ranks every side by price and then by place in the list, whatever crosses. */
  lemma {:induction false} RestoredRanked(sym: Symbol, q: seq<Row>, side: Side, at: Arrivals)
    requires Numbered(q, at) && forall r :: r in q ==> Resting(r) && RowOk(r.id, r)
    ensures Queued(side, Restored(sym, q).On(side), at)
    ensures forall x :: x in Restored(sym, q).On(side) ==> at[x.id] < |q|
  {
    if q != [] {
      var init, last := q[..|q| - 1], q[|q| - 1];
      assert last in q && forall r :: r in init ==> r in q;
      RestoredRanked(sym, init, side, at);
      if last.symbol == sym && last.side == side {
        AddOrderQueued(Restored(sym, init), ToOrder(last), at);
      }
    }
  }

  lemma {:induction false} NothingRestored(sym: Symbol, q: seq<Row>)
    requires forall r :: r in q ==> r.symbol != sym
    ensures Restored(sym, q) == M.EMPTY_BOOK
  {
    if q != [] {
      assert q[|q| - 1] in q;
      NothingRestored(sym, q[..|q| - 1]);
    }
  }

  /** The restored book and the rows agree on every symbol. */
  lemma {:induction false} RestoredLinked(orders: Orders, sym: Symbol, q: seq<Row>, at: Arrivals)
    requires RowsOk(orders) && QueryResult(orders, q) && Numbered(q, at)
    requires forall id :: id in orders && id !in at ==> orders[id].status.New?
    ensures Linked(On(orders, sym), Restored(sym, q), at)
  {
    forall r | r in q ensures Resting(r) && RowOk(r.id, r) {
      assert RowOk(r.id, orders[r.id]);
    }
    forall side: Side ensures SideLinked(On(orders, sym), side, Restored(sym, q).On(side), at)
                      ensures Queued(side, Restored(sym, q).On(side), at)
    {
      RestoredMembers(orders, sym, q, side);
      RestoredRanked(sym, q, side, at);
    }
    assert Restored(sym, q).On(Buy) == Restored(sym, q).bids && Restored(sym, q).On(Sell) == Restored(sym, q).asks;
  }
}
