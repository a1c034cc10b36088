/** TX1 and the other account transactions, statement by statement. */
module OrderService {
  import opened Types
  import opened Money
  import opened Sorting
  import opened Settlement
  import opened Repository
  import opened Placement
  import A = Accounts
  import L = RowLocks
  import E = Estimate
  import S = Subscriber

  /** The first `n` elements are in order and no larger than any later one. */
  ghost predicate SettledPrefix(s: seq<nat>, n: nat) {
    forall k, l | 0 <= k < n && k < l < |s| :: s[k] <= s[l]
  }

  /** The in-place exchange sort BatchLockFunds uses for users and for currencies. */
  method ExchangeSort(a: array<nat>)
    modifies a
    ensures multiset(a[..]) == multiset(old(a[..]))
    ensures forall i, j | 0 <= i < j < a.Length :: a[i] <= a[j]
  {
    for i := 0 to a.Length
      invariant multiset(a[..]) == multiset(old(a[..]))
      invariant SettledPrefix(a[..], i)
    {
      ExchangeFrom(a, i);
    }
  }

  /** The inner loop: afterwards position `i` holds the smallest remaining element. */
  method ExchangeFrom(a: array<nat>, i: nat)
    requires i < a.Length && SettledPrefix(a[..], i)
    modifies a
    ensures multiset(a[..]) == multiset(old(a[..]))
    ensures SettledPrefix(a[..], i + 1)
  {
    for j := i + 1 to a.Length
      invariant multiset(a[..]) == multiset(old(a[..]))
      invariant SettledPrefix(a[..], i) && LeastUpTo(a[..], i, j)
    {
      if a[i] > a[j] {
        ExchangeSettled(a[..], i, j);
        Exchange(a, i, j);
      }
    }
    SettledOneMore(a[..], i);
  }

  /** Of the elements from `i` to before `j` the first is the smallest. */
  ghost predicate LeastUpTo(s: seq<nat>, i: nat, j: nat) {
    i < j <= |s| && forall l | i <= l < j :: s[i] <= s[l]
  }

  lemma {:induction false} ExchangeSettled(s: seq<nat>, i: nat, j: nat)
    requires j < |s| && SettledPrefix(s, i) && LeastUpTo(s, i, j) && s[i] > s[j]
    ensures SettledPrefix(s[i := s[j]][j := s[i]], i) && LeastUpTo(s[i := s[j]][j := s[i]], i, j + 1)
  {
  }

  lemma {:induction false} SettledOneMore(s: seq<nat>, i: nat)
    requires SettledPrefix(s, i) && LeastUpTo(s, i, |s|)
    ensures SettledPrefix(s, i + 1)
  {
  }

  method Exchange(a: array<nat>, i: nat, j: nat)
    requires i < j < a.Length
    modifies a
    ensures a[..] == old(a[..])[i := old(a[j])][j := old(a[i])]
    ensures multiset(a[..]) == multiset(old(a[..]))
  {
    a[i], a[j] := a[j], a[i];
  }

  /** The keys of a map, exchange-sorted. */
  method SortedKeys(keys: set<nat>) returns (r: seq<nat>)
    ensures Increasing(r, (a: nat, b: nat) => a < b)
    ensures forall x :: x in r <==> x in keys
  {
    var listed: seq<nat> := [];
    var todo := keys;
    while todo != {}
      invariant todo <= keys
      invariant forall x :: x in listed <==> x in keys - todo
      invariant forall i, j | 0 <= i < j < |listed| :: listed[i] != listed[j]
      decreases |todo|
    {
      var x :| x in todo;
      listed := listed + [x];
      todo := todo - {x};
    }
    var a := new nat[|listed|](i requires 0 <= i < |listed| => listed[i]);
    assert a[..] == listed;
    ExchangeSort(a);
    r := a[..];
    SamePermutation(listed, r);
  }

  lemma {:induction false} SamePermutation(s: seq<nat>, r: seq<nat>)
    requires multiset(s) == multiset(r)
    requires forall i, j | 0 <= i < j < |s| :: s[i] != s[j]
    requires forall i, j | 0 <= i < j < |r| :: r[i] <= r[j]
    ensures Increasing(r, (a: nat, b: nat) => a < b)
    ensures forall x :: x in r <==> x in s
  {
    assert forall x :: x in r <==> x in multiset(r);
    assert forall x :: x in s <==> x in multiset(s);
    forall i, j | 0 <= i < j < |r| ensures r[i] < r[j] {
      if r[i] == r[j] {
        TwiceCount(r, i, j);
        DistinctCount(s, r[i]);
      }
    }
  }

  lemma {:induction false} TwiceCount(s: seq<nat>, i: nat, j: nat)
    requires i < j < |s| && s[i] == s[j]
    ensures multiset(s)[s[i]] >= 2
  {
    assert s == s[..j] + s[j..];
    assert s[i] in s[..j] && s[j] in s[j..];
    assert s[i] in multiset(s[..j]) && s[i] in multiset(s[j..]);
  }

  lemma {:induction false} DistinctCount(s: seq<nat>, x: nat)
    requires forall i, j | 0 <= i < j < |s| :: s[i] != s[j]
    ensures multiset(s)[x] <= 1
  {
    if s != [] {
      DistinctCount(s[1..], x);
      assert s == [s[0]] + s[1..];
      if s[0] == x {
        assert x !in s[1..];
      }
    }
  }

  class Service {
    const repo: PostgresRepository

    constructor (repo: PostgresRepository)
      ensures this.repo == repo
    {
      this.repo := repo;
    }

    /** Currency and amount to lock for an order. */
    method CalculateLockAmount(r: Request, snaps: Snapshots) returns (lock: Option<A.Update>)
      ensures lock == LockFor(r, snaps)
    {
      if !IsPair(r.symbol) {
        return None;
      }
      if r.side.Buy? {
        if r.otype.Limit? {
          return Some(A.Update(Key(r.user, Quote(r.symbol)), Worth(r.price, r.qty), 0.0));
        }
        if r.symbol !in snaps || |snaps[r.symbol]| == 0 {
          return None;
        }
        var estimated := E.EstimateFromLevels(snaps[r.symbol], r.qty);
        if estimated.None? {
          return None;
        }
        return Some(A.Update(Key(r.user, Quote(r.symbol)), estimated.value * E.LOCK_MARGIN, 0.0));
      }
      return Some(A.Update(Key(r.user, Base(r.symbol)), r.qty, 0.0));
    }

    /** TX1 for one order; its message is written in the same transaction. */
    method PlaceOrder(request: Request, id: OrderId, now: int, snaps: Snapshots) returns (ok: bool)
      requires repo.Valid()
      modifies repo`orders, repo`trades, repo`accounts, repo`fence, repo`locks, repo`outbox
      ensures repo.Valid()
      ensures var p := Place(old(repo.View()), request, id, now, snaps);
              ok == p.Some? && repo.View() == if ok then p.value else old(repo.View())
      ensures ok ==> id in repo.orders
      ensures repo.outbox == old(repo.outbox) + if ok then [OrderPlaced(repo.orders[id])] else []
      ensures L.Ascending(repo.locks) || repo.locks == old(repo.locks)
    {
      var r := request.(price := Round8(request.price), qty := Round8(request.qty));
      if r.qty <= 0.0 || (r.otype.Limit? && r.price <= 0.0) {
        return false;
      }
      var lock := CalculateLockAmount(r, snaps);
      if lock.None? {
        return false;
      }
      var saved := repo.BeginTx();
      ok := repo.LockFunds(lock.value.key, lock.value.amount);
      if ok {
        ok := repo.CreateOrder(NewRow(r, id, now, lock.value.amount));
      }
      if !ok || r.symbol !in ALLOWED_SYMBOLS {
        repo.Rollback(saved);
        return false;
      }
      repo.InsertOutbox([OrderPlaced(NewRow(r, id, now, lock.value.amount))]);
    }

    /** Lock the collected sums account by account, in sorted order; stops at the first failure. */
    method BatchLockFunds(lockedFunds: map<UserId, map<Currency, real>>) returns (ok: bool)
      requires repo.Valid() && repo.locks == []
      modifies repo`accounts, repo`locks
      ensures repo.Valid() && L.Ascending(repo.locks)
      ensures ok <==> forall k :: Wanted(lockedFunds, k) ==> CanBear(old(repo.accounts), lockedFunds, k)
      ensures ok ==> repo.accounts == LockedOn(old(repo.accounts), lockedFunds, iset k | Wanted(lockedFunds, k))
    {
      var users := SortedKeys(lockedFunds.Keys);
      ghost var done: iset<Key> := iset{};
      for i := 0 to |users|
        invariant repo.Valid() && L.Ascending(repo.locks)
        invariant done == iset k | Wanted(lockedFunds, k) && k.user in users[..i]
        invariant forall k :: k in done ==> CanBear(old(repo.accounts), lockedFunds, k)
        invariant repo.accounts == LockedOn(old(repo.accounts), lockedFunds, done)
        invariant forall x :: x in repo.locks ==> x.AccountRow? && x.key in done
      {
        var user := users[i];
        assert user in users && users[..i + 1] == users[..i] + [user];
        forall k | k in done ensures k.user < user {
          var j :| 0 <= j < i && users[j] == k.user;
          assert ((a: nat, b: nat) => a < b)(users[j], users[i]);
        }
        ok, done := LockUser(user, lockedFunds, done, old(repo.accounts));
        if !ok {
          return;
        }
      }
      assert users[..|users|] == users;
      assert done == iset k | Wanted(lockedFunds, k);
      ok := true;
    }

    /** TX1 for a batch of orders. */
    method BatchPlaceOrders(rs: seq<Request>, ids: seq<OrderId>, now: int, snaps: Snapshots) returns (ok: bool)
      requires repo.Valid() && |rs| == |ids|
      modifies repo`orders, repo`trades, repo`accounts, repo`fence, repo`locks, repo`outbox
      ensures repo.Valid()
      ensures var b := Batch(old(repo.View()), rs, ids, now, snaps);
              ok == b.Some? && repo.View() == if ok then b.value else old(repo.View())
      ensures ok ==> forall id :: id in ids ==> id in repo.orders
      ensures repo.outbox == old(repo.outbox) + if ok then Announced(repo.orders, ids) else []
      ensures L.Ascending(repo.locks) || repo.locks == old(repo.locks)
    {
      PreparedLength(rs, snaps);
      ghost var before := repo.View();
      if |rs| == 0 {
        assert LockAll(before.accounts, []) == before.accounts;
        return true;
      }
      var prepared, locks, lockedFunds := CollectLocks(rs, snaps);
      if !prepared {
        return false;
      }
      var saved := repo.BeginTx();
      CollectedLocks(repo.accounts, locks, lockedFunds);
      ok := BatchLockFunds(lockedFunds);
      if ok {
        ok := BatchCreateOrders(rs, ids, now, locks);
      }
      if !ok {
        repo.Rollback(saved);
        return;
      }
      var messages := BatchMessages(rs, ids, now, locks, saved.orders);
      repo.InsertOutbox(messages);
    }

    /** The messages of a batch, in the order of its requests. */
    method BatchMessages(rs: seq<Request>, ids: seq<OrderId>, now: int, locks: seq<A.Update>, ghost orders: Orders)
      returns (messages: seq<OrderMessage>)
      requires |rs| == |ids| == |locks| && FreshIds(orders, ids)
      ensures var rows := NewRows(orders, rs, ids, now, locks);
              (forall id :: id in ids ==> id in rows) && messages == Announced(rows, ids)
    {
      messages := [];
      for i := 0 to |rs|
        invariant |messages| == i
        invariant forall k | 0 <= k < i ::
                    messages[k] == OrderPlaced(NewRow(Normalize(rs[k]), ids[k], now, locks[k].amount))
      {
        var r := rs[i].(price := Round8(rs[i].price), qty := Round8(rs[i].qty));
        messages := messages + [OrderPlaced(NewRow(r, ids[i], now, locks[i].amount))];
      }
      forall k | 0 <= k < |ids|
        ensures ids[k] in NewRows(orders, rs, ids, now, locks)
        ensures messages[k] == OrderPlaced(NewRows(orders, rs, ids, now, locks)[ids[k]])
      {
        NewRowsAt(orders, rs, ids, now, locks, k);
      }
    }

    /** Ask for a cancel: nothing changes yet, the engine decides; None when the request is refused. */
    method CancelOrder(orderId: OrderId, userId: UserId) returns (request: Option<OrderMessage>)
      requires repo.Valid()
      modifies repo`locks, repo`outbox
      ensures repo.View() == old(repo.View())
      ensures request.Some? <==>
                orderId in repo.orders && repo.orders[orderId].user == userId && !repo.orders[orderId].Closed()
      ensures request.Some? ==>
                var r := repo.orders[orderId]; request.value == CancelRequested(r.symbol, orderId, r.side, r.user)
      ensures repo.outbox == old(repo.outbox) + if request.Some? then [request.value] else []
      ensures L.Ascending(repo.locks) || repo.locks == old(repo.locks)
    {
      if orderId !in repo.orders || repo.orders[orderId].user != userId {
        return None;
      }
      var status := repo.orders[orderId].status;
      if status.Filled? || status.Canceled? {
        return None;
      }
      var saved := repo.BeginTx();
      var order := repo.GetOrderForUpdate(orderId);
      if order.None? || order.value.status.Filled? || order.value.status.Canceled? {
        return None;
      }
      request := Some(CancelRequested(order.value.symbol, orderId, order.value.side, order.value.user));
      repo.InsertOutbox([request.value]);
    }

    /** Check the orders and sum what they lock per user and currency. */
    method CollectLocks(rs: seq<Request>, snaps: Snapshots)
      returns (ok: bool, locks: seq<A.Update>, lockedFunds: map<UserId, map<Currency, real>>)
      ensures ok == PrepareAll(rs, snaps).Some?
      ensures ok ==> locks == PrepareAll(rs, snaps).value && SumsUp(lockedFunds, locks)
    {
      locks, lockedFunds := [], map[];
      assert rs[0..] == rs && PrepareAll(rs, snaps) == Behind([], PrepareAll(rs, snaps)) by {
        assert PrepareAll(rs, snaps).Some? ==> [] + PrepareAll(rs, snaps).value == PrepareAll(rs, snaps).value;
      }
      for i := 0 to |rs|
        invariant PrepareAll(rs, snaps) == Behind(locks, PrepareAll(rs[i..], snaps))
        invariant SumsUp(lockedFunds, locks)
      {
        assert rs[i..][0] == rs[i] && rs[i..][1..] == rs[i + 1..];
        var r := rs[i].(price := Round8(rs[i].price), qty := Round8(rs[i].qty));
        if r.qty <= 0.0 || (r.otype.Limit? && r.price <= 0.0) {
          return false, locks, lockedFunds;
        }
        var lock := CalculateLockAmount(r, snaps);
        if lock.None? {
          return false, locks, lockedFunds;
        }
        var k, amount := lock.value.key, lock.value.amount;
        ghost var had := lockedFunds;
        var mine: map<Currency, real> := if k.user in lockedFunds then lockedFunds[k.user] else map[];
        var sum := if k.currency in mine then mine[k.currency] else 0.0;
        mine := mine[k.currency := sum + amount];
        lockedFunds := lockedFunds[k.user := mine];
        SumOneMore(had, locks, lock.value, lockedFunds);
        BehindTwice(locks, [lock.value], PrepareAll(rs[i + 1..], snaps));
        locks := locks + [lock.value];
      }
      ok := true;
    }

    method BatchCreateOrders(rs: seq<Request>, ids: seq<OrderId>, now: int, locks: seq<A.Update>) returns (ok: bool)
      requires repo.Valid() && |rs| == |ids| == |locks|
      modifies repo`orders
      ensures repo.Valid() && ok == FreshIds(old(repo.orders), ids)
      ensures ok ==> repo.orders == NewRows(old(repo.orders), rs, ids, now, locks)
    {
      for i := 0 to |rs|
        invariant repo.Valid()
        invariant FreshIds(old(repo.orders), ids) == FreshIds(repo.orders, ids[i..])
        invariant NewRows(old(repo.orders), rs, ids, now, locks) ==
                  NewRows(repo.orders, rs[i..], ids[i..], now, locks[i..])
      {
        assert rs[i..][1..] == rs[i + 1..] && ids[i..][1..] == ids[i + 1..] && locks[i..][1..] == locks[i + 1..];
        var row := NewRow(rs[i].(price := Round8(rs[i].price), qty := Round8(rs[i].qty)), ids[i], now, locks[i].amount);
        FreshHead(repo.orders, ids[i..], row);
        var created := repo.CreateOrder(row);
        if !created {
          return false;
        }
      }
      ok := true;
    }

    /** The accounts of one user, by currency. */
    method LockUser(user: UserId, lf: map<UserId, map<Currency, real>>, ghost done: iset<Key>, ghost start: A.Table)
      returns (ok: bool, ghost now: iset<Key>)
      requires repo.Valid() && user in lf && forall k :: k in done ==> k.user < user
      requires repo.accounts == LockedOn(start, lf, done)
      requires forall x :: x in repo.locks ==> x.AccountRow? && x.key in done
      requires L.Ascending(repo.locks)
      modifies repo`accounts, repo`locks
      ensures repo.Valid() && L.Ascending(repo.locks)
      ensures ok ==> now == done + (iset k | Wanted(lf, k) && k.user == user)
      ensures ok ==> forall k :: Wanted(lf, k) && k.user == user ==> CanBear(start, lf, k)
      ensures ok ==> repo.accounts == LockedOn(start, lf, now)
      ensures ok ==> forall x :: x in repo.locks ==> x.AccountRow? && x.key in now
      ensures !ok ==> exists k :: Wanted(lf, k) && !CanBear(start, lf, k)
    {
      var currencies := SortedKeys(lf[user].Keys);
      now := done;
      for i := 0 to |currencies|
        invariant repo.Valid() && L.Ascending(repo.locks)
        invariant forall k :: k in now <==> k in done || (k.user == user && k.currency in currencies[..i])
        invariant forall k :: k in now && k.user == user ==> CanBear(start, lf, k)
        invariant repo.accounts == LockedOn(start, lf, now)
        invariant forall x :: x in repo.locks ==> x.AccountRow? && x.key in now
      {
        var k := Key(user, currencies[i]);
        assert currencies[i] in currencies && currencies[..i + 1] == currencies[..i] + [currencies[i]];
        forall x | x in now ensures KeyLess(x, k) {
          if x.user == user {
            var j :| 0 <= j < i && currencies[j] == x.currency;
            assert ((a: nat, b: nat) => a < b)(currencies[j], currencies[i]);
          }
        }
        ok := LockAccount(k, lf, now, start);
        if !ok {
          return;
        }
        now := now + iset{k};
      }
      assert currencies[..|currencies|] == currencies;
      ok := true;
    }

    /** One account, behind all those locked before. */
    method LockAccount(k: Key, lf: map<UserId, map<Currency, real>>, ghost done: iset<Key>, ghost start: A.Table)
      returns (ok: bool)
      requires repo.Valid() && Wanted(lf, k) && forall x :: x in done ==> KeyLess(x, k)
      requires repo.accounts == LockedOn(start, lf, done)
      requires forall x :: x in repo.locks ==> x.AccountRow? && x.key in done
      requires L.Ascending(repo.locks)
      modifies repo`accounts, repo`locks
      ensures repo.Valid() && L.Ascending(repo.locks) && ok == CanBear(start, lf, k)
      ensures ok ==> repo.accounts == LockedOn(start, lf, done + iset{k})
      ensures forall x :: x in repo.locks ==> x.AccountRow? && x.key in done + iset{k}
    {
      S.AcquireAscending(repo.locks, L.AccountRow(k));
      LockedMore(start, lf, done, k);
      ok := repo.LockFunds(k, lf[k.user][k.currency]);
    }
  }

  /** One message per order, in the order of the ids, with the terms of the row. */
  ghost function Announced(orders: Orders, ids: seq<OrderId>): seq<OrderMessage>
    requires forall id :: id in ids ==> id in orders
  {
    seq(|ids|, i requires 0 <= i < |ids| => OrderPlaced(orders[ids[i]]))
  }

  ghost predicate Wanted(lf: map<UserId, map<Currency, real>>, k: Key) {
    k.user in lf && k.currency in lf[k.user]
  }

  ghost predicate CanBear(t: A.Table, lf: map<UserId, map<Currency, real>>, k: Key)
    requires Wanted(lf, k)
  {
    Lockable(t, A.Update(k, lf[k.user][k.currency], 0.0))
  }

  /** The table with the collected sums locked on the accounts in `on`. */
  ghost function LockedOn(t: A.Table, lf: map<UserId, map<Currency, real>>, on: iset<Key>): A.Table {
    map k | k in t :: if k in on && Wanted(lf, k) then A.Lock(t[k], lf[k.user][k.currency]) else t[k]
  }

  lemma {:induction false} LockedMore(t: A.Table, lf: map<UserId, map<Currency, real>>, on: iset<Key>, k: Key)
    requires Wanted(lf, k) && k !in on
    ensures CanBear(t, lf, k) <==> Lockable(LockedOn(t, lf, on), A.Update(k, lf[k.user][k.currency], 0.0))
    ensures k in t ==> LockedOn(t, lf, on + iset{k}) ==
                       LockedOn(t, lf, on)[k := A.Lock(LockedOn(t, lf, on)[k], lf[k.user][k.currency])]
  {
  }

  /** The collected map holds exactly the sums per key. */
  ghost predicate SumsUp(lf: map<UserId, map<Currency, real>>, us: seq<A.Update>) {
    forall k :: (Wanted(lf, k) <==> exists u :: u in us && u.key == k)
                && (Wanted(lf, k) ==> lf[k.user][k.currency] == A.AmountOf(us, k))
  }

  lemma {:induction false} SumOneMore(lf: map<UserId, map<Currency, real>>, us: seq<A.Update>, u: A.Update,
                                      more: map<UserId, map<Currency, real>>)
    requires SumsUp(lf, us)
    requires forall k :: Wanted(more, k) <==> Wanted(lf, k) || k == u.key
    requires Wanted(more, u.key)
    requires forall k :: Wanted(lf, k) && k != u.key ==>
               Wanted(more, k) && more[k.user][k.currency] == lf[k.user][k.currency]
    requires more[u.key.user][u.key.currency] ==
             (if Wanted(lf, u.key) then lf[u.key.user][u.key.currency] else 0.0) + u.amount
    ensures SumsUp(more, us + [u])
  {
    forall k ensures (Wanted(more, k) <==> exists v :: v in us + [u] && v.key == k)
             ensures Wanted(more, k) ==> more[k.user][k.currency] == A.AmountOf(us + [u], k)
    {
      A.SumsConcat(us, [u], k);
      assert u in us + [u];
      if !Wanted(lf, k) {
        A.SumsAbsent(us, k);
      } else {
        var v :| v in us && v.key == k;
        assert v in us + [u];
      }
    }
  }

  /** Locking the collected sums is the batch rule. */
  lemma {:induction false} CollectedLocks(t: A.Table, us: seq<A.Update>, lf: map<UserId, map<Currency, real>>)
    requires SumsUp(lf, us)
    ensures AllLockable(t, us) <==> forall k :: Wanted(lf, k) ==> CanBear(t, lf, k)
    ensures LockedOn(t, lf, iset k | Wanted(lf, k)) == LockAll(t, us)
  {
    forall k | k in t && !Wanted(lf, k) ensures A.AmountOf(us, k) == 0.0 {
      A.SumsAbsent(us, k);
    }
    if AllLockable(t, us) {
      forall k | Wanted(lf, k) ensures CanBear(t, lf, k) {
        var u :| u in us && u.key == k;
        assert Lockable(t, A.Update(u.key, A.AmountOf(us, u.key), 0.0));
      }
    }
    if forall k :: Wanted(lf, k) ==> CanBear(t, lf, k) {
      forall u | u in us ensures Lockable(t, A.Update(u.key, A.AmountOf(us, u.key), 0.0)) {
        assert CanBear(t, lf, u.key);
      }
    }
  }

  ghost function Behind(us: seq<A.Update>, rest: Option<seq<A.Update>>): Option<seq<A.Update>> {
    if rest.Some? then Some(us + rest.value) else None
  }

  lemma {:induction false} BehindTwice(a: seq<A.Update>, b: seq<A.Update>, rest: Option<seq<A.Update>>)
    ensures Behind(a, Behind(b, rest)) == Behind(a + b, rest)
  {
    if rest.Some? {
      assert a + (b + rest.value) == a + b + rest.value;
    }
  }
}
