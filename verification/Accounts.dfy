/**
 The accounts table: guarded updates, the CHECK constraints, and aggregated account movements.
 */
module Accounts {
  import opened Types
  import opened Sorting

  datatype Account = Account(balance: real, locked: real)

  type Table = map<Key, Account>

  /** CHECK (balance >= 0) and CHECK (locked >= 0). */
  predicate Checked(a: Account) {
    a.balance >= 0.0 && a.locked >= 0.0
  }

  ghost predicate ValidTable(t: Table) {
    forall k :: k in t ==> Checked(t[k])
  }

  // Single statements. An UPDATE whose WHERE matches no row changes nothing.

  predicate CanLock(t: Table, k: Key, amount: real) {
    k in t && t[k].balance >= amount
  }

  function Lock(a: Account, amount: real): Account {
    Account(a.balance - amount, a.locked + amount)
  }

  function Unlock(a: Account, amount: real): Account {
    if a.locked >= amount then Account(a.balance + amount, a.locked - amount) else a
  }

  function Credit(a: Account, amount: real): Account {
    a.(balance := a.balance + amount)
  }

  /** One account movement: release `unlock` from locked funds, then add `amount` to the balance. */
  datatype Update = Update(key: Key, amount: real, unlock: real)

  /** The two statements a movement issues, each only when it has something to do. */
  function Released(a: Account, u: Update): Account {
    if u.unlock > 0.0 then Unlock(a, u.unlock) else a
  }

  function Moved(a: Account, u: Update): Account {
    if u.amount != 0.0 then Credit(Released(a, u), u.amount) else Released(a, u)
  }

  function ApplyOne(t: Table, u: Update): Table {
    if u.key in t then t[u.key := Moved(t[u.key], u)] else t
  }

  function ApplyAll(t: Table, us: seq<Update>): Table
    decreases us
  {
    if us == [] then t else ApplyAll(ApplyOne(t, us[0]), us[1..])
  }

  /** Every statement of every movement meets the CHECK constraints; otherwise the transaction aborts. */
  predicate PassesChecks(t: Table, us: seq<Update>)
    decreases us
  {
    us == [] ||
    ((us[0].key in t ==> Checked(Released(t[us[0].key], us[0])) && Checked(Moved(t[us[0].key], us[0])))
     && PassesChecks(ApplyOne(t, us[0]), us[1..]))
  }

  // Test funds

  /** Accounts a new user starts with; one that exists already is left alone. */
  function Register(t: Table, user: UserId): Table {
    map[Key(user, USD) := Account(1000000.0, 0.0), Key(user, BTC) := Account(100.0, 0.0),
        Key(user, ETH) := Account(1000.0, 0.0)]
    + t
  }

  function RechargeUpdates(user: UserId): seq<Update> {
    [Update(Key(user, BTC), 10000.0, 0.0), Update(Key(user, USD), 100000000.0, 0.0)]
  }

  function Recharge(t: Table, user: UserId): Table {
    ApplyAll(t, RechargeUpdates(user))
  }

  // Sums per key

  function AmountOf(us: seq<Update>, k: Key): real {
    if us == [] then 0.0 else (if us[0].key == k then us[0].amount else 0.0) + AmountOf(us[1..], k)
  }

  function UnlockOf(us: seq<Update>, k: Key): real {
    if us == [] then 0.0 else (if us[0].key == k then us[0].unlock else 0.0) + UnlockOf(us[1..], k)
  }

  lemma {:induction false} SumsConcat(us: seq<Update>, vs: seq<Update>, k: Key)
    ensures AmountOf(us + vs, k) == AmountOf(us, k) + AmountOf(vs, k)
    ensures UnlockOf(us + vs, k) == UnlockOf(us, k) + UnlockOf(vs, k)
  {
    if us == [] {
      assert us + vs == vs;
    } else {
      assert (us + vs)[1..] == us[1..] + vs;
      SumsConcat(us[1..], vs, k);
    }
  }

  lemma {:induction false} SumsAbsent(us: seq<Update>, k: Key)
    requires forall u :: u in us ==> u.key != k
    ensures AmountOf(us, k) == 0.0 && UnlockOf(us, k) == 0.0
  {
    if us != [] {
      SumsAbsent(us[1..], k);
    }
  }

  lemma {:induction false} UnlockNonNegative(us: seq<Update>, k: Key)
    requires forall u :: u in us ==> u.unlock >= 0.0
    ensures UnlockOf(us, k) >= 0.0
  {
    if us != [] {
      UnlockNonNegative(us[1..], k);
    }
  }

  // Aggregation

  function KeyAhead(): (Update, Update) -> bool {
    (a: Update, b: Update) => KeyLess(a.key, b.key)
  }

  /** One entry per key that has a net effect, in strictly increasing key order. */
  ghost predicate IsAggregate(r: seq<Update>, us: seq<Update>) {
    && Increasing(r, KeyAhead())
    && (forall u :: u in r ==> u.amount == AmountOf(us, u.key) && u.unlock == UnlockOf(us, u.key))
    && (forall u :: u in r ==> u.amount != 0.0 || u.unlock != 0.0)
    && (forall k :: (forall u :: u in r ==> u.key != k) ==> AmountOf(us, k) == 0.0 && UnlockOf(us, k) == 0.0)
  }

  /** The aggregate is determined by its input: no trace of the map's iteration order is left. */
  lemma {:induction false} AggregateUnique(r: seq<Update>, s: seq<Update>, us: seq<Update>)
    requires IsAggregate(r, us) && IsAggregate(s, us)
    ensures r == s
  {
    AggregateWithin(r, s, us);
    AggregateWithin(s, r, us);
    IncreasingUnique(r, s, KeyAhead());
  }

  lemma {:induction false} AggregateWithin(r: seq<Update>, s: seq<Update>, us: seq<Update>)
    requires IsAggregate(r, us) && IsAggregate(s, us)
    ensures forall u :: u in r ==> u in s
  {
    forall u | u in r ensures u in s {
      assert exists v :: v in s && v.key == u.key;
      var v :| v in s && v.key == u.key;
      assert u == v;
    }
  }

  /** Aggregation preserves the sums per key. */
  lemma {:induction false} AggregateSums(r: seq<Update>, us: seq<Update>, k: Key)
    requires IsAggregate(r, us)
    ensures AmountOf(r, k) == AmountOf(us, k) && UnlockOf(r, k) == UnlockOf(us, k)
  {
    if i :| 0 <= i < |r| && r[i].key == k {
      SingleKey(r, i);
    } else {
      SumsAbsent(r, k);
    }
  }

  lemma {:induction false} KeysApart(r: seq<Update>)
    requires r != [] && Increasing(r, KeyAhead())
    ensures Increasing(r[1..], KeyAhead())
    ensures forall u :: u in r[1..] ==> u.key != r[0].key
  {
    forall i, j | 0 <= i < j < |r[1..]| ensures KeyAhead()(r[1..][i], r[1..][j]) {
      assert KeyAhead()(r[i + 1], r[j + 1]);
    }
    forall u | u in r[1..] ensures u.key != r[0].key {
      var j :| 0 <= j < |r[1..]| && r[1..][j] == u;
      assert KeyAhead()(r[0], r[j + 1]);
    }
  }

  lemma {:induction false} SingleKey(r: seq<Update>, i: nat)
    requires i < |r| && Increasing(r, KeyAhead())
    ensures AmountOf(r, r[i].key) == r[i].amount && UnlockOf(r, r[i].key) == r[i].unlock
  {
    if i == 0 {
      KeysApart(r);
      SumsAbsent(r[1..], r[0].key);
    } else {
      assert KeyAhead()(r[0], r[i]);
      KeysApart(r);
      SingleKey(r[1..], i - 1);
    }
  }

  // Effect on the table

  /** What one account becomes when its movements are netted first. */
  function Net(a: Account, unlock: real, amount: real): Account {
    Credit(if unlock > 0.0 then Unlock(a, unlock) else a, amount)
  }

  /** Applying a list of movements with distinct keys changes each account by its own net movement. */
  lemma {:induction false} DistinctEffect(t: Table, r: seq<Update>, k: Key)
    requires Increasing(r, KeyAhead()) && k in t
    ensures ApplyAll(t, r).Keys == t.Keys
    ensures ApplyAll(t, r)[k] == Net(t[k], UnlockOf(r, k), AmountOf(r, k))
    decreases r
  {
    if r != [] {
      KeysApart(r);
      DistinctEffect(ApplyOne(t, r[0]), r[1..], k);
      if r[0].key == k {
        SingleKey(r, 0);
        SumsAbsent(r[1..], k);
      }
    }
  }

  lemma {:induction false} ApplyKeys(t: Table, us: seq<Update>)
    ensures ApplyAll(t, us).Keys == t.Keys
    decreases us
  {
    if us != [] {
      ApplyKeys(ApplyOne(t, us[0]), us[1..]);
    }
  }

  /** The netted effect of a settlement on every account. */
  lemma {:induction false} AggregateEffect(t: Table, r: seq<Update>, us: seq<Update>)
    requires IsAggregate(r, us)
    ensures ApplyAll(t, r).Keys == t.Keys
    ensures forall k :: k in t ==> ApplyAll(t, r)[k] == Net(t[k], UnlockOf(us, k), AmountOf(us, k))
  {
    ApplyKeys(t, r);
    forall k | k in t ensures ApplyAll(t, r)[k] == Net(t[k], UnlockOf(us, k), AmountOf(us, k)) {
      DistinctEffect(t, r, k);
      AggregateSums(r, us, k);
    }
  }

  /** A valid table passes all checks exactly when no netted balance is negative. */
  lemma {:induction false} ChecksIff(t: Table, r: seq<Update>)
    requires Increasing(r, KeyAhead()) && ValidTable(t)
    ensures PassesChecks(t, r) <==> forall k :: k in t ==> Net(t[k], UnlockOf(r, k), AmountOf(r, k)).balance >= 0.0
    decreases r
  {
    if r == [] {
      assert forall k :: UnlockOf(r, k) == 0.0 && AmountOf(r, k) == 0.0;
    } else {
      var u, rest := r[0], r[1..];
      var next := ApplyOne(t, u);
      KeysApart(r);
      SingleKey(r, 0);
      SumsAbsent(rest, u.key);
      assert forall k :: k != u.key ==> UnlockOf(r, k) == UnlockOf(rest, k) && AmountOf(r, k) == AmountOf(rest, k);
      if u.key in t {
        assert Checked(Released(t[u.key], u));
        assert Moved(t[u.key], u) == Net(t[u.key], u.unlock, u.amount);
        if Checked(Moved(t[u.key], u)) {
          ChecksIff(next, rest);
          assert forall k :: k in t && k != u.key ==> next[k] == t[k];
        }
      } else {
        ChecksIff(next, rest);
      }
    }
  }

  /** With every unlock covered, netting first and applying one movement at a time agree. */
  lemma {:induction false} RawEffect(t: Table, us: seq<Update>, k: Key)
    requires k in t && UnlockOf(us, k) <= t[k].locked
    requires forall u :: u in us ==> u.unlock >= 0.0
    ensures k in ApplyAll(t, us)
    ensures ApplyAll(t, us)[k] ==
            Account(t[k].balance + UnlockOf(us, k) + AmountOf(us, k), t[k].locked - UnlockOf(us, k))
    decreases us
  {
    if us != [] {
      UnlockNonNegative(us[1..], k);
      assert us[0] in us;
      RawEffect(ApplyOne(t, us[0]), us[1..], k);
    }
  }

  lemma {:induction false} NetIsRaw(t: Table, us: seq<Update>, k: Key)
    requires k in t && UnlockOf(us, k) <= t[k].locked
    requires forall u :: u in us ==> u.unlock >= 0.0
    ensures k in ApplyAll(t, us) && ApplyAll(t, us)[k] == Net(t[k], UnlockOf(us, k), AmountOf(us, k))
  {
    RawEffect(t, us, k);
    UnlockNonNegative(us, k);
  }

  lemma {:induction false} AggregateRefinesRawAt(t: Table, r: seq<Update>, us: seq<Update>, k: Key)
    requires IsAggregate(r, us) && k in t
    requires forall u :: u in us ==> u.unlock >= 0.0
    requires UnlockOf(us, k) <= t[k].locked
    ensures k in ApplyAll(t, r) && k in ApplyAll(t, us) && ApplyAll(t, r)[k] == ApplyAll(t, us)[k]
  {
    AggregateEffect(t, r, us);
    NetIsRaw(t, us, k);
  }

  /** Applying the aggregate gives the balances of applying the raw movements one at a time. */
  lemma {:induction false} AggregateRefinesRaw(t: Table, r: seq<Update>, us: seq<Update>)
    requires IsAggregate(r, us)
    requires forall u :: u in us ==> u.unlock >= 0.0
    requires forall k :: k in t ==> UnlockOf(us, k) <= t[k].locked
    ensures ApplyAll(t, r) == ApplyAll(t, us)
  {
    ApplyKeys(t, r);
    ApplyKeys(t, us);
    forall k | k in t ensures ApplyAll(t, r)[k] == ApplyAll(t, us)[k] {
      AggregateRefinesRawAt(t, r, us, k);
    }
  }
}
