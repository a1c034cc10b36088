/** aggregateAndSortAccountUpdates and the key sorts, as loops over maps and slices. */
module Aggregation {
  import opened Types
  import opened Sorting
  import opened Accounts

  ghost predicate StrictTotalOrder<T(!new)>(less: (T, T) -> bool) {
    && (forall a, b :: less(a, b) ==> !less(b, a))
    && (forall a, b, c :: less(a, b) && less(b, c) ==> less(a, c))
    && (forall a, b :: a != b ==> less(a, b) || less(b, a))
  }

  /** Insert one key into an already sorted list of other keys. */
  method InsertSortedKey<T(!new)>(s: seq<T>, x: T, less: (T, T) -> bool) returns (r: seq<T>)
    requires StrictTotalOrder(less) && Increasing(s, less) && x !in s
    ensures Increasing(r, less)
    ensures forall y :: y in r <==> y in s || y == x
  {
    var i := 0;
    while i < |s| && less(s[i], x)
      invariant i <= |s|
      invariant forall k | 0 <= k < i :: less(s[k], x)
    {
      i := i + 1;
    }
    r := s[..i] + [x] + s[i..];
    assert forall k | i <= k < |s| :: less(x, s[k]);
  }

  /** Sort the keys of a set, whichever order they come out in. */
  method SortKeys<T(!new, ==)>(keys: set<T>, less: (T, T) -> bool) returns (r: seq<T>)
    requires StrictTotalOrder(less)
    ensures Increasing(r, less)
    ensures forall x :: x in r <==> x in keys
  {
    r := [];
    var todo := keys;
    while todo != {}
      invariant todo <= keys && Increasing(r, less)
      invariant forall x :: x in r <==> x in keys - todo
      decreases |todo|
    {
      var x :| x in todo;
      r := InsertSortedKey(r, x, less);
      todo := todo - {x};
    }
  }

  /** Sum the movements of each key, drop the empty ones, and sort by user and currency. */
  method AggregateAndSort(us: seq<Update>) returns (r: seq<Update>)
    ensures IsAggregate(r, us)
  {
    var agg: map<Key, Update> := map[];
    for i := 0 to |us|
      invariant forall k :: k in agg <==> exists j :: 0 <= j < i && us[j].key == k
      invariant forall k :: k in agg ==> agg[k] == Update(k, AmountOf(us[..i], k), UnlockOf(us[..i], k))
    {
      var u := us[i];
      assert us[..i + 1] == us[..i] + [u];
      forall k ensures AmountOf(us[..i + 1], k) == AmountOf(us[..i], k) + if u.key == k then u.amount else 0.0
               ensures UnlockOf(us[..i + 1], k) == UnlockOf(us[..i], k) + if u.key == k then u.unlock else 0.0
      {
        SumsConcat(us[..i], [u], k);
      }
      if u.key in agg {
        var e := agg[u.key];
        agg := agg[u.key := Update(u.key, e.amount + u.amount, e.unlock + u.unlock)];
      } else {
        SumsAbsent(us[..i], u.key);
        agg := agg[u.key := u];
      }
    }
    assert us[..|us|] == us;
    var keys := set k | k in agg && (agg[k].amount != 0.0 || agg[k].unlock != 0.0);
    var sorted := SortKeys(keys, KeyLess);
    r := [];
    for i := 0 to |sorted|
      invariant |r| == i && forall j | 0 <= j < i :: sorted[j] in agg && r[j] == agg[sorted[j]]
    {
      assert sorted[i] in sorted;
      r := r + [agg[sorted[i]]];
    }
    NonzeroKeysSuffice(r, sorted, agg, us);
  }

  /** The entries of the summed map with a net effect, in key order, are the aggregate. */
  lemma {:induction false} NonzeroKeysSuffice(r: seq<Update>, sorted: seq<Key>, agg: map<Key, Update>, us: seq<Update>)
    requires |r| == |sorted| && forall i | 0 <= i < |r| :: sorted[i] in agg && r[i] == agg[sorted[i]]
    requires Increasing(sorted, KeyLess)
    requires forall k :: k in sorted <==> k in agg && (agg[k].amount != 0.0 || agg[k].unlock != 0.0)
    requires forall k :: k in agg <==> exists j :: 0 <= j < |us| && us[j].key == k
    requires forall k :: k in agg ==> agg[k] == Update(k, AmountOf(us, k), UnlockOf(us, k))
    ensures IsAggregate(r, us)
  {
    forall i, j | 0 <= i < j < |r| ensures KeyAhead()(r[i], r[j]) {
      assert KeyLess(sorted[i], sorted[j]);
    }
    forall k | k in sorted ensures exists u :: u in r && u.key == k {
      var i :| 0 <= i < |sorted| && sorted[i] == k;
      assert r[i] in r;
    }
    forall k | forall u :: u in r ==> u.key != k ensures AmountOf(us, k) == 0.0 && UnlockOf(us, k) == 0.0 {
      if k !in agg {
        SumsAbsent(us, k);
      }
    }
  }
}
