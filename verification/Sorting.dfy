/** Sorting as the code uses it: a stable sort by a strict weak order, and sorted key lists without repeats. */
module Sorting {

  ghost predicate StrictWeakOrder<T(!new)>(less: (T, T) -> bool) {
    && (forall a, b :: less(a, b) ==> !less(b, a))
    && (forall a, b, c :: less(a, b) ==> less(a, c) || less(c, b))
  }

  ghost predicate Sorted<T>(s: seq<T>, less: (T, T) -> bool) {
    forall i, j | 0 <= i < j < |s| :: !less(s[j], s[i])
  }

  function Insert<T>(s: seq<T>, x: T, less: (T, T) -> bool): (r: seq<T>)
    ensures |r| == |s| + 1
  {
    if s == [] || less(x, s[0]) then [x] + s else [s[0]] + Insert(s[1..], x, less)
  }

  /** What a stable sort returns; StableSortUnique shows that nothing else does. */
  function StableSort<T>(s: seq<T>, less: (T, T) -> bool): (r: seq<T>)
    ensures |r| == |s|
  {
    if s == [] then [] else Insert(StableSort(s[..|s| - 1], less), s[|s| - 1], less)
  }

  /** The subsequence of the elements that compare equal to `x`. */
  ghost function Ties<T>(s: seq<T>, x: T, less: (T, T) -> bool): seq<T> {
    if s == [] then []
    else if !less(x, s[0]) && !less(s[0], x) then [s[0]] + Ties(s[1..], x, less)
    else Ties(s[1..], x, less)
  }

  lemma {:induction false} InsertElements<T>(s: seq<T>, x: T, less: (T, T) -> bool)
    ensures multiset(Insert(s, x, less)) == multiset(s) + multiset{x}
    ensures forall y :: y in Insert(s, x, less) <==> y in s || y == x
  {
    if s == [] || less(x, s[0]) {
    } else {
      InsertElements(s[1..], x, less);
      assert s == [s[0]] + s[1..];
    }
  }

  lemma {:induction false} InsertSorted<T(!new)>(s: seq<T>, x: T, less: (T, T) -> bool)
    requires StrictWeakOrder(less) && Sorted(s, less)
    ensures Sorted(Insert(s, x, less), less)
  {
    if s == [] || less(x, s[0]) {
    } else {
      InsertSorted(s[1..], x, less);
      InsertElements(s[1..], x, less);
      assert forall y :: y in Insert(s[1..], x, less) ==> !less(y, s[0]);
    }
  }

  lemma {:induction false} InsertTies<T(!new)>(s: seq<T>, x: T, y: T, less: (T, T) -> bool)
    requires StrictWeakOrder(less) && Sorted(s, less)
    ensures Ties(Insert(s, x, less), y, less) == Ties(s + [x], y, less)
  {
    if s == [] {
      assert s + [x] == [x];
    } else if less(x, s[0]) {
      assert ([x] + s)[1..] == s;
      TiesAppend(s, x, y, less);
      if !less(y, x) && !less(x, y) {
        TiesEmpty(s, y, less);
      }
    } else {
      InsertTies(s[1..], x, y, less);
      assert (s + [x])[1..] == s[1..] + [x];
    }
  }

  lemma {:induction false} TiesAppend<T>(s: seq<T>, x: T, y: T, less: (T, T) -> bool)
    ensures Ties(s + [x], y, less) == Ties(s, y, less) + if !less(y, x) && !less(x, y) then [x] else []
  {
    if s == [] {
      assert s + [x] == [x];
    } else {
      assert (s + [x])[1..] == s[1..] + [x];
      TiesAppend(s[1..], x, y, less);
    }
  }

  lemma {:induction false} TiesEmpty<T>(s: seq<T>, y: T, less: (T, T) -> bool)
    requires forall z :: z in s ==> less(y, z) || less(z, y)
    ensures Ties(s, y, less) == []
  {
    if s != [] {
      assert s[0] in s;
      TiesEmpty(s[1..], y, less);
    }
  }

  lemma {:induction false} TiesMembers<T>(s: seq<T>, y: T, less: (T, T) -> bool)
    ensures forall z :: z in Ties(s, y, less) <==> z in s && !less(y, z) && !less(z, y)
  {
    if s != [] {
      TiesMembers(s[1..], y, less);
      assert s == [s[0]] + s[1..];
    }
  }

  /** The result is sorted, a permutation of the input, and keeps the input order of equal elements. */
  lemma {:induction false} StableSortCorrect<T(!new)>(s: seq<T>, less: (T, T) -> bool)
    requires StrictWeakOrder(less)
    ensures Sorted(StableSort(s, less), less)
    ensures multiset(StableSort(s, less)) == multiset(s)
    ensures forall y :: Ties(StableSort(s, less), y, less) == Ties(s, y, less)
  {
    if s != [] {
      var init, x := s[..|s| - 1], s[|s| - 1];
      assert s == init + [x];
      StableSortCorrect(init, less);
      var t := StableSort(init, less);
      InsertSorted(t, x, less);
      InsertElements(t, x, less);
      forall y ensures Ties(Insert(t, x, less), y, less) == Ties(s, y, less) {
        InsertTies(t, x, y, less);
        TiesAppend(t, x, y, less);
        TiesAppend(init, x, y, less);
      }
    }
  }

  /** Sortedness and stability leave no freedom: every stable sort computes StableSort. */
  lemma {:induction false} StableSortUnique<T(!new)>(r: seq<T>, t: seq<T>, less: (T, T) -> bool)
    requires StrictWeakOrder(less) && Sorted(r, less) && Sorted(t, less)
    requires forall y :: Ties(r, y, less) == Ties(t, y, less)
    ensures r == t
  {
    assert r != [] ==> Ties(r, r[0], less) == Ties(t, r[0], less);
    assert t != [] ==> Ties(r, t[0], less) == Ties(t, t[0], less);
    if r != [] && t != [] {
      TiesMembers(t, r[0], less);
      TiesMembers(r, t[0], less);
      assert r[0] in Ties(t, r[0], less) by { assert Ties(r, r[0], less)[0] == r[0]; }
      assert t[0] in Ties(r, t[0], less) by { assert Ties(t, t[0], less)[0] == t[0]; }
      assert !less(r[0], t[0]) && !less(t[0], r[0]);
      assert Ties(r, r[0], less)[0] == Ties(t, r[0], less)[0];
      forall y ensures Ties(r[1..], y, less) == Ties(t[1..], y, less) {
        var tie := !less(y, r[0]) && !less(r[0], y);
        assert Ties(r, y, less) == Ties(t, y, less);
        assert tie ==> Ties(r[1..], y, less) == Ties(r, y, less)[1..] && Ties(t[1..], y, less) == Ties(t, y, less)[1..];
      }
      StableSortUnique(r[1..], t[1..], less);
    }
  }

  /** Sorting a sorted sequence after appending one element inserts that element behind its equals. */
  lemma {:induction false} SortAppend<T(!new)>(s: seq<T>, x: T, less: (T, T) -> bool)
    requires StrictWeakOrder(less) && Sorted(s, less)
    ensures StableSort(s + [x], less) == Insert(s, x, less)
  {
    SortSorted(s, less);
    assert (s + [x])[..|s|] == s;
  }

  lemma {:induction false} SortSorted<T(!new)>(s: seq<T>, less: (T, T) -> bool)
    requires StrictWeakOrder(less) && Sorted(s, less)
    ensures StableSort(s, less) == s
  {
    StableSortCorrect(s, less);
    StableSortUnique(StableSort(s, less), s, less);
  }

  // Sorted lists of distinct keys

  ghost predicate Increasing<T>(s: seq<T>, less: (T, T) -> bool) {
    forall i, j | 0 <= i < j < |s| :: less(s[i], s[j])
  }

  /** Two increasing sequences with the same elements are equal. */
  lemma {:induction false} IncreasingUnique<T(!new)>(s: seq<T>, t: seq<T>, less: (T, T) -> bool)
    requires forall a, b :: less(a, b) ==> !less(b, a)
    requires Increasing(s, less) && Increasing(t, less)
    requires forall x :: x in s <==> x in t
    ensures s == t
  {
    assert s != [] ==> s[0] in t;
    assert t != [] ==> t[0] in s;
    if s != [] {
      assert s[0] == t[0];
      forall x ensures x in s[1..] <==> x in t[1..] {
        assert x in s[1..] ==> less(s[0], x) && x in t;
        assert x in t[1..] ==> less(t[0], x) && x in s;
      }
      IncreasingUnique(s[1..], t[1..], less);
    }
  }
}
