/**
 * `Array.prototype.sort` with a comparator, as the stable sort the language
 * requires: a negative comparator result puts the first argument first.
 */
module Sorting {

  /** Inserts `x` just before the first element of `s` that it must precede. */
  function Insert<T>(x: T, s: seq<T>, cmp: (T, T) -> real): (r: seq<T>)
    ensures multiset(r) == multiset(s) + multiset{x}
  {
    if s == [] then [x]
    else if cmp(x, s[0]) < 0.0 then [x] + s
    else
      assert s == [s[0]] + s[1..];
      [s[0]] + Insert(x, s[1..], cmp)
  }

  /** `s.slice().sort(cmp)`: each element, in input order, is inserted into the sorted prefix. */
  function SortBy<T>(s: seq<T>, cmp: (T, T) -> real): (r: seq<T>)
    ensures multiset(r) == multiset(s)
  {
    if s == [] then []
    else
      assert s == s[..|s| - 1] + [s[|s| - 1]];
      Insert(s[|s| - 1], SortBy(s[..|s| - 1], cmp), cmp)
  }

  /** The elements appear in non-increasing order of `key`. */
  predicate NonIncreasing<T>(s: seq<T>, key: T -> real) {
    forall i, j | 0 <= i < j < |s| :: key(s[i]) >= key(s[j])
  }

  /** `cmp` orders the elements of `s` by decreasing `key`. */
  predicate DescendingComparator<T>(s: seq<T>, cmp: (T, T) -> real, key: T -> real) {
    forall i, j | 0 <= i < |s| && 0 <= j < |s| :: cmp(s[i], s[j]) == key(s[j]) - key(s[i])
  }

  lemma {:induction false} InsertBounded<T>(x: T, s: seq<T>, cmp: (T, T) -> real, key: T -> real, bound: real)
    requires key(x) <= bound
    requires forall i | 0 <= i < |s| :: key(s[i]) <= bound
    ensures forall k | 0 <= k < |Insert(x, s, cmp)| :: key(Insert(x, s, cmp)[k]) <= bound
  {
    if s != [] && cmp(x, s[0]) >= 0.0 {
      InsertBounded(x, s[1..], cmp, key, bound);
    }
  }

  lemma {:induction false} InsertNonIncreasing<T>(x: T, s: seq<T>, cmp: (T, T) -> real, key: T -> real)
    requires NonIncreasing(s, key)
    requires forall i | 0 <= i < |s| :: cmp(x, s[i]) == key(s[i]) - key(x)
    ensures NonIncreasing(Insert(x, s, cmp), key)
  {
    if s != [] && cmp(x, s[0]) >= 0.0 {
      var t := Insert(x, s[1..], cmp);
      InsertNonIncreasing(x, s[1..], cmp, key);
      InsertBounded(x, s[1..], cmp, key, key(s[0]));
      assert Insert(x, s, cmp) == [s[0]] + t;
    }
  }

  /** Every element of the sorted copy is an element of the input. */
  lemma SortedElementFromInput<T>(s: seq<T>, cmp: (T, T) -> real, k: int)
    requires 0 <= k < |SortBy(s, cmp)|
    ensures exists m | 0 <= m < |s| :: SortBy(s, cmp)[k] == s[m]
  {
    var r := SortBy(s, cmp);
    assert r[k] in multiset(r);
    assert r[k] in multiset(s);
  }

  /** With a comparator that orders by decreasing key, the sorted copy is in non-increasing key order. */
  lemma {:induction false} SortByNonIncreasing<T>(s: seq<T>, cmp: (T, T) -> real, key: T -> real)
    requires DescendingComparator(s, cmp, key)
    ensures NonIncreasing(SortBy(s, cmp), key)
  {
    if s != [] {
      var init := s[..|s| - 1];
      var x := s[|s| - 1];
      assert DescendingComparator(init, cmp, key) by {
        forall i, j | 0 <= i < |init| && 0 <= j < |init| ensures cmp(init[i], init[j]) == key(init[j]) - key(init[i]) {
          assert init[i] == s[i] && init[j] == s[j];
        }
      }
      SortByNonIncreasing(init, cmp, key);
      var sorted := SortBy(init, cmp);
      forall k | 0 <= k < |sorted| ensures cmp(x, sorted[k]) == key(sorted[k]) - key(x) {
        SortedElementFromInput(init, cmp, k);
        var m :| 0 <= m < |init| && sorted[k] == init[m];
        assert init[m] == s[m];
      }
      InsertNonIncreasing(x, sorted, cmp, key);
    }
  }

  lemma {:induction false} InsertTieAppends<T>(x: T, s: seq<T>, cmp: (T, T) -> real)
    requires forall i | 0 <= i < |s| :: cmp(x, s[i]) == 0.0
    ensures Insert(x, s, cmp) == s + [x]
  {
    if s != [] {
      InsertTieAppends(x, s[1..], cmp);
      assert s == [s[0]] + s[1..];
    }
  }

  /** A comparator that ties every pair leaves the order unchanged (the sort is stable). */
  lemma {:induction false} SortByAllTies<T>(s: seq<T>, cmp: (T, T) -> real)
    requires forall x, y | x in s && y in s :: cmp(x, y) == 0.0
    ensures SortBy(s, cmp) == s
  {
    if s != [] {
      var init := s[..|s| - 1];
      var x := s[|s| - 1];
      assert s == init + [x];
      SortByAllTies(init, cmp);
      forall i | 0 <= i < |init|
        ensures cmp(x, init[i]) == 0.0
      {
        assert init[i] in s;
      }
      InsertTieAppends(x, init, cmp);
    }
  }

  /** No element occurs twice. */
  predicate Distinct<T(==)>(s: seq<T>) {
    forall i, j | 0 <= i < j < |s| :: s[i] != s[j]
  }

  lemma {:induction false} InsertDistinct<T>(x: T, s: seq<T>, cmp: (T, T) -> real)
    requires Distinct(s) && x !in s
    ensures Distinct(Insert(x, s, cmp))
  {
    if s != [] && cmp(x, s[0]) >= 0.0 {
      InsertDistinct(x, s[1..], cmp);
      var t := Insert(x, s[1..], cmp);
      assert s[0] !in multiset(t) by {
        assert s[0] !in s[1..];
      }
      assert Insert(x, s, cmp) == [s[0]] + t;
    }
  }

  /** Sorting a sequence without repetitions gives one without repetitions. */
  lemma {:induction false} SortByDistinct<T>(s: seq<T>, cmp: (T, T) -> real)
    requires Distinct(s)
    ensures Distinct(SortBy(s, cmp))
  {
    if s != [] {
      var init := s[..|s| - 1];
      var x := s[|s| - 1];
      assert Distinct(init);
      SortByDistinct(init, cmp);
      assert x !in SortBy(init, cmp) by {
        assert x !in multiset(init);
      }
      InsertDistinct(x, SortBy(init, cmp), cmp);
    }
  }
}
