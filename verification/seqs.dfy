/**
 * `Array.prototype.filter` and `Array.prototype.slice` on sequences, and
 * the integer arithmetic of `Math.ceil` and of the `%` operator.
 */
module Seqs {
  import opened Wrappers

  /** `s.filter(p)`: the elements satisfying `p`, in their original order. */
  function Filter<T>(s: seq<T>, p: T -> bool): (r: seq<T>)
    ensures |r| <= |s|
  {
    if s == [] then [] else (if p(s[0]) then [s[0]] else []) + Filter(s[1..], p)
  }

  /** An element is kept exactly when it is in `s` and satisfies `p`. */
  lemma {:induction false} FilterMembers<T>(s: seq<T>, p: T -> bool)
    ensures forall x :: x in Filter(s, p) <==> x in s && p(x)
  {
    if s != [] {
      FilterMembers(s[1..], p);
      assert s == [s[0]] + s[1..];
    }
  }

  /** Filtering a concatenation filters each part, keeping the parts in order. */
  lemma {:induction false} FilterAppend<T>(a: seq<T>, b: seq<T>, p: T -> bool)
    ensures Filter(a + b, p) == Filter(a, p) + Filter(b, p)
  {
    if a == [] {
      assert a + b == b;
    } else {
      var head := if p(a[0]) then [a[0]] else [];
      assert (a + b)[0] == a[0] && (a + b)[1..] == a[1..] + b;
      assert Filter(a + b, p) == head + Filter(a[1..] + b, p);
      FilterAppend(a[1..], b, p);
      assert head + (Filter(a[1..], p) + Filter(b, p)) == (head + Filter(a[1..], p)) + Filter(b, p);
    }
  }

  /** Filtering after one more element: it is kept exactly when it passes. */
  lemma FilterPush<T>(s: seq<T>, x: T, p: T -> bool)
    ensures Filter(s + [x], p) == Filter(s, p) + (if p(x) then [x] else [])
  {
    FilterAppend(s, [x], p);
    assert Filter([x], p) == (if p(x) then [x] else []) + Filter([], p);
  }

  /** When every element satisfies `p`, nothing is dropped. */
  lemma {:induction false} FilterAll<T>(s: seq<T>, p: T -> bool)
    requires forall i | 0 <= i < |s| :: p(s[i])
    ensures Filter(s, p) == s
  {
    if s != [] {
      FilterAll(s[1..], p);
      assert s == [s[0]] + s[1..];
    }
  }

  /** When no element satisfies `p`, nothing is kept. */
  lemma {:induction false} FilterNone<T>(s: seq<T>, p: T -> bool)
    requires forall i | 0 <= i < |s| :: !p(s[i])
    ensures Filter(s, p) == []
  {
    if s != [] {
      FilterNone(s[1..], p);
    }
  }

  /** `s.some(p)`: a scan from the front that stops at the first element satisfying `p`. */
  predicate Any<T>(s: seq<T>, p: T -> bool) {
    s != [] && (p(s[0]) || Any(s[1..], p))
  }

  lemma {:induction false} AnyMeaning<T>(s: seq<T>, p: T -> bool)
    ensures Any(s, p) <==> exists i | 0 <= i < |s| :: p(s[i])
  {
    if s != [] {
      AnyMeaning(s[1..], p);
      if exists i | 0 <= i < |s| :: p(s[i]) {
        var i :| 0 <= i < |s| && p(s[i]);
        if i > 0 {
          assert s[1..][i - 1] == s[i];
        }
      }
      if exists i | 0 <= i < |s| - 1 :: p(s[1..][i]) {
        var i :| 0 <= i < |s| - 1 && p(s[1..][i]);
        assert s[i + 1] == s[1..][i];
      }
    }
  }

  lemma AnyMember<T>(s: seq<T>, p: T -> bool)
    ensures Any(s, p) <==> exists x | x in s :: p(x)
  {
    AnyMeaning(s, p);
    if exists x | x in s :: p(x) {
      var x :| x in s && p(x);
      var i :| 0 <= i < |s| && s[i] == x;
    }
  }

  /** `s.map(f)`, built from the front as a loop that pushes would build it. */
  function Map<A, B>(s: seq<A>, f: A -> B): seq<B> {
    if s == [] then [] else Map(s[..|s| - 1], f) + [f(s[|s| - 1])]
  }

  /** Element `i` of the mapped sequence is `f` of element `i`. */
  lemma {:induction false} MapAt<A, B>(s: seq<A>, f: A -> B)
    ensures |Map(s, f)| == |s|
    ensures forall i | 0 <= i < |s| :: Map(s, f)[i] == f(s[i])
  {
    if s != [] {
      var init := s[..|s| - 1];
      MapAt(init, f);
      assert forall i | 0 <= i < |init| :: s[i] == init[i];
    }
  }

  /** The same frame around two sequences gives equal results only for equal sequences. */
  lemma SameFrame<T>(p: seq<T>, x: seq<T>, y: seq<T>, q: seq<T>)
    requires p + x + q == p + y + q
    ensures x == y
  {
    assert |x| == |y|;
    assert x == (p + x + q)[|p|..|p| + |x|];
    assert y == (p + y + q)[|p|..|p| + |y|];
  }

  /** Mapping a sequence extended by at most one element. */
  lemma MapAppendOne<A, B>(s: seq<A>, t: seq<A>, f: A -> B)
    requires |t| <= 1
    ensures Map(s + t, f) == Map(s, f) + Map(t, f)
  {
    if |t| == 1 {
      assert (s + t)[..|s + t| - 1] == s;
      assert Map(t, f) == Map([], f) + [f(t[0])];
    } else {
      assert s + t == s;
    }
  }

  /** One more element pushed at the end maps to one more result. */
  lemma MapPush<A, B>(s: seq<A>, i: nat, f: A -> B)
    requires i < |s|
    ensures Map(s[..i + 1], f) == Map(s[..i], f) + [f(s[i])]
  {
    assert s[..i + 1][..i] == s[..i];
  }

  /**
   * The values of the non-null results of `f`, in order: what a loop that
   * pushes `f(x)` whenever it is not null builds.
   */
  function Collect<A, B>(s: seq<A>, f: A -> Option<B>): (r: seq<B>)
    ensures |r| <= |s|
  {
    if s == [] then []
    else Collect(s[..|s| - 1], f) + (if f(s[|s| - 1]).Some? then [f(s[|s| - 1]).value] else [])
  }

  /** One more element: its result is kept exactly when it is not null. */
  lemma CollectPush<A, B>(s: seq<A>, i: nat, f: A -> Option<B>)
    requires i < |s|
    ensures Collect(s[..i + 1], f) == Collect(s[..i], f) + (if f(s[i]).Some? then [f(s[i]).value] else [])
  {
    assert s[..i + 1][..i] == s[..i];
  }

  /** When `f` is non-null exactly where `p` holds, there is one result per element `p` keeps. */
  lemma {:induction false} CollectCount<A, B>(s: seq<A>, f: A -> Option<B>, p: A -> bool)
    requires forall x :: f(x).Some? <==> p(x)
    ensures |Collect(s, f)| == |Filter(s, p)|
  {
    if s != [] {
      var init := s[..|s| - 1];
      CollectCount(init, f, p);
      assert s == init + [s[|s| - 1]];
      FilterPush(init, s[|s| - 1], p);
    }
  }

  function Max(a: int, b: int): int { if a >= b then a else b }
  function Min(a: int, b: int): int { if a <= b then a else b }

  /** The position `slice` takes for the index `i` of a sequence of length `n`: negative counts from the end. */
  function SliceIndex(i: int, n: nat): (r: nat)
    ensures r <= n
  {
    if i < 0 then Max(n + i, 0) else Min(i, n)
  }

  /** `s.slice(start, end)`. */
  function Slice<T>(s: seq<T>, start: int, end: int): (r: seq<T>)
    ensures |r| <= |s|
  {
    var a := SliceIndex(start, |s|);
    var b := SliceIndex(end, |s|);
    if a < b then s[a..b] else []
  }

  /** A window of width `n` never holds more than `n` elements. */
  lemma SliceWidth<T>(s: seq<T>, start: int, n: nat)
    ensures |Slice(s, start, start + n)| <= n
  {
  }

  /** From a non-negative start, the window is `s[start..]` cut at `n` elements. */
  lemma SliceFrom<T>(s: seq<T>, start: nat, n: nat)
    ensures start <= |s| ==> Slice(s, start, start + n) == s[start..Min(start + n, |s|)]
    ensures start >= |s| ==> Slice(s, start, start + n) == []
  {
  }

  /** `s.slice(-n)` for a positive `n`: the last `n` elements, or all of them when there are fewer. */
  lemma SliceLast<T>(s: seq<T>, n: nat)
    requires n > 0
    ensures n <= |s| ==> Slice(s, -(n as int), |s|) == s[|s| - n..]
    ensures n > |s| ==> Slice(s, -(n as int), |s|) == s
  {
    assert SliceIndex(|s|, |s|) == |s|;
    if n <= |s| {
      assert SliceIndex(-(n as int), |s|) == |s| - n;
    } else {
      assert SliceIndex(-(n as int), |s|) == 0;
      assert s[0..|s|] == s;
    }
  }

  /** The last `n` elements of `a + b` are those of `b` when `b` has at least `n`. */
  lemma SuffixOfAppend<T>(a: seq<T>, b: seq<T>, n: nat)
    requires n <= |b|
    ensures (a + b)[|a + b| - n..] == b[|b| - n..]
  {
  }

  /** The last element is the last of any non-empty `slice(-n)`. */
  lemma SliceLastEnds<T>(s: seq<T>, n: nat)
    requires n > 0 && s != []
    ensures Slice(s, -(n as int), |s|) != []
    ensures Slice(s, -(n as int), |s|)[|Slice(s, -(n as int), |s|)| - 1] == s[|s| - 1]
  {
    SliceLast(s, n);
  }

  /** `Math.ceil(a / b)` for a positive divisor. */
  function CeilDiv(a: int, b: int): (r: int)
    requires b > 0
    ensures b * (r - 1) < a <= b * r
  {
    -((-a) / b)
  }

  /** The `%` of the language: the remainder of truncating division, with the sign of `a`. */
  function TruncRem(a: int, b: int): (r: int)
    requires b > 0
    ensures a >= 0 ==> 0 <= r < b
    ensures a < 0 ==> -b < r <= 0
    ensures a - r == b * TruncDiv(a, b)
  {
    if a >= 0 then a % b else -((-a) % b)
  }

  /** The quotient of truncating division, rounded towards zero. */
  function TruncDiv(a: int, b: int): int
    requires b > 0
  {
    if a >= 0 then a / b else -((-a) / b)
  }
}
