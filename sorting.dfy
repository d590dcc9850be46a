/** Python's `sorted(xs, key=k, reverse=True)`: a stable sort into
    non-increasing key order, and the `[:n]` slice taken of its result. Both
    the ranking step and the review summary order their items this way. */
module Sorting {
  import opened Wrappers

  function Min(a: int, b: int): int {
    if a < b then a else b
  }

  /** The first `max(n, 0)` elements of `s`, or all of it when it is
      shorter. For `n >= 0` this is Python's `s[:n]`. */
  function Take<T>(s: seq<T>, n: int): (r: seq<T>)
    ensures |r| == (if n < 0 then 0 else Min(n, |s|))
    ensures forall i :: 0 <= i < |r| ==> r[i] == s[i]
  {
    if n <= 0 then [] else s[..Min(n, |s|)]
  }

  /** Keys never increase from left to right. */
  predicate NonIncreasing<T>(s: seq<T>, key: T -> real) {
    forall i, j :: 0 <= i < j < |s| ==> key(s[i]) >= key(s[j])
  }

  /** The elements of `s` whose key is `k`, in their order in `s`. */
  function WithKey<T>(s: seq<T>, key: T -> real, k: real): (r: seq<T>)
    ensures |r| <= |s|
    ensures forall x :: x in r ==> x in s && key(x) == k
  {
    if s == [] then []
    else (if key(s[0]) == k then [s[0]] else []) + WithKey(s[1..], key, k)
  }

  /** Puts `x` in front of the first element whose key is not greater than
      its own, so `x` goes ahead of the elements that tie with it. */
  function InsertDesc<T>(x: T, s: seq<T>, key: T -> real): (r: seq<T>)
    ensures |r| == |s| + 1
  {
    if s == [] || key(s[0]) <= key(x) then [x] + s
    else [s[0]] + InsertDesc(x, s[1..], key)
  }

  /** `sorted(xs, key=key, reverse=True)`. */
  function SortDesc<T>(xs: seq<T>, key: T -> real): (r: seq<T>)
    ensures |r| == |xs|
  {
    if xs == [] then [] else InsertDesc(xs[0], SortDesc(xs[1..], key), key)
  }

  lemma {:induction false} InsertDescPermutes<T>(x: T, s: seq<T>, key: T -> real)
    ensures multiset(InsertDesc(x, s, key)) == multiset(s) + multiset{x}
  {
    if !(s == [] || key(s[0]) <= key(x)) {
      InsertDescPermutes(x, s[1..], key);
      assert s == [s[0]] + s[1..];
    }
  }

  lemma {:induction false} InsertDescSorted<T>(x: T, s: seq<T>, key: T -> real)
    requires NonIncreasing(s, key)
    ensures NonIncreasing(InsertDesc(x, s, key), key)
  {
    var r := InsertDesc(x, s, key);
    if s == [] || key(s[0]) <= key(x) {
    } else {
      var t := s[1..];
      InsertDescSorted(x, t, key);
      InsertDescPermutes(x, t, key);
      forall j | 1 <= j < |r| ensures key(r[0]) >= key(r[j]) {
        var y := r[j];
        assert y in multiset(InsertDesc(x, t, key));
        assert y in multiset(t) + multiset{x};
        if y in t {
          var m :| 0 <= m < |t| && t[m] == y;
          assert s[m + 1] == y;
        }
      }
    }
  }

  /** The result holds the same elements as the input, as many times each. */
  lemma {:induction false} SortDescPermutes<T>(xs: seq<T>, key: T -> real)
    ensures multiset(SortDesc(xs, key)) == multiset(xs)
  {
    if xs != [] {
      SortDescPermutes(xs[1..], key);
      InsertDescPermutes(xs[0], SortDesc(xs[1..], key), key);
      assert xs == [xs[0]] + xs[1..];
    }
  }

  /** The result is in non-increasing key order. */
  lemma {:induction false} SortDescSorted<T>(xs: seq<T>, key: T -> real)
    ensures NonIncreasing(SortDesc(xs, key), key)
  {
    if xs != [] {
      SortDescSorted(xs[1..], key);
      InsertDescSorted(xs[0], SortDesc(xs[1..], key), key);
    }
  }

  lemma {:induction false} WithKeyAppend<T>(a: seq<T>, b: seq<T>, key: T -> real, k: real)
    ensures WithKey(a + b, key, k) == WithKey(a, key, k) + WithKey(b, key, k)
  {
    if a == [] {
      assert a + b == b;
    } else {
      WithKeyAppend(a[1..], b, key, k);
      assert (a + b)[0] == a[0];
      assert (a + b)[1..] == a[1..] + b;
      var head := if key(a[0]) == k then [a[0]] else [];
      assert WithKey(a + b, key, k) == head + WithKey(a[1..] + b, key, k);
      assert WithKey(a, key, k) == head + WithKey(a[1..], key, k);
      ConcatAssoc(head, WithKey(a[1..], key, k), WithKey(b, key, k));
    }
  }

  lemma {:induction false} InsertDescStable<T>(x: T, s: seq<T>, key: T -> real, k: real)
    requires NonIncreasing(s, key)
    ensures key(x) != k ==> WithKey(InsertDesc(x, s, key), key, k) == WithKey(s, key, k)
    ensures key(x) == k ==> WithKey(InsertDesc(x, s, key), key, k) == [x] + WithKey(s, key, k)
  {
    if s == [] || key(s[0]) <= key(x) {
      WithKeyAppend([x], s, key, k);
    } else {
      InsertDescStable(x, s[1..], key, k);
      WithKeyAppend([s[0]], InsertDesc(x, s[1..], key), key, k);
      WithKeyAppend([s[0]], s[1..], key, k);
      assert s == [s[0]] + s[1..];
    }
  }

  /** Stability: elements with equal keys keep their relative input order. */
  lemma {:induction false} SortDescStable<T>(xs: seq<T>, key: T -> real, k: real)
    ensures WithKey(SortDesc(xs, key), key, k) == WithKey(xs, key, k)
  {
    if xs != [] {
      SortDescStable(xs[1..], key, k);
      SortDescSorted(xs[1..], key);
      InsertDescStable(xs[0], SortDesc(xs[1..], key), key, k);
      WithKeyAppend([xs[0]], xs[1..], key, k);
      assert xs == [xs[0]] + xs[1..];
    }
  }

  /** Sorting a list that is already in non-increasing key order leaves it
      as it is. */
  lemma {:induction false} SortDescOfSorted<T>(xs: seq<T>, key: T -> real)
    requires NonIncreasing(xs, key)
    ensures SortDesc(xs, key) == xs
  {
    if xs != [] {
      SortDescOfSorted(xs[1..], key);
      assert SortDesc(xs[1..], key) == xs[1..];
      if |xs| > 1 {
        assert key(xs[1]) <= key(xs[0]);
      }
      assert [xs[0]] + xs[1..] == xs;
    }
  }

  /** Every element of the first `k` of the sorted list has a key at least
      that of every element after them. */
  lemma SortDescTopK<T>(xs: seq<T>, key: T -> real, k: nat)
    requires k <= |xs|
    ensures forall x, y :: x in SortDesc(xs, key)[..k] && y in SortDesc(xs, key)[k..] ==> key(x) >= key(y)
  {
    var r := SortDesc(xs, key);
    SortDescSorted(xs, key);
    forall x, y | x in r[..k] && y in r[k..] ensures key(x) >= key(y) {
      var i :| 0 <= i < k && r[..k][i] == x;
      var j :| 0 <= j < |r| - k && r[k..][j] == y;
      assert r[i] == x && r[k + j] == y;
    }
  }
}
