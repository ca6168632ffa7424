/** `Array.prototype.sort` with a comparator, modelled as a stable insertion sort. The
    comparator follows JavaScript's convention: a result `<= 0` lets its first argument stay
    ahead of the second. For a comparator that is a total preorder a stable sort has only one
    possible result, so this is the arrangement the engine's (stable) sort produces. */
module Sorting {
  import opened Seqs

  /** Inserts `x` in front of the first element `y` with `cmp(x, y) <= 0`. */
  function Insert<T>(x: T, s: seq<T>, cmp: (T, T) -> real): (r: seq<T>)
    ensures |r| == |s| + 1 && multiset(r) == multiset(s) + multiset{x}
  {
    if s == [] || cmp(x, s[0]) <= 0.0 then [x] + s
    else
      assert s == [s[0]] + s[1..];
      [s[0]] + Insert(x, s[1..], cmp)
  }

  /** `[...s].sort(cmp)`: the result is a permutation of `s`. */
  function SortWith<T>(s: seq<T>, cmp: (T, T) -> real): (r: seq<T>)
    ensures |r| == |s| && multiset(r) == multiset(s)
  {
    if s == [] then []
    else
      assert s == [s[0]] + s[1..];
      Insert(s[0], SortWith(s[1..], cmp), cmp)
  }

  /** `cmp(a, b) <= 0` ("a may precede b") is total and transitive. */
  ghost predicate TotalPreorder<T(!new)>(cmp: (T, T) -> real)
  {
    && (forall a, b :: cmp(a, b) <= 0.0 || cmp(b, a) <= 0.0)
    && (forall a, b, c :: cmp(a, b) <= 0.0 && cmp(b, c) <= 0.0 ==> cmp(a, c) <= 0.0)
  }

  /** Every element may precede every later one. */
  ghost predicate Ordered<T>(s: seq<T>, cmp: (T, T) -> real)
  {
    forall i, j :: 0 <= i < j < |s| ==> cmp(s[i], s[j]) <= 0.0
  }

  lemma {:induction false} InsertOrdered<T(!new)>(x: T, s: seq<T>, cmp: (T, T) -> real)
    requires TotalPreorder(cmp) && Ordered(s, cmp)
    ensures Ordered(Insert(x, s, cmp), cmp)
  {
    if s == [] || cmp(x, s[0]) <= 0.0 {
      PrependOrdered(x, s, cmp);
    } else {
      var tail := Insert(x, s[1..], cmp);
      InsertOrdered(x, s[1..], cmp);
      assert cmp(s[0], x) <= 0.0;
      forall k | 0 <= k < |tail| ensures cmp(s[0], tail[k]) <= 0.0 {
        assert tail[k] in multiset(tail);
        if tail[k] != x {
          assert tail[k] in multiset(s[1..]);
          var m :| 0 <= m < |s[1..]| && s[1..][m] == tail[k];
          assert s[m + 1] == tail[k];
        }
      }
      ConsOrdered(s[0], tail, cmp);
    }
  }

  /** An element that may precede the head of an ordered sequence may precede all of it. */
  lemma PrependOrdered<T(!new)>(x: T, s: seq<T>, cmp: (T, T) -> real)
    requires TotalPreorder(cmp) && Ordered(s, cmp)
    requires s == [] || cmp(x, s[0]) <= 0.0
    ensures Ordered([x] + s, cmp)
  {
    forall k | 0 <= k < |s| ensures cmp(x, s[k]) <= 0.0 {
      if k > 0 {
        assert cmp(s[0], s[k]) <= 0.0;
      }
    }
    ConsOrdered(x, s, cmp);
  }

  lemma ConsOrdered<T>(x: T, s: seq<T>, cmp: (T, T) -> real)
    requires Ordered(s, cmp)
    requires forall k :: 0 <= k < |s| ==> cmp(x, s[k]) <= 0.0
    ensures Ordered([x] + s, cmp)
  {
    var r := [x] + s;
    forall i, j | 0 <= i < j < |r| ensures cmp(r[i], r[j]) <= 0.0 {
      assert r[j] == s[j - 1];
      if i > 0 {
        assert r[i] == s[i - 1];
      }
    }
  }

  /** Sorting with a total preorder yields an ordered sequence. */
  lemma {:induction false} SortWithOrdered<T(!new)>(s: seq<T>, cmp: (T, T) -> real)
    requires TotalPreorder(cmp)
    ensures Ordered(SortWith(s, cmp), cmp)
  {
    if s != [] {
      SortWithOrdered(s[1..], cmp);
      InsertOrdered(s[0], SortWith(s[1..], cmp), cmp);
    }
  }

  /** Stability in its simplest form: a comparator that calls every pair equal keeps the order. */
  lemma {:induction false} SortWithAllEqual<T>(s: seq<T>, cmp: (T, T) -> real)
    requires forall i, j :: 0 <= i < |s| && 0 <= j < |s| ==> cmp(s[i], s[j]) == 0.0
    ensures SortWith(s, cmp) == s
  {
    if s != [] {
      SortWithAllEqual(s[1..], cmp);
      assert s == [s[0]] + s[1..];
    }
  }

  /** The comparator `(a, b) => key(a) - key(b)` (ascending by key). */
  function ByKeyAsc<T>(key: T -> real): (T, T) -> real
  {
    (a, b) => key(a) - key(b)
  }

  /** The comparator `(a, b) => key(b) - key(a)` (descending by key). */
  function ByKeyDesc<T>(key: T -> real): (T, T) -> real
  {
    (a, b) => key(b) - key(a)
  }

  lemma KeyComparatorsArePreorders<T(!new)>(key: T -> real)
    ensures TotalPreorder(ByKeyAsc(key)) && TotalPreorder(ByKeyDesc(key))
  {
  }

  /** Sorting with `(a, b) => key(a) - key(b)` leaves the keys non-decreasing. */
  lemma SortedAscending<T(!new)>(s: seq<T>, key: T -> real)
    ensures var r := SortWith(s, ByKeyAsc(key));
      forall i, j :: 0 <= i < j < |r| ==> key(r[i]) <= key(r[j])
  {
    KeyComparatorsArePreorders(key);
    SortWithOrdered(s, ByKeyAsc(key));
  }

  /** Sorting with `(a, b) => key(b) - key(a)` leaves the keys non-increasing. */
  lemma SortedDescending<T(!new)>(s: seq<T>, key: T -> real)
    ensures var r := SortWith(s, ByKeyDesc(key));
      forall i, j :: 0 <= i < j < |r| ==> key(r[i]) >= key(r[j])
  {
    KeyComparatorsArePreorders(key);
    SortWithOrdered(s, ByKeyDesc(key));
  }

  /** Sorting and then keeping the first `n` (`sort(cmp).slice(0, n)`) leaves out nothing that
      sorts strictly ahead of a kept element: an element with fewer copies in the result than in
      the input may follow every kept element. */
  lemma {:induction false} TopKeepsBest<T(!new)>(s: seq<T>, cmp: (T, T) -> real, n: nat)
    requires TotalPreorder(cmp)
    ensures var top := JsSlice(SortWith(s, cmp), 0, n);
      forall x, y :: y in top && multiset(top)[x] < multiset(s)[x] ==> cmp(y, x) <= 0.0
  {
    var sorted := SortWith(s, cmp);
    SortWithOrdered(s, cmp);
    var m := if n < |sorted| then n else |sorted|;
    JsSliceTake(sorted, n);
    PrefixAheadOfRest(sorted, cmp, m);
    forall x, y | y in sorted[..m] && multiset(sorted[..m])[x] < multiset(s)[x]
      ensures cmp(y, x) <= 0.0
    {
      MissingIsInRest(sorted, m, x);
    }
  }

  /** In an ordered sequence each element of a prefix may precede each element after it. */
  lemma PrefixAheadOfRest<T>(sorted: seq<T>, cmp: (T, T) -> real, m: nat)
    requires Ordered(sorted, cmp) && m <= |sorted|
    ensures forall x, y :: y in sorted[..m] && x in sorted[m..] ==> cmp(y, x) <= 0.0
  {
    forall x, y | y in sorted[..m] && x in sorted[m..] ensures cmp(y, x) <= 0.0 {
      var j :| 0 <= j < |sorted[m..]| && sorted[m..][j] == x;
      var i :| 0 <= i < m && sorted[..m][i] == y;
      assert sorted[i] == y && sorted[m + j] == x;
    }
  }

  /** An element with fewer copies in a prefix than in the whole occurs after the prefix. */
  lemma MissingIsInRest<T>(sorted: seq<T>, m: nat, x: T)
    requires m <= |sorted| && multiset(sorted[..m])[x] < multiset(sorted)[x]
    ensures x in sorted[m..]
  {
    assert sorted == sorted[..m] + sorted[m..];
    assert multiset(sorted) == multiset(sorted[..m]) + multiset(sorted[m..]);
  }

  /** `sort(cmp).slice(0, n)` keeps `min(n, |s|)` elements, all taken from `s`, and the kept
      elements are the sorted list's own first elements. */
  lemma TopFacts<T>(s: seq<T>, cmp: (T, T) -> real, n: nat)
    ensures var sorted := SortWith(s, cmp);
      var top := JsSlice(sorted, 0, n);
      && |top| == (if n < |s| then n else |s|)
      && multiset(top) <= multiset(s)
      && (forall i :: 0 <= i < |top| ==> top[i] == sorted[i])
  {
    var sorted := SortWith(s, cmp);
    JsSliceTake(sorted, n);
    var m := if n < |sorted| then n else |sorted|;
    assert sorted == sorted[..m] + sorted[m..];
    assert multiset(sorted) == multiset(sorted[..m]) + multiset(sorted[m..]);
  }

  /** `s.filter(p).sort(ascending key).slice(0, n)`: at most `n` elements, all satisfying `p`
      and taken from `s`, keys non-decreasing, and no left-out element satisfying `p` has a key
      below a kept one. */
  lemma FilteredTopAscending<T(!new)>(s: seq<T>, p: T -> bool, key: T -> real, n: nat)
    ensures var kept := Filter(s, p);
      var top := JsSlice(SortWith(kept, ByKeyAsc(key)), 0, n);
      && |top| == (if n < |kept| then n else |kept|)
      && multiset(top) <= multiset(s)
      && (forall i :: 0 <= i < |top| ==> p(top[i]))
      && (forall i, j :: 0 <= i < j < |top| ==> key(top[i]) <= key(top[j]))
      && (forall x, y :: y in top && p(x) && multiset(top)[x] < multiset(s)[x] ==> key(y) <= key(x))
  {
    var kept := Filter(s, p);
    var top := JsSlice(SortWith(kept, ByKeyAsc(key)), 0, n);
    TopFacts(kept, ByKeyAsc(key), n);
    SortedAscending(kept, key);
    KeyComparatorsArePreorders(key);
    TopKeepsBest(kept, ByKeyAsc(key), n);
    forall i | 0 <= i < |top| ensures p(top[i]) {
      assert top[i] in multiset(kept);
    }
    forall x, y | y in top && p(x) && multiset(top)[x] < multiset(s)[x] ensures key(y) <= key(x) {
      FilterMultiset(s, p, x);
      assert multiset(top)[x] < multiset(kept)[x];
      assert ByKeyAsc(key)(y, x) <= 0.0;
    }
  }

  /** The same for `sort(descending key)`: keys non-increasing, and no left-out element
      satisfying `p` has a key above a kept one. */
  lemma FilteredTopDescending<T(!new)>(s: seq<T>, p: T -> bool, key: T -> real, n: nat)
    ensures var kept := Filter(s, p);
      var top := JsSlice(SortWith(kept, ByKeyDesc(key)), 0, n);
      && |top| == (if n < |kept| then n else |kept|)
      && multiset(top) <= multiset(s)
      && (forall i :: 0 <= i < |top| ==> p(top[i]))
      && (forall i, j :: 0 <= i < j < |top| ==> key(top[i]) >= key(top[j]))
      && (forall x, y :: y in top && p(x) && multiset(top)[x] < multiset(s)[x] ==> key(y) >= key(x))
  {
    var kept := Filter(s, p);
    var top := JsSlice(SortWith(kept, ByKeyDesc(key)), 0, n);
    TopFacts(kept, ByKeyDesc(key), n);
    SortedDescending(kept, key);
    KeyComparatorsArePreorders(key);
    TopKeepsBest(kept, ByKeyDesc(key), n);
    forall i | 0 <= i < |top| ensures p(top[i]) {
      assert top[i] in multiset(kept);
    }
    forall x, y | y in top && p(x) && multiset(top)[x] < multiset(s)[x] ensures key(y) >= key(x) {
      FilterMultiset(s, p, x);
      assert multiset(top)[x] < multiset(kept)[x];
      assert ByKeyDesc(key)(y, x) <= 0.0;
    }
  }

  lemma {:induction false} InsertCongruent<T>(x: T, s: seq<T>, c1: (T, T) -> real, c2: (T, T) -> real)
    requires forall y :: y in s ==> c1(x, y) == c2(x, y)
    ensures Insert(x, s, c1) == Insert(x, s, c2)
  {
    if s != [] {
      assert s[0] in s;
      InsertCongruent(x, s[1..], c1, c2);
    }
  }

  /** Two comparators that agree on every pair drawn from `s` sort `s` the same way. */
  lemma {:induction false} SortWithCongruent<T>(s: seq<T>, c1: (T, T) -> real, c2: (T, T) -> real)
    requires forall x, y :: x in s && y in s ==> c1(x, y) == c2(x, y)
    ensures SortWith(s, c1) == SortWith(s, c2)
  {
    if s != [] {
      var t := SortWith(s[1..], c1);
      SortWithCongruent(s[1..], c1, c2);
      forall y | y in t ensures c1(s[0], y) == c2(s[0], y) {
        assert y in multiset(s[1..]);
      }
      InsertCongruent(s[0], t, c1, c2);
    }
  }

  /** `s.filter(p).sort(cmp).slice(0, n)`, for any comparator: `min(n, |kept|)` elements, all
      satisfying `p` and taken from `s`. */
  lemma FilteredTop<T>(s: seq<T>, p: T -> bool, cmp: (T, T) -> real, n: nat)
    ensures var kept := Filter(s, p);
      var top := JsSlice(SortWith(kept, cmp), 0, n);
      && |top| == (if n < |kept| then n else |kept|)
      && multiset(top) <= multiset(s)
      && (forall i :: 0 <= i < |top| ==> p(top[i]))
  {
    var kept := Filter(s, p);
    var top := JsSlice(SortWith(kept, cmp), 0, n);
    TopFacts(kept, cmp, n);
    forall i | 0 <= i < |top| ensures p(top[i]) {
      assert top[i] in multiset(kept);
    }
  }

  /** A comparator that agrees on `s` with descending `key` yields a top slice `top` in
      descending `key` order. */
  lemma TopAgreeingDescending<T(!new)>(s: seq<T>, cmp: (T, T) -> real, key: T -> real, n: nat,
                                       top: seq<T>)
    requires forall x, y :: x in s && y in s ==> cmp(x, y) == ByKeyDesc(key)(x, y)
    requires top == JsSlice(SortWith(s, cmp), 0, n)
    ensures forall i, j :: 0 <= i < j < |top| ==> key(top[i]) >= key(top[j])
  {
    SortWithCongruent(s, cmp, ByKeyDesc(key));
    SortedDescending(s, key);
    TopFacts(s, cmp, n);
  }

  /** `s.filter(p).sort(descending key)`: exactly the elements of `s` satisfying `p`, each as
      often as in `s`, in non-increasing `key` order. */
  lemma FilteredDescending<T(!new)>(s: seq<T>, p: T -> bool, key: T -> real, r: seq<T>)
    requires r == SortWith(Filter(s, p), ByKeyDesc(key))
    ensures forall x :: multiset(r)[x] == if p(x) then multiset(s)[x] else 0
    ensures forall i :: 0 <= i < |r| ==> p(r[i])
    ensures forall i, j :: 0 <= i < j < |r| ==> key(r[i]) >= key(r[j])
  {
    var kept := Filter(s, p);
    SortedDescending(kept, key);
    forall x ensures multiset(r)[x] == if p(x) then multiset(s)[x] else 0 {
      FilterMultiset(s, p, x);
    }
    forall i | 0 <= i < |r| ensures p(r[i]) {
      assert r[i] in multiset(kept);
    }
  }

  /** `s.sort(descending key).slice(0, n)` as a value `top`: at most `n` elements taken from
      `s`, keys non-increasing, and nothing left out has a larger key than a kept element. */
  lemma TopDescending<T(!new)>(s: seq<T>, key: T -> real, n: nat, top: seq<T>)
    requires top == JsSlice(SortWith(s, ByKeyDesc(key)), 0, n)
    ensures |top| <= n && multiset(top) <= multiset(s)
    ensures forall i, j :: 0 <= i < j < |top| ==> key(top[i]) >= key(top[j])
    ensures forall x, y :: y in top && multiset(top)[x] < multiset(s)[x] ==> key(y) >= key(x)
  {
    var sorted := SortWith(s, ByKeyDesc(key));
    TopFacts(s, ByKeyDesc(key), n);
    SortedDescending(s, key);
    KeyComparatorsArePreorders(key);
    TopKeepsBest(s, ByKeyDesc(key), n);
    DescendingPrefix(sorted, key, top);
    DescendingBest(s, key, top);
  }

  lemma DescendingPrefix<T>(sorted: seq<T>, key: T -> real, top: seq<T>)
    requires forall i, j :: 0 <= i < j < |sorted| ==> key(sorted[i]) >= key(sorted[j])
    requires |top| <= |sorted| && forall i :: 0 <= i < |top| ==> top[i] == sorted[i]
    ensures forall i, j :: 0 <= i < j < |top| ==> key(top[i]) >= key(top[j])
  {
    forall i, j | 0 <= i < j < |top| ensures key(top[i]) >= key(top[j]) {
      assert top[i] == sorted[i] && top[j] == sorted[j];
    }
  }

  lemma DescendingBest<T>(s: seq<T>, key: T -> real, top: seq<T>)
    requires forall x, y :: y in top && multiset(top)[x] < multiset(s)[x] ==> ByKeyDesc(key)(y, x) <= 0.0
    ensures forall x, y :: y in top && multiset(top)[x] < multiset(s)[x] ==> key(y) >= key(x)
  {
    forall x, y | y in top && multiset(top)[x] < multiset(s)[x] ensures key(y) >= key(x) {
      assert ByKeyDesc(key)(y, x) <= 0.0;
    }
  }
}
