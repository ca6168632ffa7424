/** Sequence combinators with the meaning of the JavaScript array methods the dashboard uses:
    `filter`, `reduce` to a sum, counting, insertion-ordered de-duplication (a `Set` or a `Map`
    filled in order) and `slice`. */
module Seqs {

  /** `s.filter(p)`: the elements of `s` that satisfy `p`, in their original order. */
  function Filter<T>(s: seq<T>, p: T -> bool): (r: seq<T>)
    ensures |r| <= |s|
    ensures forall i :: 0 <= i < |r| ==> r[i] in s && p(r[i])
    ensures forall i :: 0 <= i < |s| && p(s[i]) ==> s[i] in r
    ensures multiset(r) <= multiset(s)
  {
    if s == [] then []
    else
      assert s == [s[0]] + s[1..];
      (if p(s[0]) then [s[0]] else []) + Filter(s[1..], p)
  }

  lemma {:induction false} FilterAppend<T>(s: seq<T>, t: seq<T>, p: T -> bool)
    ensures Filter(s + t, p) == Filter(s, p) + Filter(t, p)
  {
    if s == [] {
      assert s + t == t;
    } else {
      assert (s + t)[1..] == s[1..] + t;
      FilterAppend(s[1..], t, p);
    }
  }

  /** Filtering by two predicates in turn is filtering by their conjunction. */
  lemma {:induction false} FilterFilter<T>(s: seq<T>, p: T -> bool, q: T -> bool, pq: T -> bool)
    requires forall x :: pq(x) == (p(x) && q(x))
    ensures Filter(Filter(s, p), q) == Filter(s, pq)
  {
    if s != [] {
      FilterFilter(s[1..], p, q, pq);
      var head := if p(s[0]) then [s[0]] else [];
      FilterAppend(head, Filter(s[1..], p), q);
    }
  }

  /** `FilterMultiset` for every element at once. */
  lemma FilterCounts<T>(s: seq<T>, p: T -> bool)
    ensures forall x :: multiset(Filter(s, p))[x] == if p(x) then multiset(s)[x] else 0
  {
    forall x ensures multiset(Filter(s, p))[x] == if p(x) then multiset(s)[x] else 0 {
      FilterMultiset(s, p, x);
    }
  }

  /** Each element occurs in a filter's result as often as in its input if it passes, else never. */
  lemma {:induction false} FilterMultiset<T>(s: seq<T>, p: T -> bool, x: T)
    ensures multiset(Filter(s, p))[x] == if p(x) then multiset(s)[x] else 0
  {
    if s != [] {
      FilterMultiset(s[1..], p, x);
      var head := if p(s[0]) then [s[0]] else [];
      var rest := Filter(s[1..], p);
      assert Filter(s, p) == head + rest;
      assert multiset(head + rest) == multiset(head) + multiset(rest);
      CountTail(s, x);
    }
  }

  /** Filtering two arrangements of the same elements gives two arrangements of the same result. */
  lemma FilterPermutation<T>(s: seq<T>, t: seq<T>, p: T -> bool)
    requires multiset(s) == multiset(t)
    ensures multiset(Filter(s, p)) == multiset(Filter(t, p))
  {
    forall x ensures multiset(Filter(s, p))[x] == multiset(Filter(t, p))[x] {
      FilterMultiset(s, p, x);
      FilterMultiset(t, p, x);
    }
  }

  /** A predicate and its negation split a sequence: the two filters' lengths add up to its length. */
  lemma {:induction false} FilterSplit<T>(s: seq<T>, p: T -> bool, q: T -> bool)
    requires forall x :: q(x) == !p(x)
    ensures |Filter(s, p)| + |Filter(s, q)| == |s|
  {
    if s != [] {
      FilterSplit(s[1..], p, q);
    }
  }

  /** Two predicates that never hold together select at most `|s|` elements between them. */
  lemma {:induction false} FilterDisjoint<T>(s: seq<T>, p: T -> bool, q: T -> bool)
    requires forall x :: !(p(x) && q(x))
    ensures |Filter(s, p)| + |Filter(s, q)| <= |s|
  {
    if s != [] {
      FilterDisjoint(s[1..], p, q);
    }
  }

  /** A predicate implied by another selects at least as many elements. */
  lemma {:induction false} FilterMonotone<T>(s: seq<T>, p: T -> bool, q: T -> bool)
    requires forall x :: p(x) ==> q(x)
    ensures |Filter(s, p)| <= |Filter(s, q)|
  {
    if s != [] {
      FilterMonotone(s[1..], p, q);
    }
  }

  /** Filters by pointwise-equal predicates agree. */
  lemma {:induction false} FilterCongruent<T>(s: seq<T>, p: T -> bool, q: T -> bool)
    requires forall x :: p(x) == q(x)
    ensures Filter(s, p) == Filter(s, q)
  {
    if s != [] {
      FilterCongruent(s[1..], p, q);
    }
  }

  /** A filter that keeps nothing returns the empty sequence. */
  lemma {:induction false} FilterNone<T>(s: seq<T>, p: T -> bool)
    requires forall i :: 0 <= i < |s| ==> !p(s[i])
    ensures Filter(s, p) == []
  {
    if s != [] {
      FilterNone(s[1..], p);
    }
  }

  /** Filters by predicates that agree on the elements of `s` agree. */
  lemma {:induction false} FilterCongruentOn<T>(s: seq<T>, p: T -> bool, q: T -> bool)
    requires forall i :: 0 <= i < |s| ==> p(s[i]) == q(s[i])
    ensures Filter(s, p) == Filter(s, q)
  {
    if s != [] {
      FilterCongruentOn(s[1..], p, q);
    }
  }

  /** A filter that keeps everything returns its input. */
  lemma {:induction false} FilterAll<T>(s: seq<T>, p: T -> bool)
    requires forall x :: x in s ==> p(x)
    ensures Filter(s, p) == s
  {
    if s != [] {
      FilterAll(s[1..], p);
    }
  }

  /** `a` is `b` with some elements removed (an order-preserving subsequence). */
  predicate IsSubseq<T(==)>(a: seq<T>, b: seq<T>)
    decreases |b|
  {
    if a == [] then true
    else if b == [] then false
    else if a[0] == b[0] then IsSubseq(a[1..], b[1..])
    else IsSubseq(a, b[1..])
  }

  lemma {:induction false} SubseqRefl<T>(a: seq<T>)
    ensures IsSubseq(a, a)
  {
    if a != [] {
      SubseqRefl(a[1..]);
    }
  }

  lemma {:induction false} FilterIsSubseq<T>(s: seq<T>, p: T -> bool)
    ensures IsSubseq(Filter(s, p), s)
  {
    if s != [] {
      FilterIsSubseq(s[1..], p);
      if p(s[0]) {
        assert Filter(s, p) == [s[0]] + Filter(s[1..], p);
        assert (Filter(s, p))[1..] == Filter(s[1..], p);
      } else {
        assert Filter(s, p) == Filter(s[1..], p);
        SubseqSkip(Filter(s, p), s);
      }
    }
  }

  /** Dropping the head of `b` keeps a subsequence of `b[1..]` a subsequence of `b`. */
  lemma {:induction false} SubseqSkip<T>(a: seq<T>, b: seq<T>)
    requires b != [] && IsSubseq(a, b[1..])
    ensures IsSubseq(a, b)
    decreases |b|, 0
  {
    if a != [] && a[0] == b[0] {
      SubseqTail(a, b[1..]);
    }
  }

  /** Dropping the head of `a` keeps it a subsequence. */
  lemma {:induction false} SubseqTail<T>(a: seq<T>, b: seq<T>)
    requires a != [] && IsSubseq(a, b)
    ensures IsSubseq(a[1..], b)
    decreases |b|, 1
  {
    if b == [] {
      assert false;
    } else if a[0] == b[0] {
      SubseqSkip(a[1..], b);
    } else {
      SubseqTail(a, b[1..]);
      SubseqSkip(a[1..], b);
    }
  }

  lemma {:induction false} SubseqTrans<T>(a: seq<T>, b: seq<T>, c: seq<T>)
    requires IsSubseq(a, b) && IsSubseq(b, c)
    ensures IsSubseq(a, c)
    decreases |c|
  {
    if a == [] {
    } else if c == [] {
      assert false;
    } else if b[0] == c[0] {
      if a[0] == b[0] {
        SubseqTrans(a[1..], b[1..], c[1..]);
      } else {
        SubseqTrans(a, b[1..], c[1..]);
      }
      SubseqSkipOrMatch(a, c);
    } else {
      SubseqTrans(a, b, c[1..]);
      SubseqSkip(a, c);
    }
  }

  /** Helper for SubseqTrans: a subsequence of `c[1..]` (possibly extended by `c[0]`) is one of `c`. */
  lemma {:induction false} SubseqSkipOrMatch<T>(a: seq<T>, c: seq<T>)
    requires a != [] && c != []
    requires (a[0] == c[0] && IsSubseq(a[1..], c[1..])) || IsSubseq(a, c[1..])
    ensures IsSubseq(a, c)
  {
    if !(a[0] == c[0] && IsSubseq(a[1..], c[1..])) {
      SubseqSkip(a, c);
    }
  }

  /** Left-to-right sum of `f` over `s`, as `s.reduce((acc, x) => acc + f(x), 0)`. */
  function Sum<T>(s: seq<T>, f: T -> real): real
  {
    if s == [] then 0.0 else f(s[0]) + Sum(s[1..], f)
  }

  lemma {:induction false} SumAppend<T>(s: seq<T>, t: seq<T>, f: T -> real)
    ensures Sum(s + t, f) == Sum(s, f) + Sum(t, f)
  {
    if s == [] {
      assert s + t == t;
    } else {
      assert (s + t)[1..] == s[1..] + t;
      SumAppend(s[1..], t, f);
    }
  }

  /** A sum of non-negative terms is non-negative. */
  lemma {:induction false} SumNonNegative<T>(s: seq<T>, f: T -> real)
    requires forall x :: x in s ==> f(x) >= 0.0
    ensures Sum(s, f) >= 0.0
  {
    if s != [] {
      assert s[0] in s;
      SumNonNegative(s[1..], f);
    }
  }

  /** Terms bounded by `lo` and `hi` give a sum between `|s| * lo` and `|s| * hi`. */
  lemma {:induction false} SumBounds<T>(s: seq<T>, f: T -> real, lo: real, hi: real)
    requires forall i :: 0 <= i < |s| ==> lo <= f(s[i]) <= hi
    ensures |s| as real * lo <= Sum(s, f) <= |s| as real * hi
  {
    if s != [] {
      assert lo <= f(s[0]) <= hi;
      SumBounds(s[1..], f, lo, hi);
    }
  }

  /** Removing one occurrence: the sum of the rest plus the removed value is the whole sum. */
  lemma {:induction false} SumRemove<T>(s: seq<T>, i: nat, f: T -> real)
    requires i < |s|
    ensures Sum(s, f) == f(s[i]) + Sum(s[..i] + s[i + 1..], f)
  {
    assert s == s[..i] + [s[i]] + s[i + 1..];
    SumAppend(s[..i] + [s[i]], s[i + 1..], f);
    SumAppend(s[..i], [s[i]], f);
    SumAppend(s[..i], s[i + 1..], f);
  }

  /** Removing position `i` removes one copy of `s[i]` from the multiset. */
  lemma RemoveMultiset<T>(s: seq<T>, i: nat)
    requires i < |s|
    ensures multiset(s[..i] + s[i + 1..]) == multiset(s) - multiset{s[i]}
  {
    assert s == s[..i] + [s[i]] + s[i + 1..];
    assert multiset(s) == multiset(s[..i]) + multiset{s[i]} + multiset(s[i + 1..]);
  }

  /** A sum depends only on the multiset of the summands: reordering does not change it. */
  lemma {:induction false} SumPermutation<T>(s: seq<T>, t: seq<T>, f: T -> real)
    requires multiset(s) == multiset(t)
    ensures Sum(s, f) == Sum(t, f)
    decreases |s|
  {
    if s != [] {
      assert s[0] in multiset(t);
      var i :| 0 <= i < |t| && t[i] == s[0];
      PermutationTail(s, t, i);
      SumPermutation(s[1..], t[..i] + t[i + 1..], f);
      SumRemove(t, i, f);
    }
  }

  /** Taking the head of `s` off and its copy at `i` out of `t` keeps them permutations. */
  lemma PermutationTail<T>(s: seq<T>, t: seq<T>, i: nat)
    requires s != [] && i < |t| && t[i] == s[0] && multiset(s) == multiset(t)
    ensures multiset(s[1..]) == multiset(t[..i] + t[i + 1..])
  {
    forall x ensures multiset(s[1..])[x] == multiset(t[..i] + t[i + 1..])[x] {
      CountTail(s, x);
      CountWithout(t, i, x);
    }
  }

  lemma CountTail<T>(s: seq<T>, x: T)
    requires s != []
    ensures multiset(s)[x] == multiset(s[1..])[x] + (if x == s[0] then 1 else 0)
  {
    assert s == [s[0]] + s[1..];
  }

  /** Position `i` holds one of the copies of `s[i]`. */
  lemma CountWithout<T>(s: seq<T>, i: nat, x: T)
    requires i < |s|
    ensures multiset(s)[x] == multiset(s[..i] + s[i + 1..])[x] + (if x == s[i] then 1 else 0)
  {
    assert s == s[..i] + [s[i]] + s[i + 1..];
    assert multiset(s) == multiset(s[..i]) + multiset{s[i]} + multiset(s[i + 1..]);
  }

  /** Number of elements of `s` that `f` maps to `k`. */
  function CountKey<T, K(==)>(s: seq<T>, f: T -> K, k: K): (n: nat)
    ensures n <= |s|
  {
    if s == [] then 0 else (if f(s[0]) == k then 1 else 0) + CountKey(s[1..], f, k)
  }

  lemma {:induction false} CountKeyAppend<T, K>(s: seq<T>, t: seq<T>, f: T -> K, k: K)
    ensures CountKey(s + t, f, k) == CountKey(s, f, k) + CountKey(t, f, k)
  {
    if s == [] {
      assert s + t == t;
    } else {
      assert (s + t)[1..] == s[1..] + t;
      CountKeyAppend(s[1..], t, f, k);
    }
  }

  /** A key some element carries is counted at least once. */
  lemma {:induction false} CountKeyPresent<T, K>(s: seq<T>, f: T -> K, j: nat)
    requires j < |s|
    ensures CountKey(s, f, f(s[j])) >= 1
  {
    if j > 0 {
      CountKeyPresent(s[1..], f, j - 1);
    }
  }

  /** A key no element carries is counted zero times. */
  lemma {:induction false} CountKeyAbsent<T, K>(s: seq<T>, f: T -> K, k: K)
    requires forall i :: 0 <= i < |s| ==> f(s[i]) != k
    ensures CountKey(s, f, k) == 0
  {
    if s != [] {
      CountKeyAbsent(s[1..], f, k);
    }
  }

  /** `f` mapped over `s`. */
  function Map<T, U>(s: seq<T>, f: T -> U): (r: seq<U>)
    ensures |r| == |s| && forall i :: 0 <= i < |s| ==> r[i] == f(s[i])
  {
    seq(|s|, i requires 0 <= i < |s| => f(s[i]))
  }

  predicate NoDup<T(==)>(s: seq<T>)
  {
    forall i, j :: 0 <= i < j < |s| ==> s[i] != s[j]
  }

  /** The distinct elements of `s` in order of first occurrence: what `Array.from(new Set(s))`
      returns, and the key order of a `Map` (or string-keyed object) filled by walking `s`. */
  function Distinct<T(==)>(s: seq<T>): (r: seq<T>)
    ensures NoDup(r)
    ensures forall i :: 0 <= i < |r| ==> r[i] in s
    ensures forall i :: 0 <= i < |s| ==> s[i] in r
  {
    if s == [] then []
    else
      var d := Distinct(s[..|s| - 1]);
      assert s == s[..|s| - 1] + [s[|s| - 1]];
      if s[|s| - 1] in d then d else d + [s[|s| - 1]]
  }

  /** Appending an element adds it to the distinct elements exactly when it is new. */
  lemma DistinctSnoc<T>(s: seq<T>, x: T)
    ensures Distinct(s + [x]) == if x in s then Distinct(s) else Distinct(s) + [x]
  {
    assert (s + [x])[..|s|] == s;
  }

  lemma MapAppend<T, U>(s: seq<T>, t: seq<T>, f: T -> U)
    ensures Map(s + t, f) == Map(s, f) + Map(t, f)
  {
    var l, r := Map(s + t, f), Map(s, f) + Map(t, f);
    assert |l| == |r|;
    forall i | 0 <= i < |l| ensures l[i] == r[i] {
      if i < |s| {
        assert (s + t)[i] == s[i];
      } else {
        assert (s + t)[i] == t[i - |s|];
      }
    }
  }

  /** Walking one more element: the distinct keys grow by the key of `x` exactly when it is new. */
  lemma DistinctMapSnoc<T, K>(s: seq<T>, x: T, f: T -> K)
    ensures var keys := Distinct(Map(s, f));
      Distinct(Map(s + [x], f)) == if f(x) in keys then keys else keys + [f(x)]
  {
    var ks := Map(s, f);
    MapAppend(s, [x], f);
    assert Map(s + [x], f) == ks + [f(x)];
    DistinctSnoc(ks, f(x));
    if f(x) in ks {
      var j :| 0 <= j < |ks| && ks[j] == f(x);
      assert ks[j] in Distinct(ks);
    }
  }

  lemma MapFilterSnoc<T, K>(s: seq<T>, x: T, p: T -> bool, f: T -> K)
    ensures Map(Filter(s + [x], p), f) == Map(Filter(s, p), f) + if p(x) then [f(x)] else []
  {
    FilterAppend(s, [x], p);
    var kept := Filter(s, p);
    var last := Filter([x], p);
    assert [x][1..] == [];
    MapAppend(kept, last, f);
    if p(x) {
      assert last == [x];
      assert Map(last, f) == [f(x)];
    } else {
      assert last == [];
    }
  }

  /** Walking one more element: the distinct keys of the selected elements grow by the key of
      `x` exactly when `x` is selected and its key is new. */
  lemma DistinctKeysSnoc<T, K>(s: seq<T>, x: T, p: T -> bool, f: T -> K)
    ensures var d := Distinct(Map(Filter(s, p), f));
      Distinct(Map(Filter(s + [x], p), f)) == if !p(x) || f(x) in d then d else d + [f(x)]
  {
    MapFilterSnoc(s, x, p, f);
    var keys := Map(Filter(s, p), f);
    if p(x) {
      DistinctSnoc(keys, f(x));
    } else {
      assert keys + [] == keys;
    }
  }

  /** In a sequence without repetitions every element occurs at most once. */
  lemma {:induction false} NoDupMultiset<T>(s: seq<T>, x: T)
    requires NoDup(s)
    ensures multiset(s)[x] <= 1
  {
    if s != [] {
      assert s == [s[0]] + s[1..];
      assert NoDup(s[1..]);
      NoDupMultiset(s[1..], x);
      if s[0] == x {
        assert x !in s[1..];
      }
    }
  }

  /** Two positions holding the same element make it occur at least twice. */
  lemma RepeatMultiset<T>(s: seq<T>, i: nat, j: nat)
    requires i < j < |s| && s[i] == s[j]
    ensures multiset(s)[s[i]] >= 2
  {
    assert s == s[..i] + [s[i]] + s[i + 1..j] + [s[j]] + s[j + 1..];
  }

  /** Where an element of a permutation sits in the original. */
  lemma PermutationIndex<T>(s: seq<T>, t: seq<T>, i: nat) returns (k: nat)
    requires multiset(s) == multiset(t) && i < |t|
    ensures k < |s| && s[k] == t[i]
  {
    assert t[i] in multiset(t);
    assert t[i] in s;
    k :| 0 <= k < |s| && s[k] == t[i];
  }

  lemma NoDupPermutation<T>(s: seq<T>, t: seq<T>)
    requires NoDup(s) && multiset(s) == multiset(t)
    ensures NoDup(t)
  {
    forall i, j | 0 <= i < j < |t| ensures t[i] != t[j] {
      if t[i] == t[j] {
        RepeatMultiset(t, i, j);
        NoDupMultiset(s, t[i]);
      }
    }
  }

  /** Position of the first occurrence of `x` in `s`. */
  function FirstIndex<T(==)>(s: seq<T>, x: T): (i: nat)
    requires x in s
    ensures i < |s| && s[i] == x && x !in s[..i]
  {
    if s[0] == x then 0 else 1 + FirstIndex(s[1..], x)
  }

  lemma {:induction false} FirstIndexPrefix<T>(s: seq<T>, t: seq<T>, x: T)
    requires x in s
    ensures x in s + t && FirstIndex(s + t, x) == FirstIndex(s, x)
  {
    assert (s + t)[0] == s[0];
    if s[0] != x {
      assert (s + t)[1..] == s[1..] + t;
      FirstIndexPrefix(s[1..], t, x);
    }
  }

  lemma {:induction false} FirstIndexNew<T>(s: seq<T>, x: T)
    requires x !in s
    ensures x in s + [x] && FirstIndex(s + [x], x) == |s|
  {
    if s != [] {
      assert (s + [x])[1..] == s[1..] + [x];
      FirstIndexNew(s[1..], x);
    }
  }

  /** Distinct lists elements in the order of their first occurrence in `s`. */
  lemma {:induction false} DistinctFirstOccurrenceOrder<T>(s: seq<T>)
    ensures forall i, j :: 0 <= i < j < |Distinct(s)| ==>
      FirstIndex(s, Distinct(s)[i]) < FirstIndex(s, Distinct(s)[j])
  {
    if s != [] {
      var init := s[..|s| - 1];
      var x := s[|s| - 1];
      DistinctFirstOccurrenceOrder(init);
      var d := Distinct(init);
      assert s == init + [x];
      forall y | y in d
        ensures y in s && FirstIndex(s, y) == FirstIndex(init, y) < |init|
      {
        FirstIndexPrefix(init, [x], y);
      }
      if x !in d {
        FirstIndexNew(init, x);
      }
    }
  }

  /** For keys listed without repetition, the number of keys equal to `v` is 1 if `v` is listed, else 0. */
  function Hits<K(==)>(keys: seq<K>, v: K): nat
  {
    if keys == [] then 0 else (if keys[0] == v then 1 else 0) + Hits(keys[1..], v)
  }

  lemma {:induction false} HitsNoDup<K>(keys: seq<K>, v: K)
    requires NoDup(keys)
    ensures Hits(keys, v) == if v in keys then 1 else 0
  {
    if keys != [] {
      assert NoDup(keys[1..]);
      HitsNoDup(keys[1..], v);
      if keys[0] == v {
        assert v !in keys[1..];
      }
    }
  }

  /** Sum over `keys` of how many elements of `s` have each key. */
  function CountPerKey<T, K(==)>(keys: seq<K>, s: seq<T>, f: T -> K): nat
  {
    if keys == [] then 0 else CountKey(s, f, keys[0]) + CountPerKey(keys[1..], s, f)
  }

  lemma {:induction false} CountPerKeyAppend<T, K>(keys: seq<K>, s: seq<T>, x: T, f: T -> K)
    ensures CountPerKey(keys, s + [x], f) == CountPerKey(keys, s, f) + Hits(keys, f(x))
  {
    if keys != [] {
      CountKeyAppend(s, [x], f, keys[0]);
      CountPerKeyAppend(keys[1..], s, x, f);
    }
  }

  /** Grouping by a key loses and duplicates nothing: when every element's key is listed once
      in `keys`, the per-key counts add up to the number of elements. */
  lemma {:induction false} PartitionCount<T, K>(keys: seq<K>, s: seq<T>, f: T -> K)
    requires NoDup(keys)
    requires forall x :: x in s ==> f(x) in keys
    ensures CountPerKey(keys, s, f) == |s|
  {
    if s == [] {
      ZeroCounts(keys, f);
    } else {
      var init := s[..|s| - 1];
      var x := s[|s| - 1];
      assert s == init + [x];
      PartitionCount(keys, init, f);
      CountPerKeyAppend(keys, init, x, f);
      HitsNoDup(keys, f(x));
    }
  }

  /** Summing a per-key count over rows built one per key is the per-key count. */
  lemma {:induction false} SumOfKeyedCounts<T, K, U>(keys: seq<K>, s: seq<T>, f: T -> K, mk: K -> U, cnt: U -> real)
    requires forall i :: 0 <= i < |keys| ==> cnt(mk(keys[i])) == CountKey(s, f, keys[i]) as real
    ensures Sum(Map(keys, mk), cnt) == CountPerKey(keys, s, f) as real
  {
    if keys != [] {
      assert Map(keys, mk)[1..] == Map(keys[1..], mk);
      SumOfKeyedCounts(keys[1..], s, f, mk, cnt);
    }
  }

  /** The sum of `f` over the elements that satisfy `p`: `s.filter(p)` summed, computed in
      one pass the way a reducer adds to a running total. */
  function SumWhere<T>(s: seq<T>, p: T -> bool, f: T -> real): real
  {
    if s == [] then 0.0 else (if p(s[0]) then f(s[0]) else 0.0) + SumWhere(s[1..], p, f)
  }

  lemma {:induction false} SumWhereIsFilterSum<T>(s: seq<T>, p: T -> bool, f: T -> real)
    ensures SumWhere(s, p, f) == Sum(Filter(s, p), f)
  {
    if s != [] {
      SumWhereIsFilterSum(s[1..], p, f);
      var head := if p(s[0]) then [s[0]] else [];
      assert Filter(s, p) == head + Filter(s[1..], p);
      SumAppend(head, Filter(s[1..], p), f);
      assert Sum(head, f) == if p(s[0]) then f(s[0]) else 0.0 by {
        if p(s[0]) { assert head[1..] == []; }
      }
    }
  }

  lemma {:induction false} SumWhereNone<T>(s: seq<T>, p: T -> bool, f: T -> real)
    requires forall i :: 0 <= i < |s| ==> !p(s[i])
    ensures SumWhere(s, p, f) == 0.0
  {
    if s != [] {
      SumWhereNone(s[1..], p, f);
    }
  }

  /** One more element adds its value when it satisfies `p`. */
  lemma {:induction false} SumWhereSnoc<T>(s: seq<T>, x: T, p: T -> bool, f: T -> real)
    ensures SumWhere(s + [x], p, f) == SumWhere(s, p, f) + (if p(x) then f(x) else 0.0)
  {
    if s == [] {
      assert [x][1..] == [];
    } else {
      assert (s + [x])[1..] == s[1..] + [x];
      SumWhereSnoc(s[1..], x, p, f);
    }
  }

  lemma {:induction false} ZeroCounts<T, K>(keys: seq<K>, f: T -> K)
    ensures CountPerKey(keys, [], f) == 0
  {
    if keys != [] {
      ZeroCounts(keys[1..], f);
    }
  }

  /** `s.slice(start, end)` with JavaScript's rules: a negative index counts from the end,
      indexes are clamped to `[0, |s|]`, and an empty range gives `[]`. */
  function JsSlice<T>(s: seq<T>, start: int, end: int): (r: seq<T>)
    ensures |r| <= |s|
  {
    var from := SliceIndex(|s|, start);
    var to := SliceIndex(|s|, end);
    if from < to then s[from..to] else []
  }

  function SliceIndex(len: nat, i: int): (k: nat)
    ensures k <= len
  {
    if i < 0 then (if len + i < 0 then 0 else len + i) else (if i < len then i else len)
  }

  /** `s.slice(0, n)` for a non-negative `n` keeps the first `min(n, |s|)` elements. */
  lemma JsSliceSubMultiset<T>(s: seq<T>, start: int, end: int)
    ensures multiset(JsSlice(s, start, end)) <= multiset(s)
  {
    var from, to := SliceIndex(|s|, start), SliceIndex(|s|, end);
    if from < to {
      assert s == s[..from] + s[from..to] + s[to..];
    }
  }

  lemma JsSliceTake<T>(s: seq<T>, n: nat)
    ensures JsSlice(s, 0, n) == s[..if n < |s| then n else |s|]
  {
  }
}
