/** Text search and the list filters over enriched orders (src/lib/utils/search.ts). */
module Search {
  import opened Wrappers
  import opened Types
  import opened Seqs
  import opened Sorting
  import opened Text

  // ---------------------------------------------------------------- search

  /** The query (already lower-cased and trimmed) occurs in one of the five searched fields,
      each lower-cased; an absent order id matches nothing. */
  predicate MatchesQuery(w: OrderWithMetrics, key: string)
  {
    || Contains(ToLower(w.order.songName), key)
    || Contains(ToLower(w.order.songArtist), key)
    || Contains(ToLower(w.order.songCategory), key)
    || (w.order.orderId.Some? && Contains(ToLower(w.order.orderId.value), key))
    || Contains(ToLower(w.order.orderNo), key)
  }

  function QueryTest(key: string): OrderWithMetrics -> bool
  {
    w => MatchesQuery(w, key)
  }

  /** The search key: the query lower-cased, then trimmed. */
  function SearchKey(query: string): string
  {
    Trim(ToLower(query))
  }

  /** `searchOrders`: a blank query returns the list as it is; otherwise exactly the orders that
      match the key stay, in their order. */
  function SearchOrders(orders: seq<OrderWithMetrics>, query: string): (r: seq<OrderWithMetrics>)
    ensures Trim(query) == "" ==> r == orders
    ensures Trim(query) != "" ==>
      && (forall i :: 0 <= i < |r| ==> MatchesQuery(r[i], SearchKey(query)))
      && (forall i :: 0 <= i < |orders| && MatchesQuery(orders[i], SearchKey(query)) ==> orders[i] in r)
    ensures IsSubseq(r, orders)
    ensures r == Filter(orders, QueryTest(SearchKey(query)))
  {
    FilterIsSubseq(orders, QueryTest(SearchKey(query)));
    SubseqRefl(orders);
    if Trim(query) == "" then
      BlankQueryMatchesAll(orders, query);
      orders
    else
      Filter(orders, QueryTest(SearchKey(query)))
  }

  /** A blank query yields an empty key, and the empty key occurs in every field. */
  lemma BlankQueryMatchesAll(orders: seq<OrderWithMetrics>, query: string)
    requires Trim(query) == ""
    ensures Filter(orders, QueryTest(SearchKey(query))) == orders
  {
    TrimEmptyIff(query);
    TrimEmptyIff(ToLower(query));
    forall i | 0 <= i < |query| ensures IsJsSpace(ToLower(query)[i]) {
      assert IsJsSpace(query[i]);
    }
    assert SearchKey(query) == "";
    forall w | w in orders ensures QueryTest("")(w) {
      assert StartsWith(ToLower(w.order.songName), "");
    }
    FilterAll(orders, QueryTest(SearchKey(query)));
  }

  /** The search ignores upper/lower case in the query. */
  lemma SearchCaseInsensitive(orders: seq<OrderWithMetrics>, query: string)
    ensures SearchOrders(orders, ToLower(query)) == SearchOrders(orders, query)
  {
    ToLowerIdempotent(query);
  }

  // ---------------------------------------------------------------- list filters

  predicate TypeListed(w: OrderWithMetrics, types: seq<string>)
  {
    w.order.orderType.Label() in types
  }

  function TypeTest(types: seq<string>): OrderWithMetrics -> bool
  {
    w => TypeListed(w, types)
  }

  /** `filterByOrderType`: an empty list keeps everything; otherwise the orders whose type label
      is listed. The list holds strings, so an unknown entry matches nothing. */
  function FilterByOrderType(orders: seq<OrderWithMetrics>, types: seq<string>): (r: seq<OrderWithMetrics>)
    ensures types == [] ==> r == orders
    ensures types != [] ==>
      && (forall i :: 0 <= i < |r| ==> r[i].order.orderType.Label() in types)
      && (forall i :: 0 <= i < |orders| && orders[i].order.orderType.Label() in types ==> orders[i] in r)
      && r == Filter(orders, TypeTest(types))
    ensures IsSubseq(r, orders)
  {
    SubseqRefl(orders);
    FilterIsSubseq(orders, TypeTest(types));
    if |types| == 0 then orders else Filter(orders, TypeTest(types))
  }

  function SignalTest(signals: seq<Signal>): OrderWithMetrics -> bool
  {
    (w: OrderWithMetrics) => w.signal in signals
  }

  /** `filterBySignal`: an empty list keeps everything; otherwise the orders whose signal is listed. */
  function FilterBySignal(orders: seq<OrderWithMetrics>, signals: seq<Signal>): (r: seq<OrderWithMetrics>)
    ensures signals == [] ==> r == orders
    ensures signals != [] ==>
      && (forall i :: 0 <= i < |r| ==> r[i].signal in signals)
      && (forall i :: 0 <= i < |orders| && orders[i].signal in signals ==> orders[i] in r)
      && r == Filter(orders, SignalTest(signals))
    ensures IsSubseq(r, orders)
  {
    SubseqRefl(orders);
    FilterIsSubseq(orders, SignalTest(signals));
    if |signals| == 0 then orders else Filter(orders, SignalTest(signals))
  }

  function CategoryTest(categories: seq<string>): OrderWithMetrics -> bool
  {
    (w: OrderWithMetrics) => w.order.songCategory in categories
  }

  /** `filterByCategory`: an empty list keeps everything; otherwise the orders whose category is listed. */
  function FilterByCategory(orders: seq<OrderWithMetrics>, categories: seq<string>): (r: seq<OrderWithMetrics>)
    ensures categories == [] ==> r == orders
    ensures categories != [] ==>
      && (forall i :: 0 <= i < |r| ==> r[i].order.songCategory in categories)
      && (forall i :: 0 <= i < |orders| && orders[i].order.songCategory in categories ==> orders[i] in r)
      && r == Filter(orders, CategoryTest(categories))
    ensures IsSubseq(r, orders)
  {
    SubseqRefl(orders);
    FilterIsSubseq(orders, CategoryTest(categories));
    if |categories| == 0 then orders else Filter(orders, CategoryTest(categories))
  }

  // ---------------------------------------------------------------- range filters

  predicate InRange(w: OrderWithMetrics, m: Metric, min: real, max: real)
  {
    min <= MetricOf(w, m) <= max
  }

  function RangeTest(m: Metric, min: real, max: real): OrderWithMetrics -> bool
  {
    w => InRange(w, m, min, max)
  }

  /** `filterBySpreadRange`, `filterByYieldRange` and `filterByLiquidityRange`: the orders whose
      metric lies in the closed range `[min, max]`, in their order. */
  function FilterByRange(orders: seq<OrderWithMetrics>, m: Metric, min: real, max: real): (r: seq<OrderWithMetrics>)
    ensures forall i :: 0 <= i < |r| ==> min <= MetricOf(r[i], m) <= max
    ensures forall i :: 0 <= i < |orders| && min <= MetricOf(orders[i], m) <= max ==> orders[i] in r
    ensures forall x :: multiset(r)[x] == if InRange(x, m, min, max) then multiset(orders)[x] else 0
    ensures IsSubseq(r, orders)
    ensures min > max ==> r == []
  {
    FilterIsSubseq(orders, RangeTest(m, min, max));
    FilterCounts(orders, RangeTest(m, min, max));
    Filter(orders, RangeTest(m, min, max))
  }

  /** The default threshold of `filterByLargeOrders`. */
  const DefaultLargeOrderThreshold: real := 100.0

  function LargeTest(threshold: real): OrderWithMetrics -> bool
  {
    (w: OrderWithMetrics) => QuantityOrCount(w.order) >= threshold
  }

  /** `filterByLargeOrders`: the orders whose quantity, or their count when the quantity is 0 or
      absent, reaches the threshold. */
  function FilterByLargeOrders(orders: seq<OrderWithMetrics>, threshold: real): (r: seq<OrderWithMetrics>)
    ensures forall i :: 0 <= i < |r| ==> QuantityOrCount(r[i].order) >= threshold
    ensures forall i :: 0 <= i < |orders| && QuantityOrCount(orders[i].order) >= threshold ==> orders[i] in r
    ensures forall x :: multiset(r)[x] == if QuantityOrCount(x.order) >= threshold then multiset(orders)[x] else 0
    ensures IsSubseq(r, orders)
  {
    FilterIsSubseq(orders, LargeTest(threshold));
    FilterCounts(orders, LargeTest(threshold));
    Filter(orders, LargeTest(threshold))
  }

  // ---------------------------------------------------------------- combined filters

  /** `FilterOptions`: every filter is optional. An absent or `false` `largeOrdersOnly` is `false`. */
  datatype Range = Range(min: real, max: real)
  datatype FilterOptions = FilterOptions(
    searchQuery: Option<string>,
    orderTypes: Option<seq<string>>,
    signals: Option<seq<Signal>>,
    spreadRange: Option<Range>,
    yieldRange: Option<Range>,
    liquidityRange: Option<Range>,
    categories: Option<seq<string>>,
    largeOrdersOnly: bool,
    largeOrderThreshold: Option<real>)

  /** What `applyFilters` promises of the orders it keeps, one test per option: an absent option,
      an empty list or an empty query admits every order. */
  predicate PassesSearch(o: FilterOptions, w: OrderWithMetrics)
  {
    o.searchQuery.None? || MatchesQuery(w, SearchKey(o.searchQuery.value))
  }
  predicate PassesTypes(o: FilterOptions, w: OrderWithMetrics)
  {
    o.orderTypes.None? || o.orderTypes.value == [] || TypeListed(w, o.orderTypes.value)
  }
  predicate PassesSignals(o: FilterOptions, w: OrderWithMetrics)
  {
    o.signals.None? || o.signals.value == [] || w.signal in o.signals.value
  }
  predicate PassesRange(r: Option<Range>, m: Metric, w: OrderWithMetrics)
  {
    r.None? || InRange(w, m, r.value.min, r.value.max)
  }
  predicate PassesCategories(o: FilterOptions, w: OrderWithMetrics)
  {
    o.categories.None? || o.categories.value == [] || w.order.songCategory in o.categories.value
  }
  predicate PassesLarge(o: FilterOptions, w: OrderWithMetrics)
  {
    !o.largeOrdersOnly || QuantityOrCount(w.order) >= o.largeOrderThreshold.GetOr(DefaultLargeOrderThreshold)
  }

  predicate Admits(o: FilterOptions, w: OrderWithMetrics)
  {
    && PassesSearch(o, w) && PassesTypes(o, w) && PassesSignals(o, w)
    && PassesRange(o.spreadRange, SpreadRateMetric, w)
    && PassesRange(o.yieldRange, ExpectedYieldMetric, w)
    && PassesRange(o.liquidityRange, LiquidityScoreMetric, w)
    && PassesCategories(o, w) && PassesLarge(o, w)
  }

  function AdmitsTest(o: FilterOptions): OrderWithMetrics -> bool
  {
    w => Admits(o, w)
  }

  /** The test of the `k`-th filter of `applyFilters` (1 to 8, in the order they run). */
  predicate PassesStage(o: FilterOptions, k: nat, w: OrderWithMetrics)
  {
    if k == 1 then PassesSearch(o, w)
    else if k == 2 then PassesTypes(o, w)
    else if k == 3 then PassesSignals(o, w)
    else if k == 4 then PassesRange(o.spreadRange, SpreadRateMetric, w)
    else if k == 5 then PassesRange(o.yieldRange, ExpectedYieldMetric, w)
    else if k == 6 then PassesRange(o.liquidityRange, LiquidityScoreMetric, w)
    else if k == 7 then PassesCategories(o, w)
    else if k == 8 then PassesLarge(o, w)
    else true
  }

  /** Passing the first `k` filters. */
  predicate PassesFirst(o: FilterOptions, k: nat, w: OrderWithMetrics)
  {
    && (k >= 1 ==> PassesSearch(o, w))
    && (k >= 2 ==> PassesTypes(o, w))
    && (k >= 3 ==> PassesSignals(o, w))
    && (k >= 4 ==> PassesRange(o.spreadRange, SpreadRateMetric, w))
    && (k >= 5 ==> PassesRange(o.yieldRange, ExpectedYieldMetric, w))
    && (k >= 6 ==> PassesRange(o.liquidityRange, LiquidityScoreMetric, w))
    && (k >= 7 ==> PassesCategories(o, w))
    && (k >= 8 ==> PassesLarge(o, w))
  }

  function StageTest(o: FilterOptions, k: nat): OrderWithMetrics -> bool
  {
    w => PassesStage(o, k, w)
  }

  function FirstTest(o: FilterOptions, k: nat): OrderWithMetrics -> bool
  {
    w => PassesFirst(o, k, w)
  }

  /** Running the `k`-th filter on the result of the first `k - 1` gives the result of the first `k`. */
  lemma Advance(orders: seq<OrderWithMetrics>, before: seq<OrderWithMetrics>, o: FilterOptions, k: nat)
    requires 1 <= k <= 8 && before == Filter(orders, FirstTest(o, k - 1))
    ensures Filter(before, StageTest(o, k)) == Filter(orders, FirstTest(o, k))
  {
    FilterFilter(orders, FirstTest(o, k - 1), StageTest(o, k), FirstTest(o, k));
  }

  lemma SearchStep(cur: seq<OrderWithMetrics>, o: FilterOptions)
    ensures (if o.searchQuery.Some? && o.searchQuery.value != "" then SearchOrders(cur, o.searchQuery.value) else cur)
      == Filter(cur, StageTest(o, 1))
  {
    if o.searchQuery.None? {
      FilterAll(cur, StageTest(o, 1));
    } else {
      if o.searchQuery.value == "" {
        BlankQueryMatchesAll(cur, "");
      }
      FilterCongruent(cur, StageTest(o, 1), QueryTest(SearchKey(o.searchQuery.value)));
    }
  }

  lemma TypesStep(cur: seq<OrderWithMetrics>, o: FilterOptions)
    ensures (if o.orderTypes.Some? && |o.orderTypes.value| > 0 then FilterByOrderType(cur, o.orderTypes.value) else cur)
      == Filter(cur, StageTest(o, 2))
  {
    if o.orderTypes.Some? && |o.orderTypes.value| > 0 {
      FilterCongruent(cur, TypeTest(o.orderTypes.value), StageTest(o, 2));
    } else {
      FilterAll(cur, StageTest(o, 2));
    }
  }

  lemma SignalsStep(cur: seq<OrderWithMetrics>, o: FilterOptions)
    ensures (if o.signals.Some? && |o.signals.value| > 0 then FilterBySignal(cur, o.signals.value) else cur)
      == Filter(cur, StageTest(o, 3))
  {
    if o.signals.Some? && |o.signals.value| > 0 {
      FilterCongruent(cur, SignalTest(o.signals.value), StageTest(o, 3));
    } else {
      FilterAll(cur, StageTest(o, 3));
    }
  }

  lemma RangeStep(cur: seq<OrderWithMetrics>, o: FilterOptions, k: nat, r: Option<Range>, m: Metric)
    requires (k == 4 && r == o.spreadRange && m == SpreadRateMetric)
          || (k == 5 && r == o.yieldRange && m == ExpectedYieldMetric)
          || (k == 6 && r == o.liquidityRange && m == LiquidityScoreMetric)
    ensures (if r.Some? then FilterByRange(cur, m, r.value.min, r.value.max) else cur)
      == Filter(cur, StageTest(o, k))
  {
    if r.Some? {
      FilterCongruent(cur, RangeTest(m, r.value.min, r.value.max), StageTest(o, k));
    } else {
      FilterAll(cur, StageTest(o, k));
    }
  }

  lemma CategoriesStep(cur: seq<OrderWithMetrics>, o: FilterOptions)
    ensures (if o.categories.Some? && |o.categories.value| > 0 then FilterByCategory(cur, o.categories.value) else cur)
      == Filter(cur, StageTest(o, 7))
  {
    if o.categories.Some? && |o.categories.value| > 0 {
      FilterCongruent(cur, CategoryTest(o.categories.value), StageTest(o, 7));
    } else {
      FilterAll(cur, StageTest(o, 7));
    }
  }

  lemma LargeStep(cur: seq<OrderWithMetrics>, o: FilterOptions)
    ensures (if o.largeOrdersOnly then FilterByLargeOrders(cur, o.largeOrderThreshold.GetOr(DefaultLargeOrderThreshold)) else cur)
      == Filter(cur, StageTest(o, 8))
  {
    if o.largeOrdersOnly {
      FilterCongruent(cur, LargeTest(o.largeOrderThreshold.GetOr(DefaultLargeOrderThreshold)), StageTest(o, 8));
    } else {
      FilterAll(cur, StageTest(o, 8));
    }
  }

  /** `applyFilters`: starting from a copy of the list, each enabled filter narrows the current
      result in turn. The result is the list of orders that pass every enabled test, in their
      input order. */
  method ApplyFilters(orders: seq<OrderWithMetrics>, options: FilterOptions) returns (filtered: seq<OrderWithMetrics>)
    ensures filtered == Filter(orders, AdmitsTest(options))
    ensures IsSubseq(filtered, orders)
    ensures forall i :: 0 <= i < |filtered| ==> Admits(options, filtered[i])
    ensures forall i :: 0 <= i < |orders| && Admits(options, orders[i]) ==> orders[i] in filtered
  {
    filtered := orders;
    FilterAll(orders, FirstTest(options, 0));
    filtered := RunStage(orders, filtered, options, 1);
    filtered := RunStage(orders, filtered, options, 2);
    filtered := RunStage(orders, filtered, options, 3);
    filtered := RunStage(orders, filtered, options, 4);
    filtered := RunStage(orders, filtered, options, 5);
    filtered := RunStage(orders, filtered, options, 6);
    filtered := RunStage(orders, filtered, options, 7);
    filtered := RunStage(orders, filtered, options, 8);
    AllStagesAdmit(orders, options);
  }

  /** The `k`-th filter of `applyFilters`, applied to the result of the first `k - 1` when its
      option is set. */
  method RunStage(orders: seq<OrderWithMetrics>, cur: seq<OrderWithMetrics>, o: FilterOptions, k: nat)
    returns (next: seq<OrderWithMetrics>)
    requires 1 <= k <= 8 && cur == Filter(orders, FirstTest(o, k - 1))
    ensures next == Filter(orders, FirstTest(o, k))
  {
    Advance(orders, cur, o, k);
    next := cur;
    if k == 1 {
      if o.searchQuery.Some? && o.searchQuery.value != "" {
        next := SearchOrders(cur, o.searchQuery.value);
      }
      SearchStep(cur, o);
    } else if k == 2 {
      if o.orderTypes.Some? && |o.orderTypes.value| > 0 {
        next := FilterByOrderType(cur, o.orderTypes.value);
      }
      TypesStep(cur, o);
    } else if k == 3 {
      if o.signals.Some? && |o.signals.value| > 0 {
        next := FilterBySignal(cur, o.signals.value);
      }
      SignalsStep(cur, o);
    } else if k == 4 {
      if o.spreadRange.Some? {
        next := FilterByRange(cur, SpreadRateMetric, o.spreadRange.value.min, o.spreadRange.value.max);
      }
      RangeStep(cur, o, 4, o.spreadRange, SpreadRateMetric);
    } else if k == 5 {
      if o.yieldRange.Some? {
        next := FilterByRange(cur, ExpectedYieldMetric, o.yieldRange.value.min, o.yieldRange.value.max);
      }
      RangeStep(cur, o, 5, o.yieldRange, ExpectedYieldMetric);
    } else if k == 6 {
      if o.liquidityRange.Some? {
        next := FilterByRange(cur, LiquidityScoreMetric, o.liquidityRange.value.min, o.liquidityRange.value.max);
      }
      RangeStep(cur, o, 6, o.liquidityRange, LiquidityScoreMetric);
    } else if k == 7 {
      if o.categories.Some? && |o.categories.value| > 0 {
        next := FilterByCategory(cur, o.categories.value);
      }
      CategoriesStep(cur, o);
    } else {
      if o.largeOrdersOnly {
        next := FilterByLargeOrders(cur, o.largeOrderThreshold.GetOr(DefaultLargeOrderThreshold));
      }
      LargeStep(cur, o);
    }
  }

  /** Passing all eight filters is being admitted. */
  lemma AllStagesAdmit(orders: seq<OrderWithMetrics>, o: FilterOptions)
    ensures Filter(orders, FirstTest(o, 8)) == Filter(orders, AdmitsTest(o))
    ensures var r := Filter(orders, AdmitsTest(o));
      && IsSubseq(r, orders)
      && (forall i :: 0 <= i < |r| ==> Admits(o, r[i]))
      && (forall i :: 0 <= i < |orders| && Admits(o, orders[i]) ==> orders[i] in r)
  {
    FilterCongruent(orders, FirstTest(o, 8), AdmitsTest(o));
    FilterIsSubseq(orders, AdmitsTest(o));
  }

  /** With no option set nothing is filtered out. */
  lemma NoOptionsKeepAll(orders: seq<OrderWithMetrics>)
    ensures Filter(orders, AdmitsTest(FilterOptions(None, None, None, None, None, None, None, false, None))) == orders
  {
    FilterAll(orders, AdmitsTest(FilterOptions(None, None, None, None, None, None, None, false, None)));
  }

  // ---------------------------------------------------------------- unique values

  /** Walks the orders and adds each value not seen yet, as filling a `Set` does. */
  method CollectDistinct<K(==)>(orders: seq<OrderWithMetrics>, key: OrderWithMetrics -> K) returns (seen: seq<K>)
    ensures seen == Distinct(Map(orders, key))
  {
    seen := [];
    for i := 0 to |orders|
      invariant seen == Distinct(Map(orders[..i], key))
    {
      var all := Map(orders[..i + 1], key);
      assert all[..i] == Map(orders[..i], key);
      assert all[i] == key(orders[i]);
      if key(orders[i]) !in seen {
        seen := seen + [key(orders[i])];
      }
    }
    assert orders[..|orders|] == orders;
  }

  /** `getUniqueSignals`: each signal that occurs, once, in order of first occurrence. */
  method UniqueSignals(orders: seq<OrderWithMetrics>) returns (r: seq<Signal>)
    ensures NoDup(r)
    ensures forall i :: 0 <= i < |orders| ==> orders[i].signal in r
    ensures forall i :: 0 <= i < |r| ==> exists j :: 0 <= j < |orders| && orders[j].signal == r[i]
    ensures r == Distinct(Map(orders, SignalOf))
  {
    r := CollectDistinct(orders, SignalOf);
    var sigs := Map(orders, SignalOf);
    forall i | 0 <= i < |orders| ensures orders[i].signal in r {
      assert sigs[i] == orders[i].signal;
    }
    forall i | 0 <= i < |r| ensures exists j :: 0 <= j < |orders| && orders[j].signal == r[i] {
      var j :| 0 <= j < |sigs| && sigs[j] == r[i];
      assert orders[j].signal == r[i];
    }
  }

  /** The comparator of the default `sort()` on strings. */
  function StringCompare(a: string, b: string): real
  {
    if LexLess(a, b) then -1.0 else if a == b then 0.0 else 1.0
  }

  lemma StringCompareIsPreorder()
    ensures TotalPreorder(StringCompare)
  {
    forall a: string, b: string ensures StringCompare(a, b) <= 0.0 || StringCompare(b, a) <= 0.0 {
      LexLessTotal(a, b);
    }
    forall a: string, b: string, c: string | StringCompare(a, b) <= 0.0 && StringCompare(b, c) <= 0.0
      ensures StringCompare(a, c) <= 0.0
    {
      if a != b && b != c {
        LexLessTransitive(a, b, c);
      }
    }
  }

  /** Each string comes strictly before every later one. */
  predicate StrictlyAscending(r: seq<string>)
  {
    forall i, j :: 0 <= i < j < |r| ==> LexLess(r[i], r[j])
  }

  /** Sorting distinct strings with the default string order puts them in strictly ascending order. */
  lemma SortDistinctStrings(seen: seq<string>)
    requires NoDup(seen)
    ensures StrictlyAscending(SortWith(seen, StringCompare))
  {
    var r := SortWith(seen, StringCompare);
    StringCompareIsPreorder();
    SortWithOrdered(seen, StringCompare);
    NoDupPermutation(seen, r);
    forall i, j | 0 <= i < j < |r| ensures LexLess(r[i], r[j]) {
      StringCompareBefore(r[i], r[j]);
    }
  }

  lemma StringCompareBefore(a: string, b: string)
    requires StringCompare(a, b) <= 0.0 && a != b
    ensures LexLess(a, b)
  {
  }

  /** The distinct keys of a list are exactly the keys its elements carry. */
  lemma DistinctKeys<K>(orders: seq<OrderWithMetrics>, key: OrderWithMetrics -> K, r: seq<K>)
    requires multiset(r) == multiset(Distinct(Map(orders, key)))
    ensures forall i :: 0 <= i < |orders| ==> key(orders[i]) in r
    ensures forall i :: 0 <= i < |r| ==> exists j :: 0 <= j < |orders| && key(orders[j]) == r[i]
  {
    var ks := Map(orders, key);
    var d := Distinct(ks);
    forall i | 0 <= i < |orders| ensures key(orders[i]) in r {
      assert ks[i] == key(orders[i]);
      assert ks[i] in multiset(d);
    }
    forall i | 0 <= i < |r| ensures exists j :: 0 <= j < |orders| && key(orders[j]) == r[i] {
      assert r[i] in multiset(d);
      var j :| 0 <= j < |ks| && ks[j] == r[i];
      assert key(orders[j]) == r[i];
    }
  }

  /** `getUniqueCategories`: each category that occurs, once, in ascending string order. */
  method UniqueCategories(orders: seq<OrderWithMetrics>) returns (r: seq<string>)
    ensures StrictlyAscending(r)
    ensures forall i :: 0 <= i < |orders| ==> orders[i].order.songCategory in r
    ensures forall i :: 0 <= i < |r| ==> exists j :: 0 <= j < |orders| && orders[j].order.songCategory == r[i]
  {
    var seen := CollectDistinct(orders, CategoryOf);
    r := SortWith(seen, StringCompare);
    SortDistinctStrings(seen);
    DistinctKeys(orders, CategoryOf, r);
  }
}
