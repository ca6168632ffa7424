/** The category analysis page (src/app/dashboard/category/page.tsx): a tally per category,
    filled by walking the orders, turned into one row per category with the averages, most
    orders first. */
module CategoryPage {
  import opened Wrappers
  import opened Types
  import opened Seqs
  import opened Sorting

  /** The group of an order without a category. */
  const Other: string := "기타"

  /** `order.song_category || '기타'`. */
  function GroupOf(w: OrderWithMetrics): string
  {
    if w.order.songCategory == "" then Other else w.order.songCategory
  }

  function InGroup(c: string): OrderWithMetrics -> bool
  {
    (w: OrderWithMetrics) => GroupOf(w) == c
  }

  function Price(w: OrderWithMetrics): real { w.order.orderPrice }
  function SpreadOf(w: OrderWithMetrics): real { w.spreadRate }
  function YieldOf(w: OrderWithMetrics): real { w.expectedYield }

  /** The counters kept under one category. */
  datatype Stats = Stats(count: nat, totalPrice: real, totalSpread: real, totalYield: real)

  /** What the counters of category `c` hold after walking `orders`. */
  function StatsOf(orders: seq<OrderWithMetrics>, c: string): Stats
  {
    var inC := InGroup(c);
    Stats(CountKey(orders, GroupOf, c), SumWhere(orders, inC, Price), SumWhere(orders, inC, SpreadOf),
          SumWhere(orders, inC, YieldOf))
  }

  const NoStats: Stats := Stats(0, 0.0, 0.0, 0.0)

  /** The counters after adding the order `w`. */
  function Bump(s: Stats, w: OrderWithMetrics): Stats
  {
    Stats(s.count + 1, s.totalPrice + Price(w), s.totalSpread + SpreadOf(w), s.totalYield + YieldOf(w))
  }

  /** The tally object: its keys in insertion order and the counters under each. */
  datatype Tally = Tally(keys: seq<string>, stats: map<string, Stats>)

  ghost predicate Tallies(t: Tally, orders: seq<OrderWithMetrics>)
  {
    && t.keys == Distinct(Map(orders, GroupOf))
    && (forall c :: c in t.stats <==> c in t.keys)
    && (forall c :: c in t.stats ==> t.stats[c] == StatsOf(orders, c))
  }

  /** The reducer for one order: create the counters on first sight, then add the order. */
  function Add(t: Tally, w: OrderWithMetrics): Tally
  {
    var c := GroupOf(w);
    var s := if c in t.stats then t.stats[c] else NoStats;
    Tally(if c in t.stats then t.keys else t.keys + [c], t.stats[c := Bump(s, w)])
  }

  /** The counters of a category yet unseen are all zero. */
  lemma UnseenIsEmpty(t: Tally, orders: seq<OrderWithMetrics>, c: string)
    requires Tallies(t, orders) && c !in t.stats
    ensures StatsOf(orders, c) == NoStats
  {
    var gs := Map(orders, GroupOf);
    forall i | 0 <= i < |orders| ensures GroupOf(orders[i]) != c {
      assert gs[i] in Distinct(gs);
    }
    CountKeyAbsent(orders, GroupOf, c);
    SumWhereNone(orders, InGroup(c), Price);
    SumWhereNone(orders, InGroup(c), SpreadOf);
    SumWhereNone(orders, InGroup(c), YieldOf);
  }

  /** Adding an order changes exactly the counters of its category, by that order. */
  lemma StatsSnoc(orders: seq<OrderWithMetrics>, w: OrderWithMetrics, c: string)
    ensures var s := StatsOf(orders, c);
      StatsOf(orders + [w], c) ==
        if GroupOf(w) == c then Bump(s, w) else s
  {
    CountKeyAppend(orders, [w], GroupOf, c);
    assert [w][1..] == [];
    SumWhereSnoc(orders, w, InGroup(c), Price);
    SumWhereSnoc(orders, w, InGroup(c), SpreadOf);
    SumWhereSnoc(orders, w, InGroup(c), YieldOf);
  }

  lemma AddStep(t: Tally, orders: seq<OrderWithMetrics>, w: OrderWithMetrics)
    requires Tallies(t, orders)
    ensures Tallies(Add(t, w), orders + [w])
  {
    DistinctMapSnoc(orders, w, GroupOf);
    var c := GroupOf(w);
    if c !in t.stats {
      UnseenIsEmpty(t, orders, c);
    }
    var t' := Add(t, w);
    forall d | d in t'.stats ensures t'.stats[d] == StatsOf(orders + [w], d) {
      CountersStep(t, orders, w, d);
    }
  }

  /** One category's counters after adding `w`. */
  lemma CountersStep(t: Tally, orders: seq<OrderWithMetrics>, w: OrderWithMetrics, d: string)
    requires forall c :: c in t.stats ==> t.stats[c] == StatsOf(orders, c)
    requires GroupOf(w) !in t.stats ==> StatsOf(orders, GroupOf(w)) == NoStats
    requires d in t.stats || d == GroupOf(w)
    ensures d in Add(t, w).stats && Add(t, w).stats[d] == StatsOf(orders + [w], d)
  {
    StatsSnoc(orders, w, d);
    if d != GroupOf(w) {
      assert Add(t, w).stats[d] == t.stats[d];
    }
  }

  /** `orders.reduce(...)`: the tally of the categories. */
  method TallyCategories(orders: seq<OrderWithMetrics>) returns (t: Tally)
    ensures Tallies(t, orders)
  {
    t := Tally([], map[]);
    for i := 0 to |orders|
      invariant Tallies(t, orders[..i])
    {
      AddNext(t, orders, i);
      t := Add(t, orders[i]);
    }
    assert orders[..|orders|] == orders;
  }

  lemma AddNext(t: Tally, orders: seq<OrderWithMetrics>, i: nat)
    requires i < |orders| && Tallies(t, orders[..i])
    ensures Tallies(Add(t, orders[i]), orders[..i + 1])
  {
    assert orders[..i + 1] == orders[..i] + [orders[i]];
    AddStep(t, orders[..i], orders[i]);
  }

  /** One row of the chart. */
  datatype Row = Row(category: string, count: nat, avgPrice: real, avgSpread: real, avgYield: real)

  /** The row built from a category's counters: the totals over the count (a listed category
      has at least one order, so the count is never zero there). */
  function RowFrom(c: string, s: Stats): Row
  {
    if s.count == 0 then Row(c, 0, 0.0, 0.0, 0.0)
    else Row(c, s.count, s.totalPrice / s.count as real, s.totalSpread / s.count as real,
             s.totalYield / s.count as real)
  }

  function RowFor(orders: seq<OrderWithMetrics>): string -> Row
  {
    (c: string) => RowFrom(c, StatsOf(orders, c))
  }

  function RowCount(r: Row): real { r.count as real }

  /** `chartData`, by the specification of the tally: one row per category in first-
      occurrence order, then sorted by count with `(a, b) => b.count - a.count`. */
  function CategoryRows(orders: Option<seq<OrderWithMetrics>>): seq<Row>
  {
    match orders
    case None => []
    case Some(os) => SortWith(Map(Distinct(Map(os, GroupOf)), RowFor(os)), ByKeyDesc(RowCount))
  }

  /** The page's computation from the tally it fills. */
  method CategoryChart(orders: Option<seq<OrderWithMetrics>>) returns (rows: seq<Row>)
    ensures rows == CategoryRows(orders)
  {
    if orders.None? {
      return [];
    }
    var os := orders.value;
    var t := TallyCategories(os);
    var unsorted := seq(|t.keys|, i requires 0 <= i < |t.keys| && t.keys[i] in t.stats =>
      RowFrom(t.keys[i], t.stats[t.keys[i]]));
    TallyRows(t, os, unsorted);
    rows := SortWith(unsorted, ByKeyDesc(RowCount));
  }

  /** The rows read off a tally are the rows of its specification. */
  lemma TallyRows(t: Tally, os: seq<OrderWithMetrics>, unsorted: seq<Row>)
    requires Tallies(t, os)
    requires |unsorted| == |t.keys|
    requires forall i :: 0 <= i < |t.keys| ==> t.keys[i] in t.stats && unsorted[i] == RowFrom(t.keys[i], t.stats[t.keys[i]])
    ensures unsorted == Map(Distinct(Map(os, GroupOf)), RowFor(os))
  {
  }

  /** Every listed category has at least one order. */
  lemma ListedCategoriesOccur(os: seq<OrderWithMetrics>, c: string)
    requires c in Distinct(Map(os, GroupOf))
    ensures StatsOf(os, c).count >= 1
  {
    var gs := Map(os, GroupOf);
    var j :| 0 <= j < |gs| && gs[j] == c;
    CountKeyPresent(os, GroupOf, j);
  }

  /** A row as the tally's specification builds it: the row of a category that occurs. */
  ghost predicate RowFaithful(os: seq<OrderWithMetrics>, r: Row)
  {
    r.category in Distinct(Map(os, GroupOf)) && r == RowFor(os)(r.category)
  }

  lemma UnsortedFaithful(os: seq<OrderWithMetrics>)
    ensures var unsorted := Map(Distinct(Map(os, GroupOf)), RowFor(os));
      forall k :: 0 <= k < |unsorted| ==> RowFaithful(os, unsorted[k])
  {
  }

  lemma SortedFaithful(os: seq<OrderWithMetrics>)
    ensures var rows := CategoryRows(Some(os));
      forall i :: 0 <= i < |rows| ==> RowFaithful(os, rows[i])
  {
    var unsorted := Map(Distinct(Map(os, GroupOf)), RowFor(os));
    UnsortedFaithful(os);
    AllPreserved(unsorted, CategoryRows(Some(os)), os);
  }

  lemma AllPreserved(s: seq<Row>, r: seq<Row>, os: seq<OrderWithMetrics>)
    requires multiset(s) == multiset(r)
    requires forall k :: 0 <= k < |s| ==> RowFaithful(os, s[k])
    ensures forall i :: 0 <= i < |r| ==> RowFaithful(os, r[i])
  {
    forall i | 0 <= i < |r| ensures RowFaithful(os, r[i]) {
      var k := PermutationIndex(s, r, i);
    }
  }

  /** What a row says about its category: it occurs, the count is the number of its orders
      (at least one), and the averages times the count are the category's totals. */
  ghost predicate Summarises(os: seq<OrderWithMetrics>, r: Row)
  {
    && r.category in Distinct(Map(os, GroupOf))
    && r.count == CountKey(os, GroupOf, r.category) >= 1
    && r.avgPrice * r.count as real == SumWhere(os, InGroup(r.category), Price)
    && r.avgSpread * r.count as real == SumWhere(os, InGroup(r.category), SpreadOf)
    && r.avgYield * r.count as real == SumWhere(os, InGroup(r.category), YieldOf)
  }

  lemma RowMeaning(os: seq<OrderWithMetrics>, r: Row)
    requires RowFaithful(os, r)
    ensures Summarises(os, r)
  {
    ListedCategoriesOccur(os, r.category);
    RowFromTotals(r, StatsOf(os, r.category));
  }

  /** A row's averages times its count give back the totals. */
  lemma RowFromTotals(r: Row, s: Stats)
    requires s.count >= 1 && r == RowFrom(r.category, s)
    ensures && r.count == s.count
      && r.avgPrice * r.count as real == s.totalPrice
      && r.avgSpread * r.count as real == s.totalSpread
      && r.avgYield * r.count as real == s.totalYield
  {
    var n := s.count as real;
    assert s.totalPrice / n * n == s.totalPrice;
    assert s.totalSpread / n * n == s.totalSpread;
    assert s.totalYield / n * n == s.totalYield;
  }

  /** Every row summarises its category. */
  lemma CategoryRowsSummarise(os: seq<OrderWithMetrics>)
    ensures var rows := CategoryRows(Some(os));
      forall i :: 0 <= i < |rows| ==> Summarises(os, rows[i])
  {
    var rows := CategoryRows(Some(os));
    SortedFaithful(os);
    forall i | 0 <= i < |rows| ensures Summarises(os, rows[i]) {
      RowMeaning(os, rows[i]);
    }
  }

  /** The rows come most orders first. */
  lemma CategoryRowsDescending(os: seq<OrderWithMetrics>)
    ensures var rows := CategoryRows(Some(os));
      forall i, j :: 0 <= i < j < |rows| ==> rows[i].count >= rows[j].count
  {
    DescendingCounts(Map(Distinct(Map(os, GroupOf)), RowFor(os)), CategoryRows(Some(os)));
  }

  lemma DescendingCounts(s: seq<Row>, r: seq<Row>)
    requires r == SortWith(s, ByKeyDesc(RowCount))
    ensures forall i, j :: 0 <= i < j < |r| ==> r[i].count >= r[j].count
  {
    SortedDescending(s, RowCount);
  }

  /** Each category is listed once, and every order's category is listed. */
  lemma CategoriesListedOnce(os: seq<OrderWithMetrics>)
    ensures var rows := CategoryRows(Some(os));
      && (forall i, j :: 0 <= i < j < |rows| ==> rows[i].category != rows[j].category)
      && (forall k :: 0 <= k < |os| ==> exists i :: 0 <= i < |rows| && rows[i].category == GroupOf(os[k]))
  {
    var keys := Distinct(Map(os, GroupOf));
    var unsorted := Map(keys, RowFor(os));
    var rows := CategoryRows(Some(os));
    NoDupRows(unsorted, keys, os);
    NoDupPermutation(unsorted, rows);
    SortedFaithful(os);
    forall k | 0 <= k < |os| ensures exists i :: 0 <= i < |rows| && rows[i].category == GroupOf(os[k]) {
      RowListed(os, k);
    }
  }

  lemma RowListed(os: seq<OrderWithMetrics>, k: nat)
    requires k < |os|
    ensures var rows := CategoryRows(Some(os));
      exists i :: 0 <= i < |rows| && rows[i].category == GroupOf(os[k])
  {
    var gs := Map(os, GroupOf);
    var keys := Distinct(gs);
    var unsorted := Map(keys, RowFor(os));
    assert gs[k] in keys;
    var a :| 0 <= a < |keys| && keys[a] == gs[k];
    assert unsorted[a].category == GroupOf(os[k]);
    var i := PermutationIndex(CategoryRows(Some(os)), unsorted, a);
  }

  lemma NoDupRows(unsorted: seq<Row>, keys: seq<string>, os: seq<OrderWithMetrics>)
    requires NoDup(keys) && unsorted == Map(keys, RowFor(os))
    ensures NoDup(unsorted)
  {
    forall i, j | 0 <= i < j < |unsorted| ensures unsorted[i] != unsorted[j] {
      assert unsorted[i].category == keys[i];
    }
  }

  /** Every order is counted in exactly one row: the counts add up to the number of orders. */
  lemma CountsAddUp(os: seq<OrderWithMetrics>)
    ensures Sum(CategoryRows(Some(os)), RowCount) == |os| as real
  {
    var unsorted := Map(Distinct(Map(os, GroupOf)), RowFor(os));
    UnsortedCountsAddUp(os);
    SumPermutation(unsorted, CategoryRows(Some(os)), RowCount);
  }

  lemma UnsortedCountsAddUp(os: seq<OrderWithMetrics>)
    ensures Sum(Map(Distinct(Map(os, GroupOf)), RowFor(os)), RowCount) == |os| as real
  {
    var keys := Distinct(Map(os, GroupOf));
    RowCountsAreCounts(os, keys);
    GroupsListed(os, keys);
    PartitionCount(keys, os, GroupOf);
  }

  lemma RowCountsAreCounts(os: seq<OrderWithMetrics>, keys: seq<string>)
    ensures Sum(Map(keys, RowFor(os)), RowCount) == CountPerKey(keys, os, GroupOf) as real
  {
    forall c ensures RowCount(RowFor(os)(c)) == CountKey(os, GroupOf, c) as real {
    }
    SumOfKeyedCounts(keys, os, GroupOf, RowFor(os), RowCount);
  }

  lemma GroupsListed(os: seq<OrderWithMetrics>, keys: seq<string>)
    requires keys == Distinct(Map(os, GroupOf))
    ensures forall x :: x in os ==> GroupOf(x) in keys
  {
    var gs := Map(os, GroupOf);
    forall x | x in os ensures GroupOf(x) in keys {
      var i :| 0 <= i < |os| && os[i] == x;
      assert gs[i] == GroupOf(x);
    }
  }

  /** `count / (orders.length || 1) * 100`: a row's share of all orders, in percent. */
  function Share(count: nat, total: nat): (r: real)
    ensures total > 0 ==> r * total as real == count as real * 100.0
    ensures total == 0 ==> r == count as real * 100.0
    ensures 0.0 <= r && (count <= total ==> r <= 100.0)
  {
    var d := if total == 0 then 1 else total;
    ShareBounds(count, d);
    count as real / d as real * 100.0
  }

  lemma ShareBounds(count: nat, d: nat)
    requires d > 0
    ensures var q := count as real / d as real;
      q * d as real == count as real && 0.0 <= q && (count <= d ==> q <= 1.0)
  {
    assert count as real / d as real * d as real == count as real;
  }

  /** A category that holds every order has a share of 100. */
  lemma WholeShare(n: nat)
    requires n > 0
    ensures Share(n, n) == 100.0
  {
  }
}
