/** The low-ask page (src/app/dashboard/undervalued/page.tsx): orders priced more than 5% below
    the market, cheapest first, at most 100 of them. */
module UndervaluedPage {
  import opened Wrappers
  import opened Types
  import opened Seqs
  import opened Sorting
  import opened Criteria

  const TopCount: nat := 100

  /** `orders?.filter(spread < -5).sort(ascending spread).slice(0, 100) || []`: the (at most)
      100 lowest-spread orders among those below -5%, in ascending spread order; every
      low-spread order that is left out has a spread at least that of every kept order. */
  function UndervaluedOrders(data: Option<seq<OrderWithMetrics>>): (r: seq<OrderWithMetrics>)
    ensures data.None? ==> r == []
    ensures |r| <= TopCount
    ensures forall i :: 0 <= i < |r| ==> r[i].spreadRate < -5.0
    ensures forall i, j :: 0 <= i < j < |r| ==> r[i].spreadRate <= r[j].spreadRate
    ensures data.Some? ==> multiset(r) <= multiset(data.value)
    ensures data.Some? ==>
      var low := Filter(data.value, IsLowSpread);
      |r| == if |low| < TopCount then |low| else TopCount
    ensures data.Some? ==> forall x: OrderWithMetrics, y ::
      (y in r && IsLowSpread(x) && multiset(r)[x] < multiset(data.value)[x]) ==>
      Spread(y) <= Spread(x)
  {
    match data
    case None => []
    case Some(orders) =>
      FilteredTopAscending(orders, IsLowSpread, Spread, TopCount);
      JsSlice(SortWith(Filter(orders, IsLowSpread), ByKeyAsc(Spread)), 0, TopCount)
  }
}
