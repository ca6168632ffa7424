/** The high-liquidity page (src/app/dashboard/liquidity/page.tsx): orders whose liquidity score
    is at least 70, most liquid first, at most 100 of them. */
module LiquidityPage {
  import opened Wrappers
  import opened Types
  import opened Seqs
  import opened Sorting
  import opened Criteria

  const TopCount: nat := 100

  /** `orders?.filter(liquidity >= 70).sort(descending liquidity).slice(0, 100) || []`: the (at
      most) 100 most liquid orders among those scoring at least 70, in descending order; every
      such order left out scores at most what every kept order scores. */
  function HighLiquidityOrders(data: Option<seq<OrderWithMetrics>>): (r: seq<OrderWithMetrics>)
    ensures data.None? ==> r == []
    ensures |r| <= TopCount
    ensures forall i :: 0 <= i < |r| ==> r[i].liquidityScore >= 70.0
    ensures forall i, j :: 0 <= i < j < |r| ==> r[i].liquidityScore >= r[j].liquidityScore
    ensures data.Some? ==> multiset(r) <= multiset(data.value)
    ensures data.Some? ==>
      var high := Filter(data.value, IsHighLiquidity);
      |r| == if |high| < TopCount then |high| else TopCount
    ensures data.Some? ==> forall x: OrderWithMetrics, y ::
      (y in r && IsHighLiquidity(x) && multiset(r)[x] < multiset(data.value)[x]) ==>
      Liquidity(y) >= Liquidity(x)
  {
    match data
    case None => []
    case Some(orders) =>
      FilteredTopDescending(orders, IsHighLiquidity, Liquidity, TopCount);
      JsSlice(SortWith(Filter(orders, IsHighLiquidity), ByKeyDesc(Liquidity)), 0, TopCount)
  }
}
