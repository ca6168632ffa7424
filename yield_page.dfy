/** The high-yield page (src/app/dashboard/yield/page.tsx): orders whose expected yield is at
    least 8%, ranked by yield advantage with expected yield as the tie-break, at most 100. */
module YieldPage {
  import opened Wrappers
  import opened Types
  import opened Seqs
  import opened Sorting
  import opened Criteria
  import opened JsMath

  const TopCount: nat := 100

  /** Advantages closer than this count as a tie and fall back to expected yield. */
  const AdvantageTolerance: real := 0.01

  /** The page's comparator: descending yield advantage when the advantages differ by more
      than the tolerance, descending expected yield otherwise. */
  function YieldCompare(a: OrderWithMetrics, b: OrderWithMetrics): real
  {
    var advantageDiff := b.yieldAdvantage - a.yieldAdvantage;
    if Abs(advantageDiff) > AdvantageTolerance then advantageDiff
    else b.expectedYield - a.expectedYield
  }

  function ExpectedYieldOf(w: OrderWithMetrics): real { w.expectedYield }

  /** `orders?.filter(yield >= 8).sort(YieldCompare).slice(0, 100) || []`: at most 100 orders,
      every one of them high-yield and taken from the input, and as many as there are
      high-yield orders up to that bound. */
  function HighYieldOrders(data: Option<seq<OrderWithMetrics>>): (r: seq<OrderWithMetrics>)
    ensures data.None? ==> r == []
    ensures |r| <= TopCount
    ensures forall i :: 0 <= i < |r| ==> IsHighYield(r[i])
    ensures data.Some? ==> multiset(r) <= multiset(data.value)
    ensures data.Some? ==>
      var high := Filter(data.value, IsHighYield);
      |r| == if |high| < TopCount then |high| else TopCount
  {
    match data
    case None => []
    case Some(orders) =>
      FilteredTop(orders, IsHighYield, YieldCompare, TopCount);
      JsSlice(SortWith(Filter(orders, IsHighYield), YieldCompare), 0, TopCount)
  }

  /** The comparator is antisymmetric: swapping the arguments negates the result. */
  lemma YieldCompareAntisymmetric(a: OrderWithMetrics, b: OrderWithMetrics)
    ensures YieldCompare(a, b) == -YieldCompare(b, a)
  {
  }

  function Sample(advantage: real, expectedYield: real): OrderWithMetrics
  {
    var o := Order("", "", "", "", "", Buy, Pending, 0.0, 0.0, 0.0, 0.0, 0.0,
                   None, None, None, None, None, None, None);
    OrderWithMetrics(o, 0.0, 0.0, expectedYield, advantage, 0.0, Normal, None)
  }

  /** The tolerance makes the comparator inconsistent: advantages 0, 0.008 and 0.016 are each
      within the tolerance of the next but not of each other, so "may precede" is not
      transitive, and the page's order is whatever the engine's sort makes of it. */
  lemma YieldCompareNotTransitive()
    ensures !TotalPreorder(YieldCompare)
  {
    var a, b, c := Sample(0.0, 10.0), Sample(0.008, 9.0), Sample(0.016, 8.0);
    assert YieldCompare(a, b) <= 0.0 && YieldCompare(b, c) <= 0.0;
    assert YieldCompare(a, c) > 0.0;
  }

  /** When every high-yield order shares one yield advantage, the comparator reduces to
      descending expected yield, and the page lists the orders in that order. */
  lemma EqualAdvantageSortsByYield(orders: seq<OrderWithMetrics>, advantage: real)
    requires forall i :: 0 <= i < |orders| ==> orders[i].yieldAdvantage == advantage
    ensures var r := HighYieldOrders(Some(orders));
      forall i, j :: 0 <= i < j < |r| ==> r[i].expectedYield >= r[j].expectedYield
  {
    var high := Filter(orders, IsHighYield);
    forall x, y | x in high && y in high
      ensures YieldCompare(x, y) == ByKeyDesc(ExpectedYieldOf)(x, y)
    {
      var k :| 0 <= k < |high| && high[k] == x;
      var l :| 0 <= l < |high| && high[l] == y;
      assert x in orders && y in orders;
      SameAdvantageCompare(x, y);
      assert ByKeyDesc(ExpectedYieldOf)(x, y) == ExpectedYieldOf(y) - ExpectedYieldOf(x);
    }
    var r := JsSlice(SortWith(high, YieldCompare), 0, TopCount);
    TopAgreeingDescending(high, YieldCompare, ExpectedYieldOf, TopCount, r);
    assert HighYieldOrders(Some(orders)) == r;
  }

  /** Orders whose advantages differ by no more than the tolerance are compared by expected
      yield, the higher yield first. */
  lemma SameAdvantageCompare(a: OrderWithMetrics, b: OrderWithMetrics)
    requires Abs(b.yieldAdvantage - a.yieldAdvantage) <= AdvantageTolerance
    ensures YieldCompare(a, b) == b.expectedYield - a.expectedYield
  {
  }
}
