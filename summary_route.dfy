/** `GET /api/summary` (src/app/api/summary/route.ts): counts and averages over every enriched
    order. */
module SummaryRoute {
  import opened Wrappers
  import opened Types
  import opened Seqs
  import opened Criteria
  import opened Api
  import Musicow
  import InstantPage
  import UndervaluedPage
  import YieldPage
  import ValuePage
  import Sorting

  /** `calculateAverage(orders, field)`: zero for no orders, otherwise the arithmetic mean. */
  function CalculateAverage(orders: seq<OrderWithMetrics>, field: Metric): (r: real)
    ensures |orders| == 0 ==> r == 0.0
    ensures |orders| > 0 ==> r * |orders| as real == Sum(orders, MetricFn(field))
  {
    if |orders| == 0 then 0.0 else Sum(orders, MetricFn(field)) / |orders| as real
  }

  /** The mean lies within any bounds that every value lies within. */
  lemma AverageBounds(orders: seq<OrderWithMetrics>, field: Metric, lo: real, hi: real)
    requires |orders| > 0
    requires forall i :: 0 <= i < |orders| ==> lo <= MetricOf(orders[i], field) <= hi
    ensures lo <= CalculateAverage(orders, field) <= hi
  {
    var n := |orders| as real;
    SumBounds(orders, MetricFn(field), lo, hi);
    var avg := CalculateAverage(orders, field);
    assert avg * n == Sum(orders, MetricFn(field));
    assert n * lo <= avg * n <= n * hi;
  }

  /** The mean does not depend on the order of the orders. */
  lemma AverageReorder(orders: seq<OrderWithMetrics>, other: seq<OrderWithMetrics>, field: Metric)
    requires multiset(orders) == multiset(other)
    ensures CalculateAverage(orders, field) == CalculateAverage(other, field)
  {
    assert |orders| == |multiset(orders)| == |other|;
    SumPermutation(orders, other, MetricFn(field));
  }

  /** The `SummaryMetrics` record, stamped with `timestamp`. Every order is a purchase or a
      sale; the instant-match and low-spread counts are those of disjoint bands. */
  function Summarize(orders: seq<OrderWithMetrics>, timestamp: string): (r: SummaryMetrics)
    ensures r.totalOrders == |orders|
    ensures r.buyOrders == |Filter(orders, IsBuyOrder)| && r.sellOrders == |Filter(orders, IsSellOrder)|
    ensures r.buyOrders + r.sellOrders == r.totalOrders
    ensures r.avgSpreadRate == CalculateAverage(orders, SpreadRateMetric)
    ensures r.avgExpectedYield == CalculateAverage(orders, ExpectedYieldMetric)
    ensures r.avgLiquidityScore == CalculateAverage(orders, LiquidityScoreMetric)
    ensures r.instantMatchCount == |Filter(orders, IsInstantMatch)|
    ensures r.highYieldCount == |Filter(orders, IsHighYield)|
    ensures r.undervaluedCount == |Filter(orders, IsLowSpread)|
    ensures r.instantMatchCount + r.undervaluedCount <= r.totalOrders
    ensures r.timestamp == timestamp
  {
    FilterSplit(orders, IsBuyOrder, IsSellOrder);
    FilterDisjoint(orders, IsInstantMatch, IsLowSpread);
    SummaryMetrics(
      |orders|,
      |Filter(orders, IsBuyOrder)|,
      |Filter(orders, IsSellOrder)|,
      CalculateAverage(orders, SpreadRateMetric),
      CalculateAverage(orders, ExpectedYieldMetric),
      CalculateAverage(orders, LiquidityScoreMetric),
      |Filter(orders, IsInstantMatch)|,
      |Filter(orders, IsHighYield)|,
      |Filter(orders, IsLowSpread)|,
      timestamp)
  }

  /** The summary's counts are the sizes of the dashboard pages' lists: the instant-match
      page shows exactly `instantMatchCount` orders, the low-ask and high-yield pages show
      their count capped at 100, and the value page never shows more than the low-ask count. */
  lemma SummaryMatchesPages(orders: seq<OrderWithMetrics>, timestamp: string)
    ensures var s := Summarize(orders, timestamp);
      && |InstantPage.InstantOrders(Some(orders))| == s.instantMatchCount
      && |UndervaluedPage.UndervaluedOrders(Some(orders))| ==
           (if s.undervaluedCount < 100 then s.undervaluedCount else 100)
      && |YieldPage.HighYieldOrders(Some(orders))| ==
           (if s.highYieldCount < 100 then s.highYieldCount else 100)
      && |ValuePage.ValueOpportunities(Some(orders))| <= s.undervaluedCount
  {
    var values := ValuePage.ValueOpportunities(Some(orders));
    var opportunities := Filter(orders, IsValueOpportunity);
    assert values == Sorting.SortWith(opportunities, Sorting.ByKeyDesc(ValuePage.ValueScore));
    FilterMonotone(orders, IsValueOpportunity, IsLowSpread);
  }

  const FailureMessage: string := "Failed to calculate summary"

  /** The route: the summary of the fetched orders on success; when fetching fails, status
      500 with the error message and an empty `{}` body (`None`). `summaryTime` and
      `responseTime` are the two clock readings the route takes. */
  function SummaryGet(payload: Musicow.Payload, summaryTime: string, responseTime: string)
    : (r: Response<Option<SummaryMetrics>>)
    ensures r.success <==> payload.ArrayPayload?
    ensures r.success ==> r == Ok(Some(Summarize(Musicow.OrdersWithMetrics(payload).value, summaryTime)), responseTime)
    ensures !r.success ==> r == ServerError(FailureMessage, None, responseTime)
    ensures r.success ==> r.data.Some? && r.data.value.totalOrders == |payload.items|
  {
    match Musicow.OrdersWithMetrics(payload)
    case Success(orders) => Ok(Some(Summarize(orders, summaryTime)), responseTime)
    case Failure(_) => ServerError(FailureMessage, None, responseTime)
  }
}
