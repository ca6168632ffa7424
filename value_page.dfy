/** The value-opportunity page (src/app/dashboard/value/page.tsx): orders that are cheap (spread
    below -5%), at least moderately liquid (score 40 or more) and at least moderately yielding
    (5% or more), ranked by a composite score. Nothing is truncated. */
module ValuePage {
  import opened Wrappers
  import opened Types
  import opened Seqs
  import opened Sorting
  import opened Criteria

  /** The composite score: a lower spread, a higher liquidity score and a higher expected yield
      all raise it, weighted 0.4, 0.3 and 0.3. Every value opportunity scores above 15.5. */
  function ValueScore(w: OrderWithMetrics): (score: real)
    ensures IsValueOpportunity(w) ==> score > 15.5
  {
    -w.spreadRate * 0.4 + w.liquidityScore * 0.3 + w.expectedYield * 0.3
  }

  /** `orders?.filter(value opportunity).sort(descending score) || []`: every value
      opportunity of the input, as many times as it occurs there, and nothing else, from the
      highest composite score down. */
  function ValueOpportunities(data: Option<seq<OrderWithMetrics>>): (r: seq<OrderWithMetrics>)
    ensures data.None? ==> r == []
    ensures data.Some? ==> forall x ::
      multiset(r)[x] == if IsValueOpportunity(x) then multiset(data.value)[x] else 0
    ensures forall i :: 0 <= i < |r| ==> IsValueOpportunity(r[i])
    ensures forall i, j :: 0 <= i < j < |r| ==> ValueScore(r[i]) >= ValueScore(r[j])
  {
    match data
    case None => []
    case Some(orders) =>
      var r := SortWith(Filter(orders, IsValueOpportunity), ByKeyDesc(ValueScore));
      FilteredDescending(orders, IsValueOpportunity, ValueScore, r);
      r
  }

  /** An order is listed exactly when it is in the input and is a value opportunity. */
  lemma ListedIff(orders: seq<OrderWithMetrics>, w: OrderWithMetrics)
    ensures w in ValueOpportunities(Some(orders)) <==> w in orders && IsValueOpportunity(w)
  {
    var r := ValueOpportunities(Some(orders));
    assert multiset(r)[w] == if IsValueOpportunity(w) then multiset(orders)[w] else 0;
  }
}
