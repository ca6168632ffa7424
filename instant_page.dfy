/** The instant-match page (src/app/dashboard/instant/page.tsx). */
module InstantPage {
  import opened Wrappers
  import opened Types
  import opened Seqs
  import opened Criteria
  import opened JsMath

  /** `orders?.filter(|spread| <= 0.5) || []`: every order in the band, in input order, nothing
      truncated; no data gives the empty list. */
  function InstantOrders(data: Option<seq<OrderWithMetrics>>): (r: seq<OrderWithMetrics>)
    ensures data.None? ==> r == []
    ensures data.Some? ==>
      && IsSubseq(r, data.value)
      && (forall i :: 0 <= i < |r| ==> Abs(r[i].spreadRate) <= 0.5)
      && (forall i :: 0 <= i < |data.value| ==>
            (data.value[i] in r <==> Abs(data.value[i].spreadRate) <= 0.5))
    ensures data.Some? ==> forall x ::
      multiset(r)[x] == if Abs(x.spreadRate) <= 0.5 then multiset(data.value)[x] else 0
  {
    match data
    case None => []
    case Some(orders) =>
      FilterIsSubseq(orders, IsInstantMatch);
      FilterCounts(orders, IsInstantMatch);
      Filter(orders, IsInstantMatch)
  }
}
