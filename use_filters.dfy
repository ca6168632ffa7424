/** The dashboard's filter panel state (src/hooks/useFilters.ts): the filter settings, the
    orders they let through, and the two handlers that change the settings. */
module UseFilters {
  import opened Wrappers
  import opened Types
  import opened Seqs
  import opened Text
  import Search

  /** `FilterState`; `spreadRange` is `[low, high]`. */
  datatype FilterState = FilterState(
    orderTypes: seq<OrderType>,
    signals: seq<Signal>,
    spreadLow: real,
    spreadHigh: real,
    minQuantity: real,
    searchQuery: string)

  /** `DEFAULT_FILTERS`: both order types, any signal, spreads from -50 to 50, no minimum
      quantity and no query. */
  const DefaultFilters: FilterState := FilterState([Buy, Sell], [], -50.0, 50.0, 0.0, "")

  /** The query test: the lower-cased query, as typed (not trimmed), in the lower-cased song
      name or artist. */
  predicate QueryMatches(query: string, w: OrderWithMetrics)
  {
    || Contains(ToLower(w.order.songName), ToLower(query))
    || Contains(ToLower(w.order.songArtist), ToLower(query))
  }

  /** The filter callback: an order is kept exactly when it passes all five tests. A quantity
      is only checked when it is present and not zero (JavaScript's truthiness). */
  predicate Keeps(f: FilterState, w: OrderWithMetrics)
  {
    && (|f.orderTypes| > 0 ==> w.order.orderType in f.orderTypes)
    && (|f.signals| > 0 ==> w.signal in f.signals)
    && f.spreadLow <= w.spreadRate <= f.spreadHigh
    && (w.order.orderQuantity.Some? && w.order.orderQuantity.value != 0.0 ==>
          w.order.orderQuantity.value >= f.minQuantity)
    && (f.searchQuery != "" ==> QueryMatches(f.searchQuery, w))
  }

  function KeepsTest(f: FilterState): OrderWithMetrics -> bool
  {
    (w: OrderWithMetrics) => Keeps(f, w)
  }

  /** `filteredOrders`: nothing for no orders; otherwise the orders the settings keep, in
      their order. */
  function FilteredOrders(orders: seq<OrderWithMetrics>, f: FilterState): (r: seq<OrderWithMetrics>)
    ensures orders == [] ==> r == []
    ensures IsSubseq(r, orders)
    ensures forall i :: 0 <= i < |r| ==> Keeps(f, r[i])
    ensures forall i :: 0 <= i < |orders| ==> (orders[i] in r <==> Keeps(f, orders[i]))
    ensures forall x :: multiset(r)[x] == if Keeps(f, x) then multiset(orders)[x] else 0
  {
    FilterIsSubseq(orders, KeepsTest(f));
    FilterCounts(orders, KeepsTest(f));
    if |orders| == 0 then [] else Filter(orders, KeepsTest(f))
  }

  /** With the default settings an order with no negative quantity is kept exactly when its
      spread rate lies in [-50, 50]. */
  lemma DefaultsKeepModerateSpreads(w: OrderWithMetrics)
    requires w.order.orderQuantity.Some? ==> w.order.orderQuantity.value >= 0.0
    ensures Keeps(DefaultFilters, w) <==> -50.0 <= w.spreadRate <= 50.0
  {
    assert w.order.orderType in [Buy, Sell] by {
      if w.order.orderType == Buy { assert [Buy, Sell][0] == Buy; }
      else { assert [Buy, Sell][1] == Sell; }
    }
  }

  /** A query with a leading space is not trimmed here, so a song named "a" is dropped by the
      query " a", while the search helper, which trims, finds it. */
  lemma UntrimmedQuery(w: OrderWithMetrics)
    requires w.order.songName == "a" && w.order.songArtist == ""
    ensures !QueryMatches(" a", w)
    ensures Search.MatchesQuery(w, Search.SearchKey(" a"))
  {
    SpacedQueryMisses(w);
    TrimmedKey();
    NameMatches(w);
  }

  lemma NameMatches(w: OrderWithMetrics)
    requires w.order.songName == "a"
    ensures Search.MatchesQuery(w, "a")
  {
    var n := ToLower(w.order.songName);
    assert n[0] == 'a';
    assert n[..1] == "a";
    assert StartsWith(n, "a");
  }

  lemma SpacedQueryMisses(w: OrderWithMetrics)
    requires w.order.songName == "a" && w.order.songArtist == ""
    ensures !QueryMatches(" a", w)
  {
    ContainsTooLong(ToLower("a"), ToLower(" a"));
    ContainsTooLong(ToLower(""), ToLower(" a"));
    LowerSpaceA();
  }

  lemma TrimmedKey()
    ensures Search.SearchKey(" a") == "a"
  {
    LowerSpaceA();
    assert " a" == [' '] + "a";
    TrimStartSpace(' ', "a");
    TrimUnpadded("a");
  }

  lemma LowerSpaceA()
    ensures ToLower(" a") == " a"
  {
    var r := ToLower(" a");
    assert r[0] == ' ' && r[1] == 'a';
  }

  /** `Partial<FilterState>`: the fields an update sets. */
  datatype FilterUpdate = FilterUpdate(
    orderTypes: Option<seq<OrderType>>,
    signals: Option<seq<Signal>>,
    spreadRange: Option<(real, real)>,
    minQuantity: Option<real>,
    searchQuery: Option<string>)

  /** `{ ...prev, ...updates }`: each field from the update when it sets it, else as it was. */
  function Merge(prev: FilterState, u: FilterUpdate): (next: FilterState)
    ensures next.orderTypes == u.orderTypes.GetOr(prev.orderTypes)
    ensures next.signals == u.signals.GetOr(prev.signals)
    ensures (next.spreadLow, next.spreadHigh) == u.spreadRange.GetOr((prev.spreadLow, prev.spreadHigh))
    ensures next.minQuantity == u.minQuantity.GetOr(prev.minQuantity)
    ensures next.searchQuery == u.searchQuery.GetOr(prev.searchQuery)
  {
    var range := u.spreadRange.GetOr((prev.spreadLow, prev.spreadHigh));
    FilterState(
      u.orderTypes.GetOr(prev.orderTypes),
      u.signals.GetOr(prev.signals),
      range.0, range.1,
      u.minQuantity.GetOr(prev.minQuantity),
      u.searchQuery.GetOr(prev.searchQuery))
  }

  const NoUpdate: FilterUpdate := FilterUpdate(None, None, None, None, None)

  /** An update that sets nothing changes nothing, applying the same update twice is applying
      it once, and a later update of a field overrides an earlier one. */
  lemma MergeLaws(prev: FilterState, u: FilterUpdate, v: FilterUpdate)
    ensures Merge(prev, NoUpdate) == prev
    ensures Merge(Merge(prev, u), u) == Merge(prev, u)
    ensures v.searchQuery.Some? ==> Merge(Merge(prev, u), v).searchQuery == v.searchQuery.value
    ensures v.searchQuery.None? ==> Merge(Merge(prev, u), v).searchQuery == Merge(prev, u).searchQuery
  {
  }

  /** The hook's state: the current settings. */
  class FiltersHook {
    var filters: FilterState

    constructor()
      ensures filters == DefaultFilters
    {
      filters := DefaultFilters;
    }

    /** `updateFilters`: overwrite the fields the update sets. */
    method UpdateFilters(u: FilterUpdate)
      modifies this
      ensures filters == Merge(old(filters), u)
    {
      filters := Merge(filters, u);
    }

    /** `resetFilters`: back to the defaults. */
    method ResetFilters()
      modifies this
      ensures filters == DefaultFilters
    {
      filters := DefaultFilters;
    }

  }
}
