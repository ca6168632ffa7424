/** The paged, sortable orders table (src/components/tables/OrdersTable.tsx): the sort
    comparator and the pagination arithmetic as functions, and the table's state (current
    page, sort key, sort direction) as an object whose handlers update it. The orders are the
    table's input and are passed to the functions that read them. */
module OrdersTable {
  import opened Wrappers
  import opened Types
  import opened Seqs
  import opened Sorting
  import opened JsMath

  /** The columns a header click sorts by. */
  datatype SortKey =
    | SongName | SongArtist | OrderTypeKey | OrderPrice | SpreadRate | BaseYield
    | ExpectedYield | YieldAdvantage | LiquidityScore | SignalKey | OrderDate

  /** A field value as JavaScript sees it: a number or a string. */
  datatype Cell = Num(n: real) | Str(s: string)

  /** `a[sortKey]`. */
  function CellOf(w: OrderWithMetrics, key: SortKey): Cell
  {
    match key
    case SongName => Str(w.order.songName)
    case SongArtist => Str(w.order.songArtist)
    case OrderTypeKey => Str(w.order.orderType.Label())
    case OrderPrice => Num(w.order.orderPrice)
    case SpreadRate => Num(w.spreadRate)
    case BaseYield => Num(w.baseYield)
    case ExpectedYield => Num(w.expectedYield)
    case YieldAdvantage => Num(w.yieldAdvantage)
    case LiquidityScore => Num(w.liquidityScore)
    case SignalKey => Str(w.signal.Label())
    case OrderDate => Str(w.order.orderDate)
  }

  predicate IsNumeric(key: SortKey)
  {
    key in {OrderPrice, SpreadRate, BaseYield, ExpectedYield, YieldAdvantage, LiquidityScore}
  }

  /** The number under a numeric column. */
  function NumberOf(key: SortKey): OrderWithMetrics -> real
  {
    (w: OrderWithMetrics) => match CellOf(w, key) case Num(n) => n case Str(_) => 0.0
  }

  datatype SortOrder = Asc | Desc
  {
    function Flip(): SortOrder
    {
      match this
      case Asc => Desc
      case Desc => Asc
    }
  }

  /** Comparison of two cells: numbers by difference, strings by `localeCompare` (`lc`), in
      the chosen direction; a number against a string is a tie. */
  function CompareCells(x: Cell, y: Cell, order: SortOrder, lc: (string, string) -> real): real
  {
    match (x, y)
    case (Num(a), Num(b)) => if order == Asc then a - b else b - a
    case (Str(a), Str(b)) => if order == Asc then lc(a, b) else lc(b, a)
    case _ => 0.0
  }

  /** The comparator handed to `sort`: everything ties when there is no sort key. */
  function Comparator(key: Option<SortKey>, order: SortOrder, lc: (string, string) -> real)
    : (OrderWithMetrics, OrderWithMetrics) -> real
  {
    (a: OrderWithMetrics, b: OrderWithMetrics) =>
      match key
      case None => 0.0
      case Some(k) => CompareCells(CellOf(a, k), CellOf(b, k), order, lc)
  }

  /** `[...orders].sort(...)`: a sorted copy; the input sequence is a value and stays as it is. */
  function SortedOrders(orders: seq<OrderWithMetrics>, key: Option<SortKey>, order: SortOrder,
                        lc: (string, string) -> real): (r: seq<OrderWithMetrics>)
    ensures |r| == |orders| && multiset(r) == multiset(orders)
  {
    SortWith(orders, Comparator(key, order, lc))
  }

  /** Without a sort key the table shows the orders as given. */
  lemma NoKeyKeepsOrder(orders: seq<OrderWithMetrics>, order: SortOrder, lc: (string, string) -> real)
    ensures SortedOrders(orders, None, order, lc) == orders
  {
    SortWithAllEqual(orders, Comparator(None, order, lc));
  }

  /** A numeric column sorts the rows by its number, non-decreasing for `Asc` and
      non-increasing for `Desc`. */
  lemma NumericKeySorts(orders: seq<OrderWithMetrics>, key: SortKey, order: SortOrder,
                        lc: (string, string) -> real)
    requires IsNumeric(key)
    ensures var r := SortedOrders(orders, Some(key), order, lc);
      forall i, j :: 0 <= i < j < |r| ==>
        if order == Asc then NumberOf(key)(r[i]) <= NumberOf(key)(r[j])
        else NumberOf(key)(r[i]) >= NumberOf(key)(r[j])
  {
    var cmp := Comparator(Some(key), order, lc);
    var f := NumberOf(key);
    if order == Asc {
      forall x, y | x in orders && y in orders ensures cmp(x, y) == ByKeyAsc(f)(x, y) {
      }
      SortWithCongruent(orders, cmp, ByKeyAsc(f));
      SortedAscending(orders, f);
    } else {
      forall x, y | x in orders && y in orders ensures cmp(x, y) == ByKeyDesc(f)(x, y) {
      }
      SortWithCongruent(orders, cmp, ByKeyDesc(f));
      SortedDescending(orders, f);
    }
  }

  const DefaultPageSize: nat := 20

  /** `Math.ceil(n / pageSize)`: the fewest pages of `pageSize` rows that hold `n` rows. */
  function TotalPages(n: nat, pageSize: nat): (t: int)
    requires pageSize > 0
    ensures t >= 0 && (t - 1) * pageSize < n <= t * pageSize
  {
    var t := Ceil(n as real / pageSize as real);
    CeilPages(n, pageSize, t);
    t
  }

  /** The least integer not below `n / size` brackets `n` between whole pages. */
  lemma CeilPages(n: nat, size: nat, t: int)
    requires size > 0
    requires t as real - 1.0 < n as real / size as real <= t as real
    ensures t >= 0 && (t - 1) * size < n <= t * size
  {
    var x := n as real / size as real;
    QuotientTimes(n as real, size as real);
    PagesBelow(n, size, t, x);
    PagesAbove(n, size, t, x);
  }

  lemma PagesBelow(n: nat, size: nat, t: int, x: real)
    requires size > 0 && x * size as real == n as real && t as real - 1.0 < x
    ensures (t - 1) * size < n
  {
    MulLess((t - 1) as real, x, size as real);
    IntRealProduct(t - 1, size);
    RealOrder((t - 1) * size, n);
  }

  lemma PagesAbove(n: nat, size: nat, t: int, x: real)
    requires size > 0 && x * size as real == n as real && x <= t as real
    ensures n <= t * size
  {
    MulAtMost(x, t as real, size as real);
    IntRealProduct(t, size);
    RealOrder(n, t * size);
  }

  lemma RealOrder(a: int, b: int)
    ensures (a as real < b as real <==> a < b) && (a as real <= b as real <==> a <= b)
  {
  }

  lemma QuotientTimes(a: real, c: real)
    requires a >= 0.0 && c > 0.0
    ensures a / c * c == a && a / c >= 0.0
  {
  }

  lemma IntRealProduct(a: int, b: nat)
    ensures (a * b) as real == a as real * b as real
  {
  }

  lemma MulLess(a: real, b: real, c: real)
    requires a < b && c > 0.0
    ensures a * c < b * c
  {
  }

  lemma MulAtMost(a: real, b: real, c: real)
    requires a <= b && c > 0.0
    ensures a * c <= b * c
  {
  }

  /** `(currentPage - 1) * pageSize` and the end of the page. */
  function StartIndex(page: int, pageSize: nat): (start: int)
    ensures page >= 1 ==> start >= 0
  {
    StartOfPage(page, pageSize);
    (page - 1) * pageSize
  }
  function EndIndex(page: int, pageSize: nat): int { StartIndex(page, pageSize) + pageSize }

  /** `sortedOrders.slice(startIndex, endIndex)`. */
  function PageRows(sorted: seq<OrderWithMetrics>, page: int, pageSize: nat): (r: seq<OrderWithMetrics>)
    ensures |r| <= pageSize
    ensures page >= 1 ==>
      var start := StartIndex(page, pageSize);
      var end := EndIndex(page, pageSize);
      r == if start >= |sorted| then [] else if end <= |sorted| then sorted[start..end] else sorted[start..]
  {
    PageSlice(sorted, StartIndex(page, pageSize), pageSize);
    JsSlice(sorted, StartIndex(page, pageSize), EndIndex(page, pageSize))
  }

  lemma StartOfPage(page: int, pageSize: nat)
    ensures page >= 1 ==> (page - 1) * pageSize >= 0
  {
    if page >= 1 {
      assert (page - 1) * pageSize >= 0 * pageSize;
    }
  }

  /** `s.slice(start, start + size)` holds at most `size` elements, and from a non-negative
      start it is the plain slice, cut short at the end of `s`. */
  lemma PageSlice<T>(s: seq<T>, start: int, size: nat)
    ensures |JsSlice(s, start, start + size)| <= size
    ensures start >= 0 ==>
      JsSlice(s, start, start + size) ==
        if start >= |s| then [] else if start + size <= |s| then s[start..start + size] else s[start..]
  {
  }

  /** Every row is on exactly one page: row `i` is row `i % pageSize` of page `i / pageSize + 1`,
      and that page is one of the `TotalPages` pages. */
  lemma RowOnItsPage(sorted: seq<OrderWithMetrics>, pageSize: nat, i: nat)
    requires pageSize > 0 && i < |sorted|
    ensures var page := i / pageSize + 1;
      var rows := PageRows(sorted, page, pageSize);
      && 1 <= page <= TotalPages(|sorted|, pageSize)
      && i % pageSize < |rows| && rows[i % pageSize] == sorted[i]
  {
    var page := i / pageSize + 1;
    var t := TotalPages(|sorted|, pageSize);
    assert i == (i / pageSize) * pageSize + i % pageSize;
    assert StartIndex(page, pageSize) == (i / pageSize) * pageSize;
    MulCancel(i / pageSize, t, pageSize);
  }

  lemma MulCancel(a: int, b: int, c: nat)
    requires c > 0 && a * c < b * c
    ensures a < b
  {
    if a >= b {
      MulMono(b, a, c);
    }
  }

  lemma MulMono(a: int, b: int, c: nat)
    requires a <= b
    ensures a * c <= b * c
  {
  }

  /** The footer `startIndex + 1 - min(endIndex, n)`: on any page that exists it names the
      first and last row shown, so it spans exactly the rows on the page. */
  function Footer(n: nat, page: int, pageSize: nat): (f: (int, int))
  {
    var end := EndIndex(page, pageSize);
    (StartIndex(page, pageSize) + 1, if end <= n then end else n)
  }

  lemma FooterMatchesRows(sorted: seq<OrderWithMetrics>, page: int, pageSize: nat)
    requires pageSize > 0 && 1 <= page <= TotalPages(|sorted|, pageSize)
    ensures var f := Footer(|sorted|, page, pageSize);
      f.1 - f.0 + 1 == |PageRows(sorted, page, pageSize)| >= 1
  {
    var t := TotalPages(|sorted|, pageSize);
    MulMono(page - 1, t - 1, pageSize);
  }

  /** The next-page handler as written: `Math.min(totalPages, p + 1)`. */
  function NextPageAsWritten(p: int, totalPages: int): int
  {
    if totalPages <= p + 1 then totalPages else p + 1
  }

  /** On an empty table there are no pages, the next button (enabled because the first page is
      not page 0) moves to page 0, and the footer then reads `-19-0` with nothing shown. */
  lemma NextOnEmptyTableAsWritten()
    ensures TotalPages(0, DefaultPageSize) == 0
    ensures NextPageAsWritten(1, TotalPages(0, DefaultPageSize)) == 0
    ensures Footer(0, 0, DefaultPageSize) == (-19, 0)
  {
  }

  /** The next-page handler kept on a page that exists, or on page 1 when there is none. */
  function NextPage(p: int, totalPages: int): (r: int)
    ensures r >= 1
    ensures p >= 1 && p < totalPages ==> r == p + 1
    ensures totalPages >= 1 ==> r <= totalPages
    ensures totalPages >= 1 ==> r == NextPageAsWritten(p, totalPages) || p < 0
  {
    var q := NextPageAsWritten(p, totalPages);
    if q < 1 then 1 else q
  }

  /** `Math.max(1, p - 1)`. */
  function PrevPage(p: int): (r: int)
    ensures r >= 1 && (p > 1 ==> r == p - 1) && (p <= 1 ==> r == 1)
  {
    if p - 1 < 1 then 1 else p - 1
  }

  datatype Click = Prev | Next

  /** The page after a series of button clicks. */
  function AfterClicks(p: int, totalPages: int, clicks: seq<Click>): int
    decreases |clicks|
  {
    if clicks == [] then p
    else
      var q := if clicks[0] == Prev then PrevPage(p) else NextPage(p, totalPages);
      AfterClicks(q, totalPages, clicks[1..])
  }

  /** Starting on a page that exists (or page 1), no series of clicks leaves the pages:
      the page stays at least 1 and at most the number of pages whenever there is one. */
  lemma {:induction false} ClicksStayOnPages(p: int, totalPages: int, clicks: seq<Click>)
    requires 1 <= p && (totalPages >= 1 ==> p <= totalPages)
    ensures var q := AfterClicks(p, totalPages, clicks);
      1 <= q && (totalPages >= 1 ==> q <= totalPages)
    decreases |clicks|
  {
    if clicks != [] {
      var q := if clicks[0] == Prev then PrevPage(p) else NextPage(p, totalPages);
      ClicksStayOnPages(q, totalPages, clicks[1..]);
    }
  }

  /** The sort state after a click on column `key`. */
  function SortAfterClick(sortKey: Option<SortKey>, order: SortOrder, key: SortKey): (s: (Option<SortKey>, SortOrder))
    ensures s.0 == Some(key)
    ensures sortKey == Some(key) ==> s.1 != order
    ensures sortKey != Some(key) ==> s.1 == Desc
  {
    if sortKey == Some(key) then (sortKey, order.Flip()) else (Some(key), Desc)
  }

  /** Clicking the same column twice restores the direction. */
  lemma SameColumnTwice(sortKey: Option<SortKey>, order: SortOrder, key: SortKey)
    ensures var s := SortAfterClick(sortKey, order, key);
      var s2 := SortAfterClick(s.0, s.1, key);
      s2.0 == Some(key) && (sortKey == Some(key) ==> s2.1 == order) && (sortKey != Some(key) ==> s2.1 == Asc)
  {
  }

  /** The table's state. */
  class TableState {
    var currentPage: int
    var sortKey: Option<SortKey>
    var sortOrder: SortOrder

    /** A page that exists, or page 1. */
    predicate OnPage(totalPages: int)
      reads this
    {
      1 <= currentPage && (totalPages >= 1 ==> currentPage <= totalPages)
    }

    constructor()
      ensures currentPage == 1 && sortKey == None && sortOrder == Desc
    {
      currentPage := 1;
      sortKey := None;
      sortOrder := Desc;
    }

    /** `handleSort`: the same column flips the direction; a new column sorts descending.
        The page is left as it is. */
    method HandleSort(key: SortKey)
      modifies this
      ensures (sortKey, sortOrder) == SortAfterClick(old(sortKey), old(sortOrder), key)
      ensures currentPage == old(currentPage)
    {
      if sortKey == Some(key) {
        sortOrder := if sortOrder == Asc then Desc else Asc;
      } else {
        sortKey := Some(key);
        sortOrder := Desc;
      }
    }

    /** The previous-page button. */
    method PrevClick(totalPages: int)
      modifies this
      ensures currentPage == PrevPage(old(currentPage))
      ensures sortKey == old(sortKey) && sortOrder == old(sortOrder)
      ensures old(OnPage(totalPages)) ==> OnPage(totalPages)
    {
      currentPage := if currentPage - 1 < 1 then 1 else currentPage - 1;
    }

    /** The next-page button. */
    method NextClick(totalPages: int)
      modifies this
      ensures currentPage == NextPage(old(currentPage), totalPages)
      ensures sortKey == old(sortKey) && sortOrder == old(sortOrder)
      ensures old(OnPage(totalPages)) ==> OnPage(totalPages)
    {
      currentPage := NextPage(currentPage, totalPages);
    }

    /** The rows the table shows for `orders` in its current state. */
    function CurrentRows(orders: seq<OrderWithMetrics>, pageSize: nat, lc: (string, string) -> real)
      : (r: seq<OrderWithMetrics>)
      reads this
      ensures r == PageRows(SortedOrders(orders, sortKey, sortOrder, lc), currentPage, pageSize)
      ensures |r| <= pageSize && multiset(r) <= multiset(orders)
    {
      var sorted := SortedOrders(orders, sortKey, sortOrder, lc);
      var rows := PageRows(sorted, currentPage, pageSize);
      JsSliceSubMultiset(sorted, StartIndex(currentPage, pageSize), EndIndex(currentPage, pageSize));
      rows
    }
  }
}
