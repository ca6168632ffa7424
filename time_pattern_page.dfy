/** The time-pattern page (src/app/dashboard/time-pattern/page.tsx): a tally of the orders per
    hour of the day, filled by walking the orders, turned into 24 rows (one per hour, zeros for
    an hour without orders), and the three figures shown under the chart. */
module TimePatternPage {
  import opened Wrappers
  import opened Types
  import opened Seqs
  import opened Text

  /** An hour of the day, as `Date.prototype.getHours` returns it. */
  type Hour = h: nat | h < 24

  /** The tally key of an order: the local hour of its date, or `None` where the date does not
      parse (`getHours` is then `NaN`, a key no row reads). Parsing and the time zone are the
      caller's `hourOf`. */
  function KeyOf(hourOf: string -> Option<Hour>): OrderWithMetrics -> Option<Hour>
  {
    (w: OrderWithMetrics) => hourOf(w.order.orderDate)
  }

  /** The orders filed under key `k`. */
  function InKey(hourOf: string -> Option<Hour>, k: Option<Hour>): OrderWithMetrics -> bool
  {
    (w: OrderWithMetrics) => hourOf(w.order.orderDate) == k
  }

  function Price(w: OrderWithMetrics): real { w.order.orderPrice }
  function SpreadOf(w: OrderWithMetrics): real { w.spreadRate }

  /** The counters kept under one hour. */
  datatype HourStats = HourStats(count: nat, totalPrice: real, totalSpread: real)

  const NoStats: HourStats := HourStats(0, 0.0, 0.0)

  function Bump(s: HourStats, w: OrderWithMetrics): HourStats
  {
    HourStats(s.count + 1, s.totalPrice + Price(w), s.totalSpread + SpreadOf(w))
  }

  /** What the counters of key `k` hold after walking `orders`. */
  function StatsOf(orders: seq<OrderWithMetrics>, hourOf: string -> Option<Hour>, k: Option<Hour>): HourStats
  {
    var inK := InKey(hourOf, k);
    HourStats(CountKey(orders, KeyOf(hourOf), k), SumWhere(orders, inK, Price), SumWhere(orders, inK, SpreadOf))
  }

  /** What the tally object holds after walking `orders`: counters under exactly the keys that
      occur, each with that key's counts and totals. */
  ghost predicate Tallies(t: map<Option<Hour>, HourStats>, orders: seq<OrderWithMetrics>, hourOf: string -> Option<Hour>)
  {
    && (forall k :: k in t <==> CountKey(orders, KeyOf(hourOf), k) > 0)
    && (forall k :: k in t ==> t[k] == StatsOf(orders, hourOf, k))
  }

  /** The reducer for one order: create the key's counters on first sight, then add the order. */
  function Add(t: map<Option<Hour>, HourStats>, w: OrderWithMetrics, hourOf: string -> Option<Hour>): map<Option<Hour>, HourStats>
  {
    var k := hourOf(w.order.orderDate);
    t[k := Bump(if k in t then t[k] else NoStats, w)]
  }

  /** Adding an order changes exactly the counters of its key, by that order. */
  lemma StatsSnoc(orders: seq<OrderWithMetrics>, w: OrderWithMetrics, hourOf: string -> Option<Hour>, k: Option<Hour>)
    ensures var s := StatsOf(orders, hourOf, k);
      StatsOf(orders + [w], hourOf, k) == if KeyOf(hourOf)(w) == k then Bump(s, w) else s
  {
    var inK := InKey(hourOf, k);
    CountKeyAppend(orders, [w], KeyOf(hourOf), k);
    assert [w][1..] == [];
    SumWhereSnoc(orders, w, inK, Price);
    SumWhereSnoc(orders, w, inK, SpreadOf);
  }

  /** A key without counters has no orders yet. */
  lemma UnseenIsEmpty(orders: seq<OrderWithMetrics>, hourOf: string -> Option<Hour>, k: Option<Hour>)
    requires CountKey(orders, KeyOf(hourOf), k) == 0
    ensures StatsOf(orders, hourOf, k) == NoStats
  {
    var inK := InKey(hourOf, k);
    forall i | 0 <= i < |orders| ensures !inK(orders[i]) {
      CountKeyPresent(orders, KeyOf(hourOf), i);
    }
    SumWhereNone(orders, inK, Price);
    SumWhereNone(orders, inK, SpreadOf);
  }

  /** One key's counters after adding `w`. */
  lemma CountersStep(t: map<Option<Hour>, HourStats>, orders: seq<OrderWithMetrics>, w: OrderWithMetrics,
                     hourOf: string -> Option<Hour>, k: Option<Hour>)
    requires Tallies(t, orders, hourOf)
    ensures k in Add(t, w, hourOf) <==> CountKey(orders + [w], KeyOf(hourOf), k) > 0
    ensures k in Add(t, w, hourOf) ==> Add(t, w, hourOf)[k] == StatsOf(orders + [w], hourOf, k)
  {
    CountKeyAppend(orders, [w], KeyOf(hourOf), k);
    assert [w][1..] == [];
    StatsSnoc(orders, w, hourOf, k);
    var kw := hourOf(w.order.orderDate);
    if kw !in t {
      UnseenIsEmpty(orders, hourOf, kw);
    }
  }

  lemma AddStep(t: map<Option<Hour>, HourStats>, orders: seq<OrderWithMetrics>, w: OrderWithMetrics,
                hourOf: string -> Option<Hour>)
    requires Tallies(t, orders, hourOf)
    ensures Tallies(Add(t, w, hourOf), orders + [w], hourOf)
  {
    forall k ensures k in Add(t, w, hourOf) <==> CountKey(orders + [w], KeyOf(hourOf), k) > 0 {
      CountersStep(t, orders, w, hourOf, k);
    }
    forall k | k in Add(t, w, hourOf) ensures Add(t, w, hourOf)[k] == StatsOf(orders + [w], hourOf, k) {
      CountersStep(t, orders, w, hourOf, k);
    }
  }

  lemma AddNext(t: map<Option<Hour>, HourStats>, orders: seq<OrderWithMetrics>, i: nat, hourOf: string -> Option<Hour>)
    requires i < |orders| && Tallies(t, orders[..i], hourOf)
    ensures Tallies(Add(t, orders[i], hourOf), orders[..i + 1], hourOf)
  {
    assert orders[..i + 1] == orders[..i] + [orders[i]];
    AddStep(t, orders[..i], orders[i], hourOf);
  }

  /** `orders.reduce(...)`: the tally of the hours. */
  method TallyHours(orders: seq<OrderWithMetrics>, hourOf: string -> Option<Hour>) returns (t: map<Option<Hour>, HourStats>)
    ensures Tallies(t, orders, hourOf)
  {
    t := map[];
    for i := 0 to |orders|
      invariant Tallies(t, orders[..i], hourOf)
    {
      AddNext(t, orders, i, hourOf);
      t := Add(t, orders[i], hourOf);
    }
    assert orders[..|orders|] == orders;
  }

  /** One point of the line chart. */
  datatype HourRow = HourRow(hour: string, count: nat, avgPrice: real, avgSpread: real)

  /** `` `${hour}시` ``. */
  function HourLabel(h: Hour): string
  {
    NatToString(h) + "시"
  }

  /** The row of hour `h` from its counters, zeros when the hour has none. */
  function RowFrom(h: Hour, s: Option<HourStats>): HourRow
  {
    match s
    case None => HourRow(HourLabel(h), 0, 0.0, 0.0)
    case Some(st) =>
      if st.count == 0 then HourRow(HourLabel(h), 0, 0.0, 0.0)
      else HourRow(HourLabel(h), st.count, st.totalPrice / st.count as real, st.totalSpread / st.count as real)
  }

  /** The row of hour `h` by the specification of the tally. */
  function RowAt(os: seq<OrderWithMetrics>, hourOf: string -> Option<Hour>, h: Hour): HourRow
  {
    RowFrom(h, Some(StatsOf(os, hourOf, Some(h))))
  }

  /** `chartData`: nothing while there are no orders, else one row per hour from 0 to 23. */
  function HourRows(orders: Option<seq<OrderWithMetrics>>, hourOf: string -> Option<Hour>): seq<HourRow>
  {
    match orders
    case None => []
    case Some(os) => seq(24, (h: nat) requires h < 24 => RowAt(os, hourOf, h))
  }

  /** The page's computation from the tally it fills. */
  method HourChart(orders: Option<seq<OrderWithMetrics>>, hourOf: string -> Option<Hour>) returns (rows: seq<HourRow>)
    ensures rows == HourRows(orders, hourOf)
  {
    if orders.None? {
      return [];
    }
    var t := TallyHours(orders.value, hourOf);
    rows := seq(24, (h: nat) requires h < 24 => RowFrom(h, if Some(h as Hour) in t then Some(t[Some(h as Hour)]) else None));
    TallyRows(t, orders.value, hourOf, rows);
  }

  lemma TallyRows(t: map<Option<Hour>, HourStats>, os: seq<OrderWithMetrics>, hourOf: string -> Option<Hour>, rows: seq<HourRow>)
    requires Tallies(t, os, hourOf)
    requires |rows| == 24
    requires forall h: Hour :: rows[h] == RowFrom(h, if Some(h) in t then Some(t[Some(h)]) else None)
    ensures rows == HourRows(Some(os), hourOf)
  {
    forall h: Hour ensures rows[h] == RowAt(os, hourOf, h) {
      if Some(h) !in t {
        UnseenIsEmpty(os, hourOf, Some(h));
      }
    }
  }

  /** Every hour has its row, labelled `"<h>시"`; its count is the number of orders placed in
      that hour, its averages times the count are that hour's totals, and an hour without orders
      shows zeros. */
  lemma HourRowsMeaning(os: seq<OrderWithMetrics>, hourOf: string -> Option<Hour>, h: Hour)
    ensures var rows := HourRows(Some(os), hourOf);
      && |rows| == 24
      && rows[h].hour == NatToString(h) + "시"
      && rows[h].count == CountKey(os, KeyOf(hourOf), Some(h))
      && rows[h].avgPrice * rows[h].count as real == SumWhere(os, InKey(hourOf, Some(h)), Price)
      && rows[h].avgSpread * rows[h].count as real == SumWhere(os, InKey(hourOf, Some(h)), SpreadOf)
      && (rows[h].count == 0 ==> rows[h].avgPrice == 0.0 && rows[h].avgSpread == 0.0)
  {
    RowAtMeaning(os, hourOf, h, HourRows(Some(os), hourOf)[h]);
  }

  lemma RowAtMeaning(os: seq<OrderWithMetrics>, hourOf: string -> Option<Hour>, h: Hour, r: HourRow)
    requires r == RowAt(os, hourOf, h)
    ensures && r.hour == NatToString(h) + "시"
      && r.count == CountKey(os, KeyOf(hourOf), Some(h))
      && r.avgPrice * r.count as real == SumWhere(os, InKey(hourOf, Some(h)), Price)
      && r.avgSpread * r.count as real == SumWhere(os, InKey(hourOf, Some(h)), SpreadOf)
      && (r.count == 0 ==> r.avgPrice == 0.0 && r.avgSpread == 0.0)
  {
    var s := StatsOf(os, hourOf, Some(h));
    if s.count == 0 {
      UnseenIsEmpty(os, hourOf, Some(h));
    } else {
      RowAverages(r, h, s);
    }
  }

  lemma RowAverages(r: HourRow, h: Hour, s: HourStats)
    requires s.count >= 1 && r == RowFrom(h, Some(s))
    ensures r.count == s.count
    ensures r.avgPrice * r.count as real == s.totalPrice && r.avgSpread * r.count as real == s.totalSpread
  {
    var n := s.count as real;
    assert s.totalPrice / n * n == s.totalPrice;
    assert s.totalSpread / n * n == s.totalSpread;
  }

  /** The hour labels of the labelled digits `"0시"` to `"23시"` are all different. */
  lemma HourLabelsDistinct(a: Hour, b: Hour)
    ensures HourLabel(a) == HourLabel(b) <==> a == b
  {
    if HourLabel(a) == HourLabel(b) {
      assert NatToString(a) == HourLabel(a)[..|HourLabel(a)| - 1];
      assert NatToString(b) == HourLabel(b)[..|HourLabel(b)| - 1];
      NatToStringRoundTrip(a);
      NatToStringRoundTrip(b);
    }
  }

  function RowCount(r: HourRow): real { r.count as real }

  /** Orders with an unreadable date are counted in no hour: the 24 counts add up to the
      number of orders whose date gives an hour. */
  lemma CountsAddUp(os: seq<OrderWithMetrics>, hourOf: string -> Option<Hour>)
    ensures Sum(HourRows(Some(os), hourOf), RowCount) + CountKey(os, KeyOf(hourOf), None) as real == |os| as real
  {
    var hours := seq(24, (h: nat) requires h < 24 => Some(h as Hour));
    var keys := [None] + hours;
    HourCountsAreCounts(os, hourOf, hours);
    AllKeys(keys, os, hourOf);
    PartitionCount(keys, os, KeyOf(hourOf));
    assert keys[1..] == hours;
  }

  /** The 24 row counts add up to the orders counted per hour. */
  lemma HourCountsAreCounts(os: seq<OrderWithMetrics>, hourOf: string -> Option<Hour>, hours: seq<Option<Hour>>)
    requires hours == seq(24, (h: nat) requires h < 24 => Some(h as Hour))
    ensures Sum(HourRows(Some(os), hourOf), RowCount) == CountPerKey(hours, os, KeyOf(hourOf)) as real
  {
    var mk := (k: Option<Hour>) => if k.Some? then RowAt(os, hourOf, k.value) else HourRow("", 0, 0.0, 0.0);
    forall i | 0 <= i < |hours| ensures RowCount(mk(hours[i])) == CountKey(os, KeyOf(hourOf), hours[i]) as real {
      HourRowsMeaning(os, hourOf, i);
    }
    SumOfKeyedCounts(hours, os, KeyOf(hourOf), mk, RowCount);
    assert Map(hours, mk) == HourRows(Some(os), hourOf);
  }

  lemma AllKeys(keys: seq<Option<Hour>>, os: seq<OrderWithMetrics>, hourOf: string -> Option<Hour>)
    requires keys == [None] + seq(24, (h: nat) requires h < 24 => Some(h as Hour))
    ensures NoDup(keys)
    ensures forall x :: x in os ==> KeyOf(hourOf)(x) in keys
  {
    forall x | x in os ensures KeyOf(hourOf)(x) in keys {
      var k := KeyOf(hourOf)(x);
      if k.Some? {
        assert keys[k.value + 1] == k;
      } else {
        assert keys[0] == k;
      }
    }
  }

  /** `chartData.reduce((max, cur) => cur.count > max.count ? cur : max)`, tracking the index of
      the accumulator: from `best`, look at the rows from `i` on. */
  function BusiestFrom(rows: seq<HourRow>, best: nat, i: nat): (k: nat)
    requires best < |rows| && i <= |rows|
    ensures k < |rows|
    decreases |rows| - i
  {
    if i == |rows| then best
    else BusiestFrom(rows, if rows[i].count > rows[best].count then i else best, i + 1)
  }

  /** "가장 활발한 시간": the row the reduce ends on; `None` where the reduce, which has no
      initial value, would throw on an empty array. */
  function BusiestRow(rows: seq<HourRow>): Option<HourRow>
  {
    if rows == [] then None else Some(rows[BusiestFrom(rows, 0, 1)])
  }

  lemma {:induction false} BusiestFromIsFirstMaximum(rows: seq<HourRow>, best: nat, i: nat)
    requires best < i <= |rows|
    requires forall j :: 0 <= j < i ==> rows[j].count <= rows[best].count
    requires forall j :: 0 <= j < best ==> rows[j].count < rows[best].count
    ensures var k := BusiestFrom(rows, best, i);
      && (forall j :: 0 <= j < |rows| ==> rows[j].count <= rows[k].count)
      && (forall j :: 0 <= j < k ==> rows[j].count < rows[k].count)
    decreases |rows| - i
  {
    if i < |rows| {
      BusiestFromIsFirstMaximum(rows, if rows[i].count > rows[best].count then i else best, i + 1);
    }
  }

  /** The busiest row has the greatest count, and, since a tie keeps the accumulator, it is the
      earliest hour with that count. */
  lemma BusiestIsEarliestMaximum(rows: seq<HourRow>)
    requires rows != []
    ensures exists k ::
      && 0 <= k < |rows| && BusiestRow(rows) == Some(rows[k])
      && (forall j :: 0 <= j < |rows| ==> rows[j].count <= rows[k].count)
      && (forall j :: 0 <= j < k ==> rows[j].count < rows[k].count)
  {
    BusiestFromIsFirstMaximum(rows, 0, 1);
    var k := BusiestFrom(rows, 0, 1);
    assert BusiestRow(rows) == Some(rows[k]);
  }

  /** `Math.max(...chartData.map((d) => d.count))`; `None` for `-Infinity`, the maximum of no
      values. */
  function PeakCount(rows: seq<HourRow>): (m: Option<nat>)
    ensures m.None? <==> rows == []
    ensures m.Some? ==> exists j :: 0 <= j < |rows| && rows[j].count == m.value
    ensures m.Some? ==> forall j :: 0 <= j < |rows| ==> rows[j].count <= m.value
  {
    if rows == [] then None
    else
      var rest := PeakCount(rows[1..]);
      if rest.None? || rows[0].count >= rest.value then
        assert forall j :: 1 <= j < |rows| ==> rows[j] == rows[1..][j - 1];
        Some(rows[0].count)
      else
        var j :| 0 <= j < |rows[1..]| && rows[1..][j].count == rest.value;
        assert rows[j + 1].count == rest.value;
        assert forall j :: 1 <= j < |rows| ==> rows[j] == rows[1..][j - 1];
        rest
  }

  /** The two cards agree: the peak count is the busiest hour's count. */
  lemma PeakIsBusiest(rows: seq<HourRow>)
    requires rows != []
    ensures PeakCount(rows).Some? && BusiestRow(rows).Some?
    ensures PeakCount(rows).value == BusiestRow(rows).value.count
  {
    BusiestIsEarliestMaximum(rows);
  }

  /** `chartData.reduce((sum, d) => sum + d.count, 0) / 24`: the mean number of orders per
      hour. */
  function MeanPerHour(rows: seq<HourRow>): real
  {
    Sum(rows, RowCount) / 24.0
  }

  /** The mean is the number of orders with a readable date spread over the 24 hours. */
  lemma MeanCountsDatedOrders(os: seq<OrderWithMetrics>, hourOf: string -> Option<Hour>)
    ensures MeanPerHour(HourRows(Some(os), hourOf)) * 24.0 == (|os| - CountKey(os, KeyOf(hourOf), None)) as real
  {
    CountsAddUp(os, hourOf);
  }
}
