/** The spread-rate histogram (src/components/charts/SpreadDistribution.tsx): eight half-open
    ranges `[min, max)` laid end to end from minus to plus infinity, and the number of orders
    whose spread rate falls in each. */
module SpreadDistribution {
  import opened Wrappers
  import opened Types
  import opened Seqs
  import opened Constants

  /** A range of the chart; `None` bounds are the infinities. */
  datatype Range = Range(caption: string, min: Option<real>, max: Option<real>)
  {
    /** `x >= min && x < max`. */
    predicate Contains(x: real)
    {
      (min.None? || x >= min.value) && (max.None? || x < max.value)
    }
  }

  const Ranges: seq<Range> := [
    Range("< -20%", None, Some(-20.0)),
    Range("-20 ~ -10%", Some(-20.0), Some(-10.0)),
    Range("-10 ~ -5%", Some(-10.0), Some(-5.0)),
    Range("-5 ~ 0%", Some(-5.0), Some(0.0)),
    Range("0 ~ 5%", Some(0.0), Some(5.0)),
    Range("5 ~ 10%", Some(5.0), Some(10.0)),
    Range("10 ~ 20%", Some(10.0), Some(20.0)),
    Range("> 20%", Some(20.0), None)]

  /** The ranges tile the number line: the first starts at minus infinity, the last ends at
      plus infinity, and each range ends where the next begins. */
  lemma RangesTile()
    ensures |Ranges| == 8 && Ranges[0].min.None? && Ranges[7].max.None?
    ensures forall k :: 0 <= k < 7 ==> Ranges[k].max.Some? && Ranges[k].max == Ranges[k + 1].min
  {
  }

  /** The one range that holds `x`: every spread rate lies in exactly one range. */
  function BucketOf(x: real): (k: nat)
    ensures k < |Ranges| && Ranges[k].Contains(x)
    ensures forall j :: 0 <= j < |Ranges| && Ranges[j].Contains(x) ==> j == k
  {
    if x < -20.0 then 0
    else if x < -10.0 then 1
    else if x < -5.0 then 2
    else if x < 0.0 then 3
    else if x < 5.0 then 4
    else if x < 10.0 then 5
    else if x < 20.0 then 6
    else 7
  }

  /** A value on a boundary belongs to the range above it. */
  lemma BoundaryGoesUp()
    ensures BucketOf(-5.0) == 3 && Ranges[3].caption == "-5 ~ 0%"
    ensures BucketOf(20.0) == 7 && Ranges[7].caption == "> 20%"
    ensures BucketOf(-20.0) == 1 && BucketOf(0.0) == 4
  {
  }

  function InRange(r: Range): OrderWithMetrics -> bool
  {
    (o: OrderWithMetrics) => r.Contains(o.spreadRate)
  }

  /** One bar of the chart: a range's label and how many orders fall in it. */
  datatype Bar = Bar(range: string, count: nat)

  function BarFor(data: seq<OrderWithMetrics>): Range -> Bar
  {
    (r: Range) => Bar(r.caption, |Filter(data, InRange(r))|)
  }

  /** `chartData`: one bar per range, in range order. */
  function SpreadBars(data: seq<OrderWithMetrics>): (bars: seq<Bar>)
    ensures |bars| == |Ranges|
    ensures forall k :: 0 <= k < |Ranges| ==>
      bars[k].range == Ranges[k].caption && bars[k].count == |Filter(data, InRange(Ranges[k]))|
  {
    Map(Ranges, BarFor(data))
  }

  function BarTotal(bars: seq<Bar>): nat
  {
    if bars == [] then 0 else bars[0].count + BarTotal(bars[1..])
  }

  /** How many of `rs` hold `x`. */
  function RangeHits(rs: seq<Range>, x: real): nat
  {
    if rs == [] then 0 else (if rs[0].Contains(x) then 1 else 0) + RangeHits(rs[1..], x)
  }

  /** Adding an order to the data adds one to the count of every range that holds it. */
  lemma {:induction false} BarTotalSnoc(rs: seq<Range>, data: seq<OrderWithMetrics>, o: OrderWithMetrics)
    ensures BarTotal(Map(rs, BarFor(data + [o])))
         == BarTotal(Map(rs, BarFor(data))) + RangeHits(rs, o.spreadRate)
  {
    if rs != [] {
      assert Map(rs, BarFor(data + [o]))[1..] == Map(rs[1..], BarFor(data + [o]));
      assert Map(rs, BarFor(data))[1..] == Map(rs[1..], BarFor(data));
      BarTotalSnoc(rs[1..], data, o);
      FilterAppend(data, [o], InRange(rs[0]));
    }
  }

  lemma {:induction false} BarTotalEmpty(rs: seq<Range>)
    ensures BarTotal(Map(rs, BarFor([]))) == 0
  {
    if rs != [] {
      assert Map(rs, BarFor([]))[1..] == Map(rs[1..], BarFor([]));
      BarTotalEmpty(rs[1..]);
    }
  }

  /** A value held by exactly one of `rs` is counted once. */
  lemma {:induction false} RangeHitsUnique(rs: seq<Range>, x: real, k: nat)
    requires k < |rs| && rs[k].Contains(x)
    requires forall j :: 0 <= j < |rs| && rs[j].Contains(x) ==> j == k
    ensures RangeHits(rs, x) == 1
  {
    if k == 0 {
      RangeHitsNone(rs[1..], x);
    } else {
      RangeHitsUnique(rs[1..], x, k - 1);
    }
  }

  lemma {:induction false} RangeHitsNone(rs: seq<Range>, x: real)
    requires forall j :: 0 <= j < |rs| ==> !rs[j].Contains(x)
    ensures RangeHits(rs, x) == 0
  {
    if rs != [] {
      RangeHitsNone(rs[1..], x);
    }
  }

  /** Every order is counted exactly once: the bars add up to the number of orders. */
  lemma {:induction false} BarsCountEveryOrder(data: seq<OrderWithMetrics>)
    ensures BarTotal(SpreadBars(data)) == |data|
  {
    if data == [] {
      BarTotalEmpty(Ranges);
    } else {
      var init := data[..|data| - 1];
      var o := data[|data| - 1];
      assert data == init + [o];
      BarsCountEveryOrder(init);
      BarTotalSnoc(Ranges, init, o);
      RangeHitsUnique(Ranges, o.spreadRate, BucketOf(o.spreadRate));
    }
  }

  /** `getBarColor`: the colour of a bar from its count. */
  function BarColor(count: nat): (color: string)
    ensures count > 50 <==> color == ChartSuccess
    ensures 20 < count <= 50 <==> color == ChartPrimary
    ensures 10 < count <= 20 <==> color == ChartWarning
    ensures count <= 10 <==> color == ChartNeutral
  {
    if count > 50 then ChartSuccess
    else if count > 20 then ChartPrimary
    else if count > 10 then ChartWarning
    else ChartNeutral
  }
}
