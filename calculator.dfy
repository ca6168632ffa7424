/** The metrics engine (`MetricsCalculator` in src/lib/metrics/calculator.ts). The class has no
    state, so each of its methods is a function here. */
module Calculator {
  import opened Wrappers
  import opened Types
  import opened Constants
  import opened Seqs
  import opened Sorting
  import opened JsMath

  // ---------------------------------------------------------------- price and yield

  /** `calculateSpreadRate`: how far the order price lies above the recent trade price, in
      percent of the recent price; 0 when there is no recent price. */
  function SpreadRate(orderPrice: real, recentPrice: real): (r: real)
    ensures recentPrice == 0.0 ==> r == 0.0
    ensures recentPrice != 0.0 ==> r * recentPrice == (orderPrice - recentPrice) * 100.0
    ensures recentPrice > 0.0 ==>
      (r > 0.0 <==> orderPrice > recentPrice) && (r == 0.0 <==> orderPrice == recentPrice)
  {
    if recentPrice == 0.0 then 0.0 else (orderPrice - recentPrice) / recentPrice * 100.0
  }

  /** `calculateBaseYield`: the royalty rate as a percentage. */
  function BaseYield(royaltyRate: real): (r: real)
    ensures r / 100.0 == royaltyRate
    ensures r > 0.0 <==> royaltyRate > 0.0
  {
    royaltyRate * 100.0
  }

  /** `calculateExpectedYield`: yearly royalty earned on the recent price, in percent of the
      amount paid (the order price); 0 when either price is missing. */
  function ExpectedYield(royaltyRate: real, recentPrice: real, orderPrice: real): (r: real)
    ensures orderPrice == 0.0 || recentPrice == 0.0 ==> r == 0.0
    ensures orderPrice != 0.0 && recentPrice != 0.0 ==>
      r * orderPrice == royaltyRate * recentPrice * 100.0
  {
    if orderPrice == 0.0 then 0.0
    else if recentPrice == 0.0 then 0.0
    else royaltyRate * recentPrice / orderPrice * 100.0
  }

  /** `calculateYieldAdvantage`. */
  function YieldAdvantage(orderYield: real, baseYield: real): (r: real)
    ensures baseYield + r == orderYield
    ensures r > 0.0 <==> orderYield > baseYield
  {
    orderYield - baseYield
  }

  /** The base yield is the expected yield of buying at the recent price, so an order at the
      recent price has no advantage. */
  lemma BaseYieldIsYieldAtMarket(royaltyRate: real, price: real)
    requires price != 0.0
    ensures ExpectedYield(royaltyRate, price, price) == BaseYield(royaltyRate)
    ensures YieldAdvantage(ExpectedYield(royaltyRate, price, price), BaseYield(royaltyRate)) == 0.0
  {
    var r := ExpectedYield(royaltyRate, price, price);
    assert r * price == BaseYield(royaltyRate) * price;
  }

  /** For a positive royalty rate and positive prices the advantage is positive exactly when
      the order is below the recent price (a discount) and negative exactly when above it. */
  lemma AdvantageSign(royaltyRate: real, recentPrice: real, orderPrice: real)
    requires royaltyRate > 0.0 && recentPrice > 0.0 && orderPrice > 0.0
    ensures var adv := YieldAdvantage(ExpectedYield(royaltyRate, recentPrice, orderPrice), BaseYield(royaltyRate));
      (adv > 0.0 <==> orderPrice < recentPrice) && (adv < 0.0 <==> orderPrice > recentPrice)
  {
    var ey := ExpectedYield(royaltyRate, recentPrice, orderPrice);
    var base := BaseYield(royaltyRate);
    assert ey * orderPrice == base * recentPrice;
    // ey - base has the sign of (ey - base) * orderPrice = base * (recentPrice - orderPrice)
    assert (ey - base) * orderPrice == base * (recentPrice - orderPrice);
    SignOfProduct(ey - base, orderPrice);
    SignOfProduct(recentPrice - orderPrice, base);
  }

  lemma SignOfProduct(x: real, y: real)
    requires y > 0.0
    ensures (x * y > 0.0 <==> x > 0.0) && (x * y < 0.0 <==> x < 0.0)
  {
    if x > 0.0 {
      assert x * y > 0.0;
    } else if x < 0.0 {
      assert (-x) * y > 0.0;
    }
  }

  /** The documented example: rate 0.082, recent price 15400, order price 20100 gives an
      expected yield of about 6.28% and an advantage of about -1.92 points. */
  lemma DocumentedYieldExample()
    ensures 6.28 < ExpectedYield(0.082, 15400.0, 20100.0) < 6.29
    ensures -1.92 < YieldAdvantage(ExpectedYield(0.082, 15400.0, 20100.0), BaseYield(0.082)) < -1.91
  {
    var r := ExpectedYield(0.082, 15400.0, 20100.0);
    assert r * 20100.0 == 126280.0;
  }

  // ---------------------------------------------------------------- liquidity

  /** The predicate `o => o.song_id === id`. */
  function SameSong(id: Option<string>): Order -> bool
  {
    (o: Order) => o.songId == id
  }

  /** The orders of the same song as `order`, in input order: every order of that song, as
      often as it occurs in `all`, and no other. */
  function Cohort(order: Order, all: seq<Order>): (c: seq<Order>)
    ensures forall i :: 0 <= i < |c| ==> c[i].songId == order.songId
    ensures forall i :: 0 <= i < |all| && all[i].songId == order.songId ==> all[i] in c
    ensures forall x :: multiset(c)[x] == if x.songId == order.songId then multiset(all)[x] else 0
    ensures IsSubseq(c, all)
  {
    FilterIsSubseq(all, SameSong(order.songId));
    FilterCounts(all, SameSong(order.songId));
    Filter(all, SameSong(order.songId))
  }

  function OrderSpread(o: Order): real
  {
    SpreadRate(o.orderPrice, o.recentPrice)
  }

  /** `calculateAverageSpread`: mean spread rate, 0 for no orders. */
  function AverageSpread(orders: seq<Order>): (r: real)
    ensures orders == [] ==> r == 0.0
    ensures orders != [] ==> r * |orders| as real == Sum(orders, OrderSpread)
  {
    if |orders| == 0 then 0.0 else Sum(orders, OrderSpread) / |orders| as real
  }

  predicate IsBuy(o: Order) { o.orderType == Buy }
  predicate IsSell(o: Order) { o.orderType == Sell }

  function BuyVolume(orders: seq<Order>): real
  {
    Sum(Filter(orders, IsBuy), QuantityOrZero)
  }

  function SellVolume(orders: seq<Order>): real
  {
    Sum(Filter(orders, IsSell), QuantityOrZero)
  }

  /** No order carries a negative quantity (a missing quantity counts as 0). */
  predicate NonNegativeQuantities(orders: seq<Order>)
  {
    forall o :: o in orders ==> QuantityOrZero(o) >= 0.0
  }

  lemma VolumesNonNegative(orders: seq<Order>)
    ensures NonNegativeQuantities(orders) ==> BuyVolume(orders) >= 0.0 && SellVolume(orders) >= 0.0
  {
    if NonNegativeQuantities(orders) {
      SumNonNegative(Filter(orders, IsBuy), QuantityOrZero);
      SumNonNegative(Filter(orders, IsSell), QuantityOrZero);
    }
  }

  /** The balance part of the depth score: how evenly the volume splits between the two sides,
      50 for an even split. */
  function BalanceScore(buy: real, sell: real): (r: real)
    requires buy + sell != 0.0
    ensures buy >= 0.0 && sell >= 0.0 ==> 0.0 <= r <= 50.0
    ensures buy >= 0.0 && sell >= 0.0 ==> (r == 50.0 <==> buy == sell)
  {
    BalanceBounds(buy, sell);
    Min(buy, sell) / ((buy + sell) / 2.0) * 50.0
  }

  lemma BalanceBounds(buy: real, sell: real)
    requires buy + sell != 0.0
    ensures var b := Min(buy, sell) / ((buy + sell) / 2.0);
      buy >= 0.0 && sell >= 0.0 ==> 0.0 <= b <= 1.0 && (b == 1.0 <==> buy == sell)
  {
    var m := Min(buy, sell);
    var h := (buy + sell) / 2.0;
    if buy >= 0.0 && sell >= 0.0 {
      assert 0.0 <= m <= h && h > 0.0;
      assert (m == h <==> buy == sell);
      UnitFraction(m, h);
    }
  }

  /** A part no larger than a positive whole is a fraction in [0, 1], and 1 only when equal. */
  lemma UnitFraction(m: real, h: real)
    requires 0.0 <= m <= h && h > 0.0
    ensures 0.0 <= m / h <= 1.0 && (m / h == 1.0 <==> m == h)
  {
    assert m / h * h == m;
  }

  /** The volume part of the depth score: 50 points per 1000 units, at most 50. */
  function VolumeScore(total: real): (r: real)
    ensures r <= 50.0
    ensures total >= 0.0 ==> r >= 0.0
    ensures r == 50.0 <==> total >= 1000.0
  {
    Min(50.0, total / 1000.0 * 50.0)
  }

  /** `calculateDepthScore`: balance of buy and sell volume plus overall volume; 0 when the
      orders carry no volume. */
  function DepthScore(orders: seq<Order>): (r: real)
    ensures BuyVolume(orders) + SellVolume(orders) == 0.0 ==> r == 0.0
    ensures NonNegativeQuantities(orders) ==> 0.0 <= r <= 100.0
  {
    var buy := BuyVolume(orders);
    var sell := SellVolume(orders);
    if buy + sell == 0.0 then 0.0
    else
      VolumesNonNegative(orders);
      BalanceScore(buy, sell) + VolumeScore(buy + sell)
  }

  /** The spread part of the liquidity score: 100 for an average spread of 0, 5 points less per
      point of spread, never below 0. */
  function SpreadScore(avgSpread: real): (r: real)
    ensures 0.0 <= r <= 100.0
    ensures r == 100.0 <==> avgSpread == 0.0
    ensures r == 0.0 <==> Abs(avgSpread) >= 20.0
  {
    Max(0.0, 100.0 - Abs(avgSpread) * 5.0)
  }

  /** The frequency part of the liquidity score: 2 points per order, at most 100. */
  function FrequencyScore(count: nat): (r: real)
    ensures 0.0 <= r <= 100.0
    ensures r == 100.0 <==> count >= 50
  {
    Min(100.0, count as real / 50.0 * 100.0)
  }

  /** `calculateLiquidityScore`: weighted 40/30/30 spread, depth and frequency scores over the
      cohort of orders for the same song; 0 when there is no such order. */
  function LiquidityScore(order: Order, all: seq<Order>): (r: real)
    ensures Cohort(order, all) == [] ==> r == 0.0
    ensures NonNegativeQuantities(all) ==> 0.0 <= r <= 100.0
  {
    var c := Cohort(order, all);
    if |c| == 0 then 0.0
    else
      CohortQuantities(order, all);
      SpreadScore(AverageSpread(c)) * 0.4 + DepthScore(c) * 0.3 + FrequencyScore(|c|) * 0.3
  }

  lemma CohortQuantities(order: Order, all: seq<Order>)
    ensures NonNegativeQuantities(all) ==> NonNegativeQuantities(Cohort(order, all))
  {
    var c := Cohort(order, all);
    if NonNegativeQuantities(all) {
      forall o | o in c ensures QuantityOrZero(o) >= 0.0 {
        var i :| 0 <= i < |c| && c[i] == o;
      }
    }
  }

  /** A cohort of same-song orders made entirely of market-priced orders with at least 50
      orders and perfectly balanced buy and sell volume of at least 1000 units has the full
      score of 100. */
  lemma LiquidityScoreMaximal(order: Order, all: seq<Order>)
    requires var c := Cohort(order, all);
      && |c| >= 50
      && AverageSpread(c) == 0.0
      && BuyVolume(c) == SellVolume(c) && BuyVolume(c) >= 500.0
    ensures LiquidityScore(order, all) == 100.0
  {
  }

  /** The score depends on the orders only as a collection: reordering the input list does
      not change it. */
  lemma LiquidityScoreReorder(order: Order, all: seq<Order>, all': seq<Order>)
    requires multiset(all) == multiset(all')
    ensures LiquidityScore(order, all) == LiquidityScore(order, all')
  {
    var c := Cohort(order, all);
    var c' := Cohort(order, all');
    FilterPermutation(all, all', SameSong(order.songId));
    AverageSpreadReorder(c, c');
    DepthScoreReorder(c, c');
  }

  lemma AverageSpreadReorder(c: seq<Order>, c': seq<Order>)
    requires multiset(c) == multiset(c')
    ensures |c| == |c'| && AverageSpread(c) == AverageSpread(c')
  {
    assert |c| == |multiset(c)| == |multiset(c')| == |c'|;
    SumPermutation(c, c', OrderSpread);
  }

  lemma DepthScoreReorder(c: seq<Order>, c': seq<Order>)
    requires multiset(c) == multiset(c')
    ensures DepthScore(c) == DepthScore(c')
  {
    FilterPermutation(c, c', IsBuy);
    FilterPermutation(c, c', IsSell);
    SumPermutation(Filter(c, IsBuy), Filter(c', IsBuy), QuantityOrZero);
    SumPermutation(Filter(c, IsSell), Filter(c', IsSell), QuantityOrZero);
  }

  // ---------------------------------------------------------------- signal

  /** `generateSignal`: the first matching rule of six decides. Each `ensures` states when one
      signal is produced, so together they give the whole decision table. */
  function GenerateSignal(order: Order, spreadRate: real, liquidityScore: real): (s: Signal)
    ensures var caution := Abs(spreadRate) > 20.0 || order.orderPrice <= 0.0 || order.recentPrice <= 0.0;
      && (s == Caution <==> caution)
      && (s == Undervalued <==> !caution && spreadRate < -5.0 && liquidityScore > 40.0)
      && (s == Overvalued <==> !caution && spreadRate > 5.0 && liquidityScore > 40.0)
      && (s == HighLiquidity <==> !caution && -5.0 <= spreadRate <= 5.0 && liquidityScore > 70.0)
      && (s == LowLiquidity <==> !caution && liquidityScore < 20.0)
      && (s == Normal <==> !caution && 20.0 <= liquidityScore <= 70.0
                           && (liquidityScore <= 40.0 || -5.0 <= spreadRate <= 5.0))
  {
    var spread := Thresholds.spreadRate;
    var liquidity := Thresholds.liquidityScore;
    if Abs(spreadRate) > 20.0 || order.orderPrice <= 0.0 || order.recentPrice <= 0.0 then Caution
    else if spreadRate < spread.low && liquidityScore > liquidity.medium then Undervalued
    else if spreadRate > spread.high && liquidityScore > liquidity.medium then Overvalued
    else if liquidityScore > liquidity.high then HighLiquidity
    else if liquidityScore < liquidity.low then LowLiquidity
    else Normal
  }

  // ---------------------------------------------------------------- momentum

  /** `o => new Date(o.order_date).getTime()`, with the date parser given as `timeOf`. */
  function TimeKey(timeOf: string -> int): Order -> real
  {
    (o: Order) => timeOf(o.orderDate) as real
  }

  /** The trend band: up above +5%, down below -10%, stable in between. */
  function TrendOf(change: real): (t: Trend)
    ensures t == Up <==> change > Thresholds.momentum.up
    ensures t == Down <==> change < Thresholds.momentum.down
    ensures t == Stable <==> -10.0 <= change <= 5.0
  {
    if change > Thresholds.momentum.up then Up
    else if change < Thresholds.momentum.down then Down
    else Stable
  }

  /** `Math.max(-100, Math.min(100, change))`. */
  function ClampScore(change: real): (r: real)
    ensures -100.0 <= r <= 100.0
    ensures -100.0 <= change <= 100.0 ==> r == change
    ensures change > 100.0 ==> r == 100.0
    ensures change < -100.0 ==> r == -100.0
  {
    Max(-100.0, Min(100.0, change))
  }

  /** Percentage change from the first to the last price; 0 when the first price is 0. */
  function ChangePercent(first: real, last: real): (r: real)
    ensures first == 0.0 ==> r == 0.0
    ensures first != 0.0 ==> r * first == (last - first) * 100.0
  {
    if first != 0.0 then (last - first) / first * 100.0 else 0.0
  }

  function OrderPrice(o: Order): real { o.orderPrice }
  function OrderDate(o: Order): string { o.orderDate }

  /** The orders of the song, oldest first (`filter` then `sort` by time). */
  function SongTimeline(orders: seq<Order>, songId: string, timeOf: string -> int): (r: seq<Order>)
    ensures multiset(r) == multiset(Filter(orders, SameSong(Some(songId))))
    ensures Chronological(r, timeOf)
  {
    var song := Filter(orders, SameSong(Some(songId)));
    TimelineSorted(song, timeOf);
    SortWith(song, ByKeyAsc(TimeKey(timeOf)))
  }

  /** Each order's date is no later than any later order's date. */
  predicate Chronological(r: seq<Order>, timeOf: string -> int)
  {
    forall i, j :: 0 <= i < j < |r| ==> timeOf(r[i].orderDate) <= timeOf(r[j].orderDate)
  }

  lemma TimelineSorted(song: seq<Order>, timeOf: string -> int)
    ensures Chronological(SortWith(song, ByKeyAsc(TimeKey(timeOf))), timeOf)
  {
    var r := SortWith(song, ByKeyAsc(TimeKey(timeOf)));
    SortedAscending(song, TimeKey(timeOf));
    forall i, j | 0 <= i < j < |r| ensures timeOf(r[i].orderDate) <= timeOf(r[j].orderDate) {
      assert TimeKey(timeOf)(r[i]) <= TimeKey(timeOf)(r[j]);
    }
  }

  /** `calculatePriceMomentum`: the orders of the song, oldest first, give the price series;
      the change from the first to the last price gives the trend and the score. With fewer
      than two orders the result is flat. */
  function PriceMomentum(orders: seq<Order>, songId: string, timeOf: string -> int): (m: MomentumData)
    ensures var line := SongTimeline(orders, songId, timeOf);
      && (|line| < 2 ==>
            && m.prices == [] && m.dates == []
            && m.trend == Stable && m.momentumScore == 0.0 && m.recentChangePercent == 0.0
            && m.songName == (if |line| == 1 then line[0].songName else "")
            && m.songArtist == (if |line| == 1 then line[0].songArtist else ""))
      && (|line| >= 2 ==>
            && |m.prices| == |m.dates| == |line|
            && (forall i :: 0 <= i < |line| ==>
                  m.prices[i] == line[i].orderPrice && m.dates[i] == line[i].orderDate)
            && m.recentChangePercent == ChangePercent(m.prices[0], m.prices[|line| - 1])
            && m.trend == TrendOf(m.recentChangePercent)
            && m.momentumScore == ClampScore(m.recentChangePercent)
            && m.songName == line[0].songName && m.songArtist == line[0].songArtist)
  {
    var line := SongTimeline(orders, songId, timeOf);
    if |line| < 2 then
      MomentumData(if |line| > 0 then line[0].songName else "",
                   if |line| > 0 then line[0].songArtist else "",
                   [], [], Stable, 0.0, 0.0)
    else
      var prices := Map(line, OrderPrice);
      var change := ChangePercent(prices[0], prices[|prices| - 1]);
      MomentumData(line[0].songName, line[0].songArtist, prices, Map(line, OrderDate),
                   TrendOf(change), ClampScore(change), change)
  }

  /** A song with one order keeps that order's name: the sort of one element is that element. */
  lemma MomentumSingleOrderName(orders: seq<Order>, songId: string, timeOf: string -> int)
    requires |Filter(orders, SameSong(Some(songId)))| == 1
    ensures PriceMomentum(orders, songId, timeOf).songName == Filter(orders, SameSong(Some(songId)))[0].songName
  {
    var song := Filter(orders, SameSong(Some(songId)));
    SortSingleton(song, ByKeyAsc(TimeKey(timeOf)));
  }

  /** The dates of the series are in chronological order and index-aligned with the prices. */
  lemma MomentumChronological(orders: seq<Order>, songId: string, timeOf: string -> int)
    ensures var m := PriceMomentum(orders, songId, timeOf);
      && |m.prices| == |m.dates|
      && forall i, j :: 0 <= i < j < |m.dates| ==> timeOf(m.dates[i]) <= timeOf(m.dates[j])
  {
  }

  lemma SortSingleton<T>(s: seq<T>, cmp: (T, T) -> real)
    ensures |s| == 1 ==> SortWith(s, cmp) == s
  {
  }

  /** Threshold examples for the trend band: exactly +5% and exactly -10% are stable. */
  lemma TrendBoundaries()
    ensures TrendOf(5.0) == Stable && TrendOf(5.01) == Up
    ensures TrendOf(-10.0) == Stable && TrendOf(-10.01) == Down
  {
  }

  // ---------------------------------------------------------------- batch

  /** The metrics of one order, with its cohort drawn from `all`. */
  function Enrich(order: Order, all: seq<Order>): (w: OrderWithMetrics)
    ensures w.order == order
    ensures w.spreadRate == SpreadRate(order.orderPrice, order.recentPrice)
    ensures w.baseYield == BaseYield(order.orderRoyaltyRate)
    ensures w.expectedYield == ExpectedYield(order.orderRoyaltyRate, order.recentPrice, order.orderPrice)
    ensures w.yieldAdvantage == w.expectedYield - w.baseYield
    ensures w.liquidityScore == LiquidityScore(order, all)
    ensures w.signal == GenerateSignal(order, w.spreadRate, w.liquidityScore)
    ensures w.momentumScore == None
  {
    var spreadRate := SpreadRate(order.orderPrice, order.recentPrice);
    var baseYield := BaseYield(order.orderRoyaltyRate);
    var expectedYield := ExpectedYield(order.orderRoyaltyRate, order.recentPrice, order.orderPrice);
    var liquidity := LiquidityScore(order, all);
    OrderWithMetrics(order, spreadRate, baseYield, expectedYield,
                     YieldAdvantage(expectedYield, baseYield), liquidity,
                     GenerateSignal(order, spreadRate, liquidity), None)
  }

  /** `calculateBatchMetrics`: every order, in input order, with its metrics; every cohort is
      drawn from the whole input list. */
  function BatchMetrics(orders: seq<Order>): (r: seq<OrderWithMetrics>)
    ensures |r| == |orders|
    ensures forall i :: 0 <= i < |orders| ==> r[i] == Enrich(orders[i], orders)
    ensures Types.Orders(r) == orders
  {
    seq(|orders|, i requires 0 <= i < |orders| => Enrich(orders[i], orders))
  }

  /** Orders of the same song get the same liquidity score, and with non-negative quantities
      every score lies in [0, 100]. */
  lemma BatchLiquidityConsistent(orders: seq<Order>, i: nat, j: nat)
    requires i < |orders| && j < |orders|
    ensures orders[i].songId == orders[j].songId ==>
      BatchMetrics(orders)[i].liquidityScore == BatchMetrics(orders)[j].liquidityScore
    ensures NonNegativeQuantities(orders) ==>
      0.0 <= BatchMetrics(orders)[i].liquidityScore <= 100.0
  {
    if orders[i].songId == orders[j].songId {
      SameSongSameScore(orders[i], orders[j], orders);
    }
  }

  lemma SameSongSameScore(a: Order, b: Order, all: seq<Order>)
    requires a.songId == b.songId
    ensures LiquidityScore(a, all) == LiquidityScore(b, all)
  {
    assert Cohort(a, all) == Cohort(b, all);
  }

  /** An order always belongs to its own cohort, so inside a batch no liquidity score comes
      from the empty-cohort case. */
  lemma BatchCohortNonEmpty(orders: seq<Order>, i: nat)
    requires i < |orders|
    ensures orders[i] in Cohort(orders[i], orders)
  {
  }

  // ---------------------------------------------------------------- liquidity metrics

  /** `calculateLiquidityMetrics` for one song id: counts per side, average spread and the
      three scores over the song's orders; all zero when the song has no order. */
  function LiquidityMetricsFor(orders: seq<Order>, songId: string): (m: LiquidityMetrics)
    ensures var song := Filter(orders, SameSong(Some(songId)));
      && (song == [] ==> m == LiquidityMetrics("", 0, 0, 0.0, 0.0, 0.0, 0.0))
      && (song != [] ==>
            && m.songName == song[0].songName
            && m.buyCount == |Filter(song, IsBuy)| && m.sellCount == |Filter(song, IsSell)|
            && m.buyCount + m.sellCount == |song|
            && m.avgSpread == AverageSpread(song)
            && m.liquidityScore == SpreadScore(m.avgSpread) * 0.4 + m.depthScore * 0.3 + m.frequencyScore * 0.3
            && m.depthScore == DepthScore(song)
            && m.frequencyScore == FrequencyScore(|song|))
  {
    var song := Filter(orders, SameSong(Some(songId)));
    if |song| == 0 then LiquidityMetrics("", 0, 0, 0.0, 0.0, 0.0, 0.0)
    else
      FilterSplit(song, IsBuy, IsSell);
      assert song[0] in song;
      assert Cohort(song[0], orders) == song;
      LiquidityMetrics(song[0].songName, |Filter(song, IsBuy)|, |Filter(song, IsSell)|,
                       AverageSpread(song), LiquidityScore(song[0], orders), DepthScore(song),
                       FrequencyScore(|song|))
  }
}
