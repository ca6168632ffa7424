/** The records of src/types/order.ts and src/types/metrics.ts. Field names are the feed's
    snake_case keys written in camelCase (`order_no` is `orderNo`); numbers are reals; an
    optional field (`x?: T`) is an Option. */
module Types {
  import opened Wrappers

  /** `order_type`: '구매' (buy) or '판매' (sell). */
  datatype OrderType = Buy | Sell {
    function Label(): string {
      match this
      case Buy => "구매"
      case Sell => "판매"
    }
  }

  /** `order_status`: '대기' (pending), '체결' (filled) or '취소' (cancelled). */
  datatype OrderStatus = Pending | Filled | Cancelled {
    function Label(): string {
      match this
      case Pending => "대기"
      case Filled => "체결"
      case Cancelled => "취소"
    }
  }

  /** The six signal literals, in the order the union type lists them. */
  datatype Signal = Caution | LowLiquidity | Normal | Undervalued | Overvalued | HighLiquidity {
    function Label(): string {
      match this
      case Caution => "주의"
      case LowLiquidity => "유동성↓"
      case Normal => "보통"
      case Undervalued => "저평가"
      case Overvalued => "고평가"
      case HighLiquidity => "유동성↑"
    }
  }

  /** Distinct signals have distinct labels, so a label identifies its signal. */
  lemma SignalLabelsDistinct(a: Signal, b: Signal)
    ensures a.Label() == b.Label() <==> a == b
  {
  }

  /** An order as normalised from the feed. `urlLink` is optional because the feed may omit it. */
  datatype Order = Order(
    orderNo: string,
    orderDate: string,
    songName: string,
    songArtist: string,
    songCategory: string,
    orderType: OrderType,
    orderStatus: OrderStatus,
    orderPrice: real,
    orderCount: real,
    leavesCount: real,
    recentPrice: real,
    orderRoyaltyRate: real,
    urlLink: Option<string>,
    // convenience fields added by normalisation
    orderId: Option<string>,
    orderQuantity: Option<real>,
    songId: Option<string>,
    orderUserId: Option<string>,
    createdAt: Option<string>,
    updatedAt: Option<string>)

  /** An order with its derived metrics (`OrderWithMetrics`); the input order is kept whole.
      Besides the four declared metrics it carries the base yield and the yield advantage that
      the batch computation also attaches. */
  datatype OrderWithMetrics = OrderWithMetrics(
    order: Order,
    spreadRate: real,
    baseYield: real,
    expectedYield: real,
    yieldAdvantage: real,
    liquidityScore: real,
    signal: Signal,
    momentumScore: Option<real>)

  function SignalOf(w: OrderWithMetrics): Signal { w.signal }
  function CategoryOf(w: OrderWithMetrics): string { w.order.songCategory }

  /** `MomentumData.trend`. */
  datatype Trend = Up | Down | Stable

  datatype MomentumData = MomentumData(
    songName: string,
    songArtist: string,
    prices: seq<real>,
    dates: seq<string>,
    trend: Trend,
    momentumScore: real,
    recentChangePercent: real)

  datatype LiquidityMetrics = LiquidityMetrics(
    songName: string,
    buyCount: nat,
    sellCount: nat,
    avgSpread: real,
    liquidityScore: real,
    depthScore: real,
    frequencyScore: real)

  datatype SummaryMetrics = SummaryMetrics(
    totalOrders: nat,
    buyOrders: nat,
    sellOrders: nat,
    avgSpreadRate: real,
    avgExpectedYield: real,
    avgLiquidityScore: real,
    instantMatchCount: nat,
    highYieldCount: nat,
    undervaluedCount: nat,
    timestamp: string)

  /** The three numeric metrics that range filters and averages read: `spread_rate`,
      `expected_yield` and `liquidity_score`. */
  datatype Metric = SpreadRateMetric | ExpectedYieldMetric | LiquidityScoreMetric

  function MetricOf(w: OrderWithMetrics, m: Metric): real
  {
    match m
    case SpreadRateMetric => w.spreadRate
    case ExpectedYieldMetric => w.expectedYield
    case LiquidityScoreMetric => w.liquidityScore
  }

  function MetricFn(m: Metric): OrderWithMetrics -> real
  {
    w => MetricOf(w, m)
  }

  /** `order_quantity || 0`: the quantity, with an absent quantity read as 0. */
  function QuantityOrZero(o: Order): real
  {
    match o.orderQuantity
    case Some(q) => q
    case None => 0.0
  }

  /** `order_quantity || order_count`: the quantity, falling back to the count when the
      quantity is absent or 0. */
  function QuantityOrCount(o: Order): real
  {
    match o.orderQuantity
    case Some(q) => if q != 0.0 then q else o.orderCount
    case None => o.orderCount
  }

  /** `order_id || order_no`: the id, falling back to the order number when it is absent or empty. */
  function IdOrNumber(o: Order): string
  {
    match o.orderId
    case Some(id) => if id != "" then id else o.orderNo
    case None => o.orderNo
  }

  /** The orders inside enriched orders (an `OrderWithMetrics` is also an `Order`). */
  function Orders(ws: seq<OrderWithMetrics>): (r: seq<Order>)
    ensures |r| == |ws| && forall i :: 0 <= i < |ws| ==> r[i] == ws[i].order
  {
    seq(|ws|, i requires 0 <= i < |ws| => ws[i].order)
  }
}
