/** The configuration record of src/lib/constants.ts: threshold table, signal priorities and
    colours, chart colours. */
module Constants {
  import opened Types

  datatype SpreadRateThresholds = SpreadRateThresholds(instantMatch: real, low: real, high: real)
  datatype LevelThresholds = LevelThresholds(high: real, medium: real, low: real)
  datatype MomentumThresholds = MomentumThresholds(strongUp: real, up: real, stable: real, down: real)

  /** `THRESHOLDS`. */
  datatype ThresholdTable = ThresholdTable(
    spreadRate: SpreadRateThresholds,
    expectedYield: LevelThresholds,
    liquidityScore: LevelThresholds,
    momentum: MomentumThresholds,
    quantity: LevelThresholds)

  const Thresholds: ThresholdTable := ThresholdTable(
    SpreadRateThresholds(0.5, -5.0, 5.0),
    LevelThresholds(8.0, 5.0, 3.0),
    LevelThresholds(70.0, 40.0, 20.0),
    MomentumThresholds(10.0, 5.0, -5.0, -10.0),
    LevelThresholds(100.0, 50.0, 10.0))

  /** The table's bands are ordered as the labels say. */
  lemma ThresholdsOrdered()
    ensures Thresholds.liquidityScore.low < Thresholds.liquidityScore.medium < Thresholds.liquidityScore.high
    ensures Thresholds.spreadRate.low < 0.0 < Thresholds.spreadRate.instantMatch < Thresholds.spreadRate.high
    ensures Thresholds.spreadRate.low == -Thresholds.spreadRate.high
    ensures Thresholds.momentum.strongUp > Thresholds.momentum.up > Thresholds.momentum.stable > Thresholds.momentum.down
    ensures Thresholds.expectedYield.high > Thresholds.expectedYield.medium > Thresholds.expectedYield.low
  {
  }

  /** `SIGNAL_PRIORITY`: sort rank of each signal. */
  function SignalPriority(s: Signal): (r: nat)
    ensures 1 <= r <= 6
  {
    match s
    case Undervalued => 1
    case HighLiquidity => 2
    case Normal => 3
    case LowLiquidity => 4
    case Overvalued => 5
    case Caution => 6
  }

  /** The six priorities are distinct, so they rank the signals 1..6 without ties. */
  lemma SignalPriorityInjective(a: Signal, b: Signal)
    ensures SignalPriority(a) == SignalPriority(b) ==> a == b
  {
  }

  /** `SIGNAL_COLORS`: one colour per signal. */
  function SignalColor(s: Signal): string
  {
    match s
    case Caution => "#dc2626"
    case LowLiquidity => "#f59e0b"
    case Normal => "#6b7280"
    case Undervalued => "#10b981"
    case Overvalued => "#ef4444"
    case HighLiquidity => "#3b82f6"
  }

  /** Each signal has its own colour, written as `#rrggbb`. */
  lemma SignalColorsDistinct(a: Signal, b: Signal)
    ensures |SignalColor(a)| == 7 && SignalColor(a)[0] == '#'
    ensures SignalColor(a) == SignalColor(b) ==> a == b
  {
  }

  /** `CHART_COLORS`, the entries the charts use. */
  const ChartPrimary: string := "#3b82f6"
  const ChartSuccess: string := "#10b981"
  const ChartWarning: string := "#f59e0b"
  const ChartNeutral: string := "#6b7280"
}
