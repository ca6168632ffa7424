/** The threshold tests that the summary route and the dashboard pages apply to enriched orders,
    each written once against the threshold table. */
module Criteria {
  import opened Types
  import opened Constants
  import opened JsMath

  /** Within the instant-match band: `|spread| <= 0.5`, the boundary included. */
  predicate IsInstantMatch(w: OrderWithMetrics)
  {
    Abs(w.spreadRate) <= Thresholds.spreadRate.instantMatch
  }

  /** Priced below the low spread threshold: `spread < -5`, the boundary excluded. */
  predicate IsLowSpread(w: OrderWithMetrics)
  {
    w.spreadRate < Thresholds.spreadRate.low
  }

  /** A high expected yield: `expected_yield >= 8`. */
  predicate IsHighYield(w: OrderWithMetrics)
  {
    w.expectedYield >= Thresholds.expectedYield.high
  }

  /** A high liquidity score: `liquidity_score >= 70`. */
  predicate IsHighLiquidity(w: OrderWithMetrics)
  {
    w.liquidityScore >= Thresholds.liquidityScore.high
  }

  /** A value opportunity: low spread, liquidity at least medium (40), yield at least medium (5). */
  predicate IsValueOpportunity(w: OrderWithMetrics)
  {
    && w.spreadRate < Thresholds.spreadRate.low
    && w.liquidityScore >= Thresholds.liquidityScore.medium
    && w.expectedYield >= Thresholds.expectedYield.medium
  }

  predicate IsBuyOrder(w: OrderWithMetrics) { w.order.orderType == Buy }
  predicate IsSellOrder(w: OrderWithMetrics) { w.order.orderType == Sell }

  function Spread(w: OrderWithMetrics): real { w.spreadRate }
  function Liquidity(w: OrderWithMetrics): real { w.liquidityScore }

  /** The two bands never overlap: an instant match is never a low-spread order. */
  lemma InstantNotLowSpread(w: OrderWithMetrics)
    ensures !(IsInstantMatch(w) && IsLowSpread(w))
  {
  }
}
