/**
 * The two display helpers that the second and third page define with the
 * same text: the risk badge (colour and label) and the emoji marking the
 * distance from the strike. Both test their thresholds in a top-down
 * if/elif chain; their contracts tie them to the interval definitions of
 * module Thresholds.
 */
module Indicators {
  import opened Thresholds

  /** get_risk_indicator: the badge colour and label for an integer risk score. */
  function GetRiskIndicator(riskPoint: int): (r: (string, string))
    ensures r == ("#F90000", "Molto Alto") <==> riskPoint > 270
    ensures r == ("#F99300", "Alto") <==> 170 <= riskPoint <= 270
    ensures r == ("#00f900", "Medio") <==> 70 <= riskPoint < 170
    ensures r == ("#008000", "Basso") <==> riskPoint < 70
    ensures r == RiskIndicator(RiskTierOf(riskPoint))
  {
    if riskPoint > 270 then ("#F90000", "Molto Alto")
    else if riskPoint >= 170 then ("#F99300", "Alto")
    else if riskPoint >= 70 then ("#00f900", "Medio")
    else ("#008000", "Basso")
  }

  /**
   * The badge follows the score monotonically: whatever tiers the badges of
   * a <= b denote, the first is not above the second.
   */
  lemma RiskIndicatorMonotone(a: int, b: int, ta: RiskTier, tb: RiskTier)
    requires a <= b
    requires GetRiskIndicator(a) == RiskIndicator(ta)
    requires GetRiskIndicator(b) == RiskIndicator(tb)
    ensures Rank(ta) <= Rank(tb)
  {
  }

  /** get_distance_color: the emoji for a percentage distance from the strike. */
  function GetDistanceColor(diffPercent: real): (r: string)
    ensures r == "\U{1F534}" <==> diffPercent < 4.50
    ensures r == "\U{1F7E2}" <==> 4.50 <= diffPercent <= 10.0
    ensures r == "\U{1F31F}" <==> diffPercent > 10.0
    ensures r == MarkerEmoji(MarkerOf(diffPercent))
  {
    if diffPercent < 4.50 then "\U{1F534}"
    else if diffPercent <= 10.0 then "\U{1F7E2}"
    else "\U{1F31F}"
  }

  /**
   * The three threshold tests split the reals: for every distance exactly
   * one of them holds, and the emoji is the one that test selects.
   */
  lemma DistanceColorExactlyOne(diffPercent: real)
    ensures (if diffPercent < 4.50 then 1 else 0)
          + (if 4.50 <= diffPercent <= 10.0 then 1 else 0)
          + (if diffPercent > 10.0 then 1 else 0) == 1
    ensures GetDistanceColor(diffPercent) in {"\U{1F534}", "\U{1F7E2}", "\U{1F31F}"}
  {
  }
}
