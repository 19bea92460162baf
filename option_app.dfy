/**
 * The first page: a text colour for the percentage distance from the strike,
 * a badge colour for the risk score, and the price and contract ratios
 * computed without any guard on their divisors.
 */
module OptionApp {
  import opened Thresholds
  import Metrics

  /** get_custom_color: gold above 10 %, green from 4.50 % up to 10 %, red below 4.50 %. */
  function GetCustomColor(diffPercent: real): (r: string)
    ensures r == "#FFD700" <==> diffPercent > 10.0
    ensures r == "#008000" <==> 4.50 <= diffPercent <= 10.0
    ensures r == "#FF0000" <==> diffPercent < 4.50
    ensures r == MarkerHex(MarkerOf(diffPercent))
  {
    if diffPercent > 10.0 then "#FFD700"
    else if diffPercent >= 4.50 then "#008000"
    else "#FF0000"
  }

  /**
   * get_color_risk: the badge colour for a risk score; the colour_picker
   * beside it starts from this colour.
   */
  function GetColorRisk(riskPoint: int): (r: string)
    ensures r == "#F90000" <==> riskPoint > 270
    ensures r == "#F99300" <==> 170 <= riskPoint <= 270
    ensures r == "#00f900" <==> 70 <= riskPoint < 170
    ensures r == "#008000" <==> riskPoint < 70
    ensures r == RiskColour(RiskTierOf(riskPoint))
  {
    if riskPoint > 270 then "#F90000"
    else if riskPoint >= 170 then "#F99300"
    else if riskPoint >= 70 then "#00f900"
    else "#008000"
  }

  /**
   * Within the ranges of the page's inputs (return 1 .. 100 %, safety price
   * 1 .. 1000, score 1 .. 400) both unguarded divisions are defined: the
   * score is nonzero and the indicative price is strictly positive, so the
   * number of contracts is too.
   */
  lemma UnguardedDivisionsDefined(capitale: int, rendimento: real, sicurePrice: real, riskPoint: int)
    requires 100 <= capitale <= 100000
    requires 1.0 <= rendimento <= 100.0
    requires 1.0 <= sicurePrice <= 1000.0
    requires 1 <= riskPoint <= 400
    ensures riskPoint != 0
    ensures Metrics.PrezzoIndicativo(sicurePrice, rendimento, riskPoint) > 0.0
    ensures Metrics.NumberContract(Metrics.Premio(rendimento, capitale),
                                   Metrics.PrezzoIndicativo(sicurePrice, rendimento, riskPoint)) > 0.0
  {
    Metrics.PrezzoIndicativoSign(sicurePrice, rendimento, riskPoint);
    var p := Metrics.Premio(rendimento, capitale);
    var q := Metrics.PrezzoIndicativo(sicurePrice, rendimento, riskPoint);
    Metrics.PremioBounds(rendimento, capitale);
    var n := Metrics.NumberContract(p, q);
    assert n * q == p;
  }
}
