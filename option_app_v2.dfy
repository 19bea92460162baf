/**
 * The second page: the same formulas as the first, with each ratio guarded by
 * a strict positivity test on its divisor (`> 0`) and 0 as the fallback.
 * Its indicator helpers are Indicators.GetRiskIndicator and
 * Indicators.GetDistanceColor.
 */
module OptionAppV2 {
  import Metrics

  /** prezzo_indicativo: the ratio when the risk score is positive, otherwise 0. */
  function PrezzoIndicativo(sicurePrice: real, rendimento: real, riskPoint: int): (r: real)
    ensures riskPoint <= 0 ==> r == 0.0
    ensures riskPoint > 0 ==> 2.0 * r * riskPoint as real == sicurePrice * rendimento
  {
    if riskPoint > 0 then Metrics.PrezzoIndicativo(sicurePrice, rendimento, riskPoint) else 0.0
  }

  /** number_contract: the ratio when the indicative price is positive, otherwise 0. */
  function NumberContract(premio: real, prezzoIndicativo: real): (r: real)
    ensures prezzoIndicativo <= 0.0 ==> r == 0.0
    ensures prezzoIndicativo > 0.0 ==> r * prezzoIndicativo == premio
  {
    if prezzoIndicativo > 0.0 then Metrics.NumberContract(premio, prezzoIndicativo) else 0.0
  }

  /**
   * Within the ranges of the page's inputs (capital at least 100, return
   * 1 .. 100 %, safety price at least 0, score 1 .. 400) the premium is
   * positive, the price and the number of contracts are not negative, and
   * both are positive exactly when the safety price is.
   */
  lemma WidgetRangeOutputs(capitale: int, rendimento: real, sicurePrice: real, riskPoint: int)
    requires capitale >= 100
    requires 1.0 <= rendimento <= 100.0
    requires sicurePrice >= 0.0
    requires 1 <= riskPoint <= 400
    ensures Metrics.Premio(rendimento, capitale) > 0.0
    ensures PrezzoIndicativo(sicurePrice, rendimento, riskPoint) >= 0.0
    ensures PrezzoIndicativo(sicurePrice, rendimento, riskPoint) > 0.0 <==> sicurePrice > 0.0
    ensures NumberContract(Metrics.Premio(rendimento, capitale),
                           PrezzoIndicativo(sicurePrice, rendimento, riskPoint)) >= 0.0
    ensures sicurePrice > 0.0 <==>
              NumberContract(Metrics.Premio(rendimento, capitale),
                             PrezzoIndicativo(sicurePrice, rendimento, riskPoint)) > 0.0
  {
  }
}
