/**
 * How the three pages relate: the first page's colour helpers classify
 * exactly like the indicator helpers of the other two, and the three
 * encodings of the guarded ratios agree wherever the pages' input ranges
 * hold, while the `> 0` and `!= 0` guards part ways on a negative score.
 */
module Variants {
  import opened Thresholds
  import Indicators
  import Metrics
  import OptionApp
  import OptionAppV2
  import OptionAppV3

  /** Red, green and gold text in the first page go with red, green and star emoji in the others. */
  lemma CustomColorMatchesDistanceColor(diffPercent: real)
    ensures OptionApp.GetCustomColor(diffPercent) == "#FF0000" <==>
            Indicators.GetDistanceColor(diffPercent) == "\U{1F534}"
    ensures OptionApp.GetCustomColor(diffPercent) == "#008000" <==>
            Indicators.GetDistanceColor(diffPercent) == "\U{1F7E2}"
    ensures OptionApp.GetCustomColor(diffPercent) == "#FFD700" <==>
            Indicators.GetDistanceColor(diffPercent) == "\U{1F31F}"
  {
  }

  /** The first page's badge colour is the colour half of the others' badge. */
  lemma ColorRiskMatchesRiskIndicator(riskPoint: int)
    ensures OptionApp.GetColorRisk(riskPoint) == Indicators.GetRiskIndicator(riskPoint).0
  {
  }

  /**
   * For a score and inputs that are not negative, the `> 0` guards of the
   * second page and the `!= 0` guards of the third give the same price and
   * the same number of contracts.
   */
  lemma GuardsAgree(premio: real, rendimento: real, sicurePrice: real, riskPoint: int)
    requires riskPoint >= 0 && rendimento >= 0.0 && sicurePrice >= 0.0
    ensures OptionAppV2.PrezzoIndicativo(sicurePrice, rendimento, riskPoint)
         == OptionAppV3.PrezzoIndicativo(sicurePrice, rendimento, riskPoint)
    ensures OptionAppV2.NumberContract(premio, OptionAppV2.PrezzoIndicativo(sicurePrice, rendimento, riskPoint))
         == OptionAppV3.NumberContract(premio, OptionAppV3.PrezzoIndicativo(sicurePrice, rendimento, riskPoint))
  {
  }

  /**
   * Within the first page's input ranges its unguarded ratios equal the
   * guarded ratios of the second and the third page.
   */
  lemma UnguardedMatchesGuarded(capitale: int, rendimento: real, sicurePrice: real, riskPoint: int)
    requires 100 <= capitale <= 100000
    requires 1.0 <= rendimento <= 100.0
    requires 1.0 <= sicurePrice <= 1000.0
    requires 1 <= riskPoint <= 400
    ensures Metrics.PrezzoIndicativo(sicurePrice, rendimento, riskPoint) > 0.0
    ensures Metrics.PrezzoIndicativo(sicurePrice, rendimento, riskPoint)
         == OptionAppV2.PrezzoIndicativo(sicurePrice, rendimento, riskPoint)
         == OptionAppV3.PrezzoIndicativo(sicurePrice, rendimento, riskPoint)
    ensures Metrics.NumberContract(Metrics.Premio(rendimento, capitale),
                                   Metrics.PrezzoIndicativo(sicurePrice, rendimento, riskPoint))
         == OptionAppV2.NumberContract(Metrics.Premio(rendimento, capitale),
                                       OptionAppV2.PrezzoIndicativo(sicurePrice, rendimento, riskPoint))
         == OptionAppV3.NumberContract(Metrics.Premio(rendimento, capitale),
                                       OptionAppV3.PrezzoIndicativo(sicurePrice, rendimento, riskPoint))
  {
    OptionApp.UnguardedDivisionsDefined(capitale, rendimento, sicurePrice, riskPoint);
  }

  /**
   * Outside the input ranges the guards differ: a negative score gives the
   * second page a price of 0 and the third page a negative price.
   */
  lemma GuardsDifferOnNegativeScore()
    ensures OptionAppV2.PrezzoIndicativo(220.0, 10.0, -60) == 0.0
    ensures OptionAppV3.PrezzoIndicativo(220.0, 10.0, -60) < 0.0
  {
  }
}
