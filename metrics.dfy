/**
 * The derived metrics that all three pages compute with the same formulas:
 * the distance of the strike from the underlying's price, the expected
 * premium, the indicative price of one contract and the number of contracts
 * the premium buys. Quantities are mathematical reals; the two ratios are
 * stated here without a guard, so they require a nonzero denominator, and
 * each page adds its own guard around them (none in the first page).
 */
module Metrics {

  /** diff_value: how far the strike lies below the underlying's price. */
  function DiffValue(assetPrice: real, targetPrice: real): (r: real)
    ensures targetPrice + r == assetPrice
  {
    assetPrice - targetPrice
  }

  /**
   * diff_percent: the distance as a percentage of the underlying's price; a
   * zero price, which the source catches as ZeroDivisionError, gives 0.0.
   */
  function DiffPercent(assetPrice: real, targetPrice: real): (r: real)
    ensures assetPrice == 0.0 ==> r == 0.0
    ensures assetPrice != 0.0 ==> r * assetPrice == 100.0 * DiffValue(assetPrice, targetPrice)
  {
    if assetPrice == 0.0 then 0.0
    else (DiffValue(assetPrice, targetPrice) / assetPrice) * 100.0
  }

  /** For a positive price the percentage has the sign of price minus strike. */
  lemma DiffPercentSign(assetPrice: real, targetPrice: real)
    requires assetPrice > 0.0
    ensures DiffPercent(assetPrice, targetPrice) > 0.0 <==> targetPrice < assetPrice
    ensures DiffPercent(assetPrice, targetPrice) == 0.0 <==> targetPrice == assetPrice
    ensures DiffPercent(assetPrice, targetPrice) < 0.0 <==> targetPrice > assetPrice
  {
  }

  /** progress_value: the expected return as a fraction instead of a percentage. */
  function ProgressValue(rendimento: real): (r: real)
    ensures 100.0 * r == rendimento
  {
    rendimento / 100.0
  }

  /** premio: the expected return taken on the initial capital. */
  function Premio(rendimento: real, capitale: int): (r: real)
    ensures 100.0 * r == rendimento * capitale as real
  {
    ProgressValue(rendimento) * capitale as real
  }

  /**
   * Within the input ranges of the pages (capital at least 100, return
   * between 1 % and 100 %) the premium is at least 1 and at most the capital.
   */
  lemma PremioBounds(rendimento: real, capitale: int)
    requires capitale >= 100 && 1.0 <= rendimento <= 100.0
    ensures 1.0 <= Premio(rendimento, capitale) <= capitale as real
  {
  }

  /**
   * prezzo_indicativo as the bare ratio: the safety price times the expected
   * return, times 50, divided by the risk score.
   */
  function PrezzoIndicativo(sicurePrice: real, rendimento: real, riskPoint: int): (r: real)
    requires riskPoint != 0
    ensures 2.0 * r * riskPoint as real == sicurePrice * rendimento
  {
    sicurePrice * ProgressValue(rendimento) * 50.0 / riskPoint as real
  }

  /** With a positive score, the price is positive exactly when the safety price is. */
  lemma PrezzoIndicativoSign(sicurePrice: real, rendimento: real, riskPoint: int)
    requires riskPoint >= 1 && rendimento > 0.0
    ensures PrezzoIndicativo(sicurePrice, rendimento, riskPoint) > 0.0 <==> sicurePrice > 0.0
    ensures PrezzoIndicativo(sicurePrice, rendimento, riskPoint) == 0.0 <==> sicurePrice == 0.0
  {
  }

  /** number_contract as the bare ratio: how many contracts the premium buys. */
  function NumberContract(premio: real, prezzoIndicativo: real): (r: real)
    requires prezzoIndicativo != 0.0
    ensures r * prezzoIndicativo == premio
  {
    premio / prezzoIndicativo
  }

  /**
   * The expected return cancels out: the number of contracts is
   * capital * risk score / (50 * safety price), whatever the return.
   */
  lemma NumberContractIndependentOfRendimento(capitale: int, rendimento: real, sicurePrice: real, riskPoint: int)
    requires rendimento != 0.0 && sicurePrice != 0.0 && riskPoint != 0
    ensures PrezzoIndicativo(sicurePrice, rendimento, riskPoint) != 0.0
    ensures NumberContract(Premio(rendimento, capitale), PrezzoIndicativo(sicurePrice, rendimento, riskPoint))
            * 50.0 * sicurePrice == capitale as real * riskPoint as real
  {
  }

  /**
   * The pages' default inputs (capital 1000, return 10 %, safety price 220,
   * score 60) give a premium of 100, a price of 55/3 and 60/11 contracts.
   */
  lemma DefaultInputs()
    ensures Premio(10.0, 1000) == 100.0
    ensures PrezzoIndicativo(220.0, 10.0, 60) == 55.0 / 3.0
    ensures NumberContract(100.0, 55.0 / 3.0) == 60.0 / 11.0
  {
  }
}
