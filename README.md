# Option-trading calculator pages, modelled in Dafny

The repository holds three versions of one dashboard page for option
trading: `option_app.py` (first version), `option_app_v2.py` and
`option_app_v3.py`. Each page reads six numbers: the underlying's price, the
strike price, the initial capital, the expected return in percent, a safety
price and an integer risk score. From them it computes:

- the distance from the strike (`diff_value`) and that distance as a
  percentage (`diff_percent`);
- the premium (`premio`), the indicative price of one contract
  (`prezzo_indicativo`) and the number of contracts (`number_contract`);
- a marker for the percentage: a hex colour in the first version, an emoji
  in the other two;
- a badge for the risk score: a colour in the first version, a colour and a
  label in the other two.

The third version also keeps the expected return in the session state. A
slider and a number input share it, and each has a callback that stores its
own value and clamps it.

All quantities are Dafny `real`s. The capital and the risk score are `int`,
because their widgets have integer defaults and steps.

The project has one module per concern:

- `Thresholds` (thresholds.dfy) holds the reference classifications. These
  are the risk tier Basso < Medio < Alto < MoltoAlto and the distance marker
  Rosso < Verde < Oro, each defined by its intervals, with the tables that
  give the colours, labels and emoji.
- `Indicators` (indicators.dfy) holds `get_risk_indicator` and
  `get_distance_color`. Versions 2 and 3 define these functions with the same
  code (option_app_v2.py:10-28 and option_app_v3.py:27-45; only comments and
  the get_distance_color docstring differ), so they are defined once.
- `OptionApp` (option_app.dfy) holds the first version's `get_custom_color`
  and `get_color_risk`, and the proof that its unguarded divisions are
  defined.
- `Metrics` (metrics.dfy) holds the formulas that all three versions share.
  The two ratios have no guard here, as in the first version, so they
  require a nonzero divisor. The `ZeroDivisionError` handler around
  `diff_percent` becomes an explicit `asset_price == 0` branch.
- `OptionAppV2` (option_app_v2.dfy) wraps the ratios in `> 0` guards with 0
  as fallback.
- `OptionAppV3` (option_app_v3.dfy) wraps the ratios in `!= 0` guards. It
  also has the `SessionState` class: its field `rendimentoAtteso` is either
  `Absent` or `Present(value)`. The three callbacks are methods of this
  class. Each one is specified by a function on the stored value
  (`Inizializza`, `FromSlider`, `FromNumberInput`). The method
  `Synchronisation` is an example run of the page (option_app_v3.py:52 and
  86-111): a new session starts at 10.0, initialising again keeps it, a
  slider move to 55.0 stores 55.0, and typing 0.5 or 150.0 stores 1.0 or
  100.0.
- `Variants` (variants.dfy) relates the versions. The first version's colour
  helpers classify exactly like the emoji and badge helpers of the other two.
  The three guard styles agree inside the widgets' ranges and differ on a
  negative score.

Two points where the code is easy to misread:

- The two distance encodings behave the same at 4.50. `get_custom_color`
  tests `>= 4.50` and `get_distance_color` tests `< 4.50`, so both make 4.50
  green.
- Only the number input clamps to 1.0 .. 100.0. The slider callback only
  lowers values above 100.0. The store stays in range after a slider move
  only because the slider widget never goes below 1.0.

## Model

| member | source | states |
|---|---|---|
| Thresholds.RiskTierMonotone | option_app_v3.py:27-36 | a higher risk score never falls in a lower tier |
| Thresholds.RiskColourInjective | option_app_v3.py:29-36 | the four badge colours are pairwise distinct, so the colour alone identifies the tier |
| Thresholds.MarkerMonotone | option_app_v3.py:38-45 | a larger percentage distance never gets a lower marker |
| Indicators.GetRiskIndicator | option_app_v3.py:27-36 | ("#F90000","Molto Alto") iff score > 270, ("#F99300","Alto") iff 170 <= score <= 270, ("#00f900","Medio") iff 70 <= score < 170, ("#008000","Basso") iff score < 70; the same as the tier table; option_app_v2.py:10-19 is the same code |
| Indicators.RiskIndicatorMonotone | option_app_v3.py:27-36 | for scores a <= b, the tier shown by a's badge ranks no higher than the tier shown by b's badge |
| Indicators.GetDistanceColor | option_app_v3.py:38-45 | red circle iff d < 4.50, green circle iff 4.50 <= d <= 10.0, star iff d > 10.0; option_app_v2.py:21-28 is the same code |
| Indicators.DistanceColorExactlyOne | option_app_v2.py:21-28 | the tests d < 4.50, 4.50 <= d <= 10.0 and d > 10.0 are mutually exclusive and exhaustive, so every percentage gets exactly one of the three emoji |
| OptionApp.GetCustomColor | option_app.py:5-12 | "#FFD700" iff d > 10.0, "#008000" iff 4.50 <= d <= 10.0, "#FF0000" iff d < 4.50 |
| OptionApp.GetColorRisk | option_app.py:117-126 | "#F90000" iff score > 270, "#F99300" iff 170 <= score <= 270, "#00f900" iff 70 <= score < 170, "#008000" iff score < 70 |
| OptionApp.UnguardedDivisionsDefined | option_app.py:80-151 | with return 1..100, safety price 1..1000 and score 1..400 (the widget ranges), the score is nonzero and the indicative price and the number of contracts are strictly positive, so both unguarded divisions are defined |
| Metrics.DiffValue | option_app_v3.py:62 | strike plus the difference gives back the underlying's price |
| Metrics.DiffPercent | option_app_v3.py:62-66 | 0.0 when the price is 0; otherwise the percentage times the price equals 100 times the difference (option_app.py:28-35 and option_app_v2.py:59-63 are the same code) |
| Metrics.DiffPercentSign | option_app_v2.py:59-63 | for a positive price the percentage is positive, zero or negative exactly when the strike is below, at or above the price |
| Metrics.ProgressValue | option_app_v2.py:66 | the fraction is one hundredth of the percentage |
| Metrics.Premio | option_app.py:96 | 100 times the premium equals the return times the capital (option_app_v2.py:66-67 and option_app_v3.py:113-114 compute the same value) |
| Metrics.PremioBounds | option_app_v2.py:44-67 | for capital >= 100 and return in 1..100 the premium lies between 1 and the capital |
| Metrics.PrezzoIndicativo | option_app.py:131 | for a nonzero score, 2 times the price times the score equals the safety price times the return |
| Metrics.PrezzoIndicativoSign | option_app_v2.py:68 | for a score >= 1 and a positive return, the price is positive or zero exactly when the safety price is |
| Metrics.NumberContract | option_app.py:151 | for a nonzero price, the number of contracts times the price equals the premium |
| Metrics.NumberContractIndependentOfRendimento | option_app_v3.py:113-127 | for nonzero inputs the number of contracts times 50 times the safety price equals capital times score: the expected return cancels out |
| Metrics.DefaultInputs | option_app.py:72-131 | capital 1000, return 10, safety price 220 and score 60 (the default widget values) give premium 100, price 55/3 and 60/11 contracts |
| OptionAppV2.PrezzoIndicativo | option_app_v2.py:68 | 0 when the score is <= 0; otherwise 2 times the price times the score equals the safety price times the return |
| OptionAppV2.NumberContract | option_app_v2.py:69 | 0 when the price is <= 0 (the guard is `> 0`); otherwise the count times the price equals the premium |
| OptionAppV2.WidgetRangeOutputs | option_app_v2.py:44-69 | with capital >= 100, return 1..100, safety price >= 0 and score 1..400, the premium is > 0, the price and count are >= 0, and each is > 0 exactly when the safety price is |
| OptionAppV3.Inizializza | option_app_v3.py:4-6 | the result always holds a value: the old one when the key was present, 10.0 when it was absent; an in-range entry stays in range |
| OptionAppV3.InizializzaIdempotent | option_app_v3.py:4-6 | initialising twice gives the same as initialising once |
| OptionAppV3.FromSlider | option_app_v3.py:9-15 | the stored value is min(slider, 100.0); it is in 1..100 iff the slider is at least 1.0 (there is no lower clamp) |
| OptionAppV3.FromSliderIdempotent | option_app_v3.py:9-15 | feeding the stored value back through the slider callback stores it unchanged |
| OptionAppV3.FromNumberInput | option_app_v3.py:18-25 | the stored value is in 1..100, equals the input when the input is in range, and is the in-range value nearest the input |
| OptionAppV3.FromNumberInputIdempotent | option_app_v3.py:18-25 | feeding the stored value back through the number input callback stores it unchanged |
| OptionAppV3.CallbacksAgreeInRange | option_app_v3.py:9-25 | for a value in 1..100 both callbacks store exactly that value, so the two widgets stay in step |
| OptionAppV3.SessionState.constructor | option_app_v3.py:4-5 | a new session has no 'rendimento_atteso' key |
| OptionAppV3.SessionState.InizializzaStato | option_app_v3.py:4-6 | the new entry is Inizializza of the old one: 10.0 is written only when the key is absent; the range is preserved |
| OptionAppV3.SessionState.UpdateFromSlider | option_app_v3.py:9-15 | the new entry is FromSlider of the slider value, whatever was stored before; in range when the slider is >= 1.0 |
| OptionAppV3.SessionState.UpdateFromNumberInput | option_app_v3.py:18-25 | the new entry is FromNumberInput of the input, whatever was stored before; always in range |
| OptionAppV3.SessionState.ProgressValue | option_app_v3.py:113 | reads the stored return (which must be present); 100 times the fraction equals it, and the fraction is in 0.01..1.0 when the entry is in range |
| OptionAppV3.PrezzoIndicativo | option_app_v3.py:126 | 0 when the score is 0; otherwise 2 times the price times the score equals the safety price times the return |
| OptionAppV3.NumberContract | option_app_v3.py:127 | 0 when the price is 0 (the guard is `!= 0`); otherwise the count times the price equals the premium |
| Variants.CustomColorMatchesDistanceColor | option_app.py:5-12 | red hex iff red circle, green hex iff green circle, gold hex iff star, for every percentage (against option_app_v2.py:21-28) |
| Variants.ColorRiskMatchesRiskIndicator | option_app.py:117-126 | the first version's badge colour equals the colour half of get_risk_indicator for every score |
| Variants.GuardsAgree | option_app_v2.py:68-69 | for a non-negative score, return and safety price, the `> 0` guards and the `!= 0` guards (option_app_v3.py:126-127) give the same price and count |
| Variants.UnguardedMatchesGuarded | option_app.py:131-151 | inside the first version's widget ranges, its unguarded price and count equal the guarded ones of the other two versions |
| Variants.GuardsDifferOnNegativeScore | option_app_v3.py:126 | for score -60, version 2 gives price 0 and version 3 gives a negative price |

## Left out

- All Streamlit calls are left out: widgets, columns, containers, metrics,
  the progress bar, markdown and the HTML/CSS snippets. They only render
  values that the model computes.
- `main_option.py` is not part of this model. It only navigates between the
  pages.
- The `color_picker` at option_app.py:129 is left out. It returns whatever
  colour the user picks, so only the default it is given
  (`OptionApp.GetColorRisk`) is modelled.
- Formatting to two decimals (`f"{x:.2f}"`) is left out. It is presentation
  only.
- IEEE floating point is left out: rounding, NaN and infinities. The
  formulas are stated over exact reals.
- `ZeroDivisionError` is not modelled as an exception. The handler around
  `diff_percent` is modelled as an explicit zero test. The first version's
  unguarded divisions are modelled as preconditions (nonzero divisor), with
  a lemma showing that the widget ranges meet them.
- The widgets' min_value and max_value limits are not modelled as
  behaviour. They appear only as the preconditions of the range lemmas.
- The callbacks do not read the widget keys 'rendimento_slider' and
  'rendimento_input' from the session state. They get those values as
  parameters.
- The scheduling of callbacks by the Streamlit runtime is left out: a
  callback runs before the next rerun, and `inizializza_stato` runs at the
  start of every run. `OptionAppV3.Synchronisation` shows one such sequence.
- The unused pandas and numpy imports are left out.
