/**
 * The third page: the expected return lives in the session state under the
 * key 'rendimento_atteso' and is shared by a slider and a number input,
 * each with a change callback that stores its value and clamps it; the
 * ratios are guarded by a nonzero test on their divisors (`!= 0`) with 0 as
 * the fallback. Its indicator helpers are Indicators.GetRiskIndicator and
 * Indicators.GetDistanceColor.
 */
module OptionAppV3 {
  import Metrics

  /** The 'rendimento_atteso' key of the session state: missing, or holding a value. */
  datatype Entry = Absent | Present(value: real)

  /** The range both widgets offer: 1 % .. 100 %. */
  predicate InRange(e: Entry) {
    e.Present? ==> 1.0 <= e.value <= 100.0
  }

  /** inizializza_stato, on values: the default 10.0 only where the key is missing. */
  function Inizializza(e: Entry): (r: Entry)
    ensures r.Present?
    ensures e.Present? ==> r == e
    ensures e.Absent? ==> r.value == 10.0
    ensures InRange(e) ==> InRange(r)
  {
    match e
    case Absent => Present(10.0)
    case Present(_) => e
  }

  /** Initialising an initialised state changes nothing. */
  lemma InizializzaIdempotent(e: Entry)
    ensures Inizializza(Inizializza(e)) == Inizializza(e)
  {
  }

  /**
   * update_from_slider, on values: the slider's value, cut down to 100.0;
   * nothing raises it, so it is in range only when the slider was at least 1.
   */
  function FromSlider(rendimentoSlider: real): (r: Entry)
    ensures r.Present?
    ensures r.value <= 100.0 && r.value <= rendimentoSlider
    ensures r.value == rendimentoSlider || r.value == 100.0
    ensures InRange(r) <==> rendimentoSlider >= 1.0
  {
    if rendimentoSlider > 100.0 then Present(100.0) else Present(rendimentoSlider)
  }

  /**
   * update_from_number_input, on values: the input clamped into 1.0 .. 100.0,
   * which is the value of the range nearest to the input.
   */
  function FromNumberInput(rendimentoInput: real): (r: Entry)
    ensures r.Present? && InRange(r)
    ensures 1.0 <= rendimentoInput <= 100.0 ==> r.value == rendimentoInput
    ensures forall y: real :: 1.0 <= y <= 100.0 ==>
              Distance(r.value, rendimentoInput) <= Distance(y, rendimentoInput)
  {
    if rendimentoInput < 1.0 then Present(1.0)
    else if rendimentoInput > 100.0 then Present(100.0)
    else Present(rendimentoInput)
  }

  /** Absolute difference of two reals. */
  function Distance(a: real, b: real): real {
    if a <= b then b - a else a - b
  }

  /** Feeding the stored value back into the number input leaves it as it is. */
  lemma FromNumberInputIdempotent(rendimentoInput: real)
    ensures FromNumberInput(FromNumberInput(rendimentoInput).value) == FromNumberInput(rendimentoInput)
  {
  }

  /** Feeding the stored value back into the slider leaves it as it is. */
  lemma FromSliderIdempotent(rendimentoSlider: real)
    ensures FromSlider(FromSlider(rendimentoSlider).value) == FromSlider(rendimentoSlider)
  {
  }

  /**
   * Whichever widget wrote last decides the value: for an input already in
   * range, the two callbacks store the same value.
   */
  lemma CallbacksAgreeInRange(v: real)
    requires 1.0 <= v <= 100.0
    ensures FromSlider(v) == FromNumberInput(v) == Present(v)
  {
  }

  /**
   * The slice of st.session_state that the page's logic uses. The widgets'
   * own keys ('rendimento_slider', 'rendimento_input') are the callbacks'
   * parameters; both widgets display the stored value.
   */
  class SessionState {
    var rendimentoAtteso: Entry

    /** A new session: the key is missing. */
    constructor ()
      ensures rendimentoAtteso == Absent
    {
      rendimentoAtteso := Absent;
    }

    /** inizializza_stato: writes the default 10.0 only if the key is missing. */
    method InizializzaStato()
      modifies this
      ensures rendimentoAtteso == Inizializza(old(rendimentoAtteso))
      ensures old(InRange(rendimentoAtteso)) ==> InRange(rendimentoAtteso)
    {
      if rendimentoAtteso.Absent? {
        rendimentoAtteso := Present(10.0);
      }
    }

    /** update_from_slider: stores the slider's value, then lowers it to 100.0 if above. */
    method UpdateFromSlider(rendimentoSlider: real)
      modifies this
      ensures rendimentoAtteso == FromSlider(rendimentoSlider)
      ensures rendimentoSlider >= 1.0 ==> InRange(rendimentoAtteso)
    {
      rendimentoAtteso := Present(rendimentoSlider);
      if rendimentoAtteso.value > 100.0 {
        rendimentoAtteso := Present(100.0);
      }
    }

    /** update_from_number_input: stores the input's value, then clamps it into 1.0 .. 100.0. */
    method UpdateFromNumberInput(rendimentoInput: real)
      modifies this
      ensures rendimentoAtteso == FromNumberInput(rendimentoInput)
      ensures InRange(rendimentoAtteso)
    {
      rendimentoAtteso := Present(rendimentoInput);
      if rendimentoAtteso.value < 1.0 {
        rendimentoAtteso := Present(1.0);
      } else if rendimentoAtteso.value > 100.0 {
        rendimentoAtteso := Present(100.0);
      }
    }

    /** progress_value, read from the stored return; a fraction in 0.01 .. 1.0 when in range. */
    function ProgressValue(): (r: real)
      reads this
      requires rendimentoAtteso.Present?
      ensures 100.0 * r == rendimentoAtteso.value
      ensures InRange(rendimentoAtteso) ==> 0.01 <= r <= 1.0
    {
      Metrics.ProgressValue(rendimentoAtteso.value)
    }
  }

  /** prezzo_indicativo: the ratio when the risk score is nonzero, otherwise 0. */
  function PrezzoIndicativo(sicurePrice: real, rendimento: real, riskPoint: int): (r: real)
    ensures riskPoint == 0 ==> r == 0.0
    ensures riskPoint != 0 ==> 2.0 * r * riskPoint as real == sicurePrice * rendimento
  {
    if riskPoint != 0 then Metrics.PrezzoIndicativo(sicurePrice, rendimento, riskPoint) else 0.0
  }

  /** number_contract: the ratio when the indicative price is nonzero, otherwise 0. */
  function NumberContract(premio: real, prezzoIndicativo: real): (r: real)
    ensures prezzoIndicativo == 0.0 ==> r == 0.0
    ensures prezzoIndicativo != 0.0 ==> r * prezzoIndicativo == premio
  {
    if prezzoIndicativo != 0.0 then Metrics.NumberContract(premio, prezzoIndicativo) else 0.0
  }

  /**
   * The synchronisation seen from the widgets: a fresh session starts at
   * 10.0, a slider move to 55.0 shows 55.0 in the number input, and typing
   * 0.5 or 150.0 stores 1.0 or 100.0.
   */
  method Synchronisation()
  {
    var s := new SessionState();
    s.InizializzaStato();
    assert s.rendimentoAtteso == Present(10.0);
    s.InizializzaStato();
    assert s.rendimentoAtteso == Present(10.0);
    s.UpdateFromSlider(55.0);
    assert s.rendimentoAtteso == Present(55.0);
    s.InizializzaStato();
    assert s.rendimentoAtteso == Present(55.0);
    s.UpdateFromNumberInput(0.5);
    assert s.rendimentoAtteso == Present(1.0);
    s.UpdateFromNumberInput(150.0);
    assert s.rendimentoAtteso == Present(100.0);
  }
}
