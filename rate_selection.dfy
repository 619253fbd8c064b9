/** The exchange-rate controls shared by the payment form
    (`src/features/deudas/components/add-payment-form.tsx`) and the expense
    form (`src/components/expense-form-dialog.tsx`): a rate type, a rate, and
    a `customRate` flag that stops the rate being filled in from the
    published prices once the user has typed one. */
module RateSelection {
  import opened Common

  /** The published prices: BCV, parallel market and their average. */
  datatype ExchangeRates = ExchangeRates(bcv: real, paralelo: real, promedio: Option<real>)

  /** The averaged rate, `parseFloat(((bcv + paralelo) / 2).toFixed(2))`:
      within half a cent of the midpoint, and never outside the two prices by
      more than that. */
  function AverageRate(bcv: real, paralelo: real): (r: real)
    ensures -0.005 < r - (bcv + paralelo) / 2.0 <= 0.005
    ensures bcv <= paralelo ==> bcv - 0.005 < r <= paralelo + 0.005
    ensures paralelo <= bcv ==> paralelo - 0.005 < r <= bcv + 0.005
  {
    Round2((bcv + paralelo) / 2.0)
  }

  /** What the rate fetch stores from the two monitor prices. */
  function FetchedRates(bcv: real, paralelo: real): ExchangeRates
  {
    ExchangeRates(bcv, paralelo, Some(AverageRate(bcv, paralelo)))
  }

  /** The published price that matches a rate type; a custom rate has none. */
  function RateFor(t: RateType, rates: ExchangeRates): (r: Option<real>)
    ensures r == None <==> t == Custom || (t == Promedio && rates.promedio == None)
    ensures t == Bcv ==> r == Some(rates.bcv)
    ensures t == Paralelo ==> r == Some(rates.paralelo)
    ensures t == Promedio ==> r == rates.promedio
  {
    match t
    case Bcv => Some(rates.bcv)
    case Paralelo => Some(rates.paralelo)
    case Promedio => rates.promedio
    case Custom => None
  }

  /** The three controlled values. */
  datatype RateFields = RateFields(tipo: Option<RateType>, tasa: Option<real>, customRate: bool)

  /** The auto-fill effect applies when a type is chosen, prices are loaded,
      the rate is not custom and the matching price is truthy. */
  predicate AutoFillApplies(s: RateFields, rates: Option<ExchangeRates>)
    // a custom rate is never filled in
    ensures AutoFillApplies(s, rates) ==> s.tipo.Some? && s.tipo.value != Custom && !s.customRate
  {
    s.tipo.Some? && rates.Some? && !s.customRate && Truthy(RateFor(s.tipo.value, rates.value))
  }

  /** The auto-fill effect: the rate becomes the matching published price, or stays as it is. */
  function AutoFilled(s: RateFields, rates: Option<ExchangeRates>): (r: RateFields)
    ensures r.tipo == s.tipo && r.customRate == s.customRate
    ensures AutoFillApplies(s, rates) ==> Truthy(r.tasa)
    ensures !AutoFillApplies(s, rates) ==> r == s
  {
    if AutoFillApplies(s, rates) then s.(tasa := RateFor(s.tipo.value, rates.value)) else s
  }

  /** Typing a rate: the typed value is kept, and a chosen type other than
      custom becomes custom with the flag set. */
  function RateEdited(s: RateFields, v: Option<real>): (r: RateFields)
    ensures r.tasa == v
    // nothing is left for the auto-fill to overwrite
    ensures r.customRate || r.tipo.None? || r.tipo.value == Custom
    ensures s.tipo.None? || s.tipo.value == Custom ==> r.tipo == s.tipo && r.customRate == s.customRate
  {
    if s.tipo.Some? && s.tipo.value != Custom then RateFields(Some(Custom), v, true)
    else s.(tasa := v)
  }

  /** Picking a type from the select: the type is stored and the flag cleared. */
  function TypeSelected(s: RateFields, t: RateType): (r: RateFields)
    ensures r.tipo == Some(t) && r.tasa == s.tasa && !r.customRate
    // choosing a published type re-enables the auto-fill for any prices that have it
    ensures forall rates :: Truthy(RateFor(t, rates)) ==> AutoFillApplies(r, Some(rates))
  {
    RateFields(Some(t), s.tasa, false)
  }

  /** The auto-fill writes only the rate, and writes the published price
      exactly when the conditions hold. */
  lemma AutoFillEffect(s: RateFields, rates: Option<ExchangeRates>)
    ensures AutoFilled(s, rates).tipo == s.tipo && AutoFilled(s, rates).customRate == s.customRate
    ensures AutoFilled(s, rates).tasa != s.tasa ==>
      s.tipo.Some? && rates.Some? && !s.customRate && AutoFilled(s, rates).tasa == RateFor(s.tipo.value, rates.value)
    ensures (s.customRate || s.tipo.None? || rates.None?) ==> AutoFilled(s, rates) == s
    ensures AutoFilled(AutoFilled(s, rates), rates) == AutoFilled(s, rates)
  {
  }

  /** A typed rate is never overwritten by the auto-fill, whatever the prices. */
  lemma {:induction false} ManualRateSurvives(s: RateFields, v: Option<real>, rates: Option<ExchangeRates>)
    ensures AutoFilled(RateEdited(s, v), rates) == RateEdited(s, v)
    ensures RateEdited(s, v).tasa == v
  {
    var e := RateEdited(s, v);
    if s.tipo.Some? && s.tipo.value != Custom {
      assert e.customRate;
    } else if s.tipo.Some? {
      assert RateFor(Custom, if rates.Some? then rates.value else ExchangeRates(0.0, 0.0, None)) == None;
    }
  }

  /** Typing a rate while a published type is chosen switches to custom;
      picking a type afterwards clears the flag, and the next auto-fill
      then writes that type's published price. */
  lemma SelectAfterEdit(s: RateFields, v: Option<real>, t: RateType, rates: ExchangeRates)
    requires s.tipo.Some? && s.tipo.value != Custom
    requires Truthy(RateFor(t, rates))
    ensures RateEdited(s, v) == RateFields(Some(Custom), v, true)
    ensures AutoFilled(TypeSelected(RateEdited(s, v), t), Some(rates)) == RateFields(Some(t), RateFor(t, rates), false)
  {
  }

  /** With the fetched prices every published type auto-fills when its price is non-zero. */
  lemma FetchedRatesFillAllPublishedTypes(t: RateType, bcv: real, paralelo: real, tasa: Option<real>)
    requires t != Custom
    requires bcv > 0.0 && paralelo > 0.0 && bcv + paralelo > 0.01
    ensures AutoFillApplies(RateFields(Some(t), tasa, false), Some(FetchedRates(bcv, paralelo)))
  {
  }

  /** The rate inputs of an open form. */
  class RateControl {
    var tipo: Option<RateType>
    var tasa: Option<real>
    var customRate: bool

    function Fields(): RateFields
      reads this
    {
      RateFields(tipo, tasa, customRate)
    }

    /** The form opens with the given type and rate, the flag cleared. */
    constructor(tipo0: Option<RateType>, tasa0: Option<real>)
      ensures Fields() == RateFields(tipo0, tasa0, false)
    {
      tipo := tipo0;
      tasa := tasa0;
      customRate := false;
    }

    /** The auto-fill effect, run when the type, the prices or the flag change. */
    method AutoFill(rates: Option<ExchangeRates>)
      modifies this
      ensures Fields() == AutoFilled(old(Fields()), rates)
    {
      if tipo.Some? && rates.Some? && !customRate {
        var rate := RateFor(tipo.value, rates.value);
        if rate.Some? && rate.value != 0.0 {
          tasa := rate;
        }
      }
    }

    /** The rate input's change handler. */
    method EditRate(v: Option<real>)
      modifies this
      ensures Fields() == RateEdited(old(Fields()), v)
    {
      tasa := v;
      if tipo.Some? && tipo.value != Custom {
        tipo := Some(Custom);
        customRate := true;
      }
    }

    /** The type select's change handler. */
    method SelectType(t: RateType)
      modifies this
      ensures Fields() == TypeSelected(old(Fields()), t)
    {
      tipo := Some(t);
      customRate := false;
    }
  }
}
