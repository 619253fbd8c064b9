/** The expense dialog (`src/components/expense-form-dialog.tsx`): its schema
    with the three cross-field refinements, the effects that derive one
    amount from the other, the values it opens with, and the row it saves.
    Its rate inputs are `RateSelection.RateControl`. */
module ExpenseForm {
  import opened Common
  import opened RateSelection

  /** The dialog's `Expense` row. */
  datatype Expense = Expense(
    id: string,
    flete_id: Option<string>,
    category: string,
    description: Option<string>,
    expense_date: string,
    original_currency: Currency,
    pago_divisa: Option<real>,
    pago_bolivares: Option<real>,
    tasa_cambio: Option<real>,
    tipo_tasa: Option<RateType>,
    created_at: string,
    updated_at: string)

  /** The form's values; `None` is an `undefined` field. */
  datatype ExpenseValues = ExpenseValues(
    category: string,
    description: Option<string>,
    expense_date: string,
    original_currency: Currency,
    pago_divisa: Option<real>,
    pago_bolivares: Option<real>,
    tasa_cambio: Option<real>,
    tipo_tasa: Option<RateType>)

  datatype ExpenseField = CategoryField | ExpenseDateField | PagoDivisaField | PagoBolivaresField | TasaCambioField

  /** The field checks of `expenseSchema`. */
  function FieldIssues(v: ExpenseValues): (r: set<ExpenseField>)
    ensures CategoryField in r <==> v.category == ""
    ensures ExpenseDateField in r <==> v.expense_date == ""
    ensures PagoDivisaField in r <==> v.pago_divisa.Some? && v.pago_divisa.value < 0.0
    ensures PagoBolivaresField in r <==> v.pago_bolivares.Some? && v.pago_bolivares.value < 0.0
    ensures TasaCambioField in r <==> v.tasa_cambio.Some? && v.tasa_cambio.value <= 0.0
  {
    (if |v.category| < 1 then {CategoryField} else {})
    + (if |v.expense_date| < 1 then {ExpenseDateField} else {})
    + (if v.pago_divisa.Some? && v.pago_divisa.value < 0.0 then {PagoDivisaField} else {})
    + (if v.pago_bolivares.Some? && v.pago_bolivares.value < 0.0 then {PagoBolivaresField} else {})
    + (if v.tasa_cambio.Some? && v.tasa_cambio.value <= 0.0 then {TasaCambioField} else {})
  }

  /** The three refinements, each reported on its own path. */
  function RefinementIssues(v: ExpenseValues): (r: set<ExpenseField>)
    ensures CategoryField !in r && ExpenseDateField !in r
    ensures PagoDivisaField in r <==> v.original_currency == USD && !(v.pago_divisa.Some? && v.pago_divisa.value > 0.0)
    ensures PagoBolivaresField in r <==> v.original_currency == VES && !(v.pago_bolivares.Some? && v.pago_bolivares.value > 0.0)
    ensures TasaCambioField in r <==> v.pago_bolivares.Some? && (v.tasa_cambio.None? || v.tipo_tasa.None?)
  {
    (if v.original_currency == USD && !(v.pago_divisa.Some? && v.pago_divisa.value > 0.0) then {PagoDivisaField} else {})
    + (if v.original_currency == VES && !(v.pago_bolivares.Some? && v.pago_bolivares.value > 0.0) then {PagoBolivaresField} else {})
    + (if v.pago_bolivares.Some? && (v.tasa_cambio.None? || v.tipo_tasa.None?) then {TasaCambioField} else {})
  }

  /** Every issue `expenseSchema` reports (the refinements run after the
      field checks on well-typed values). */
  function SchemaIssues(v: ExpenseValues): (r: set<ExpenseField>)
    ensures CategoryField in r <==> v.category == ""
    ensures ExpenseDateField in r <==> v.expense_date == ""
    ensures PagoDivisaField in r <==>
      (v.pago_divisa.Some? && v.pago_divisa.value < 0.0)
      || (v.original_currency == USD && !(v.pago_divisa.Some? && v.pago_divisa.value > 0.0))
    ensures PagoBolivaresField in r <==>
      (v.pago_bolivares.Some? && v.pago_bolivares.value < 0.0)
      || (v.original_currency == VES && !(v.pago_bolivares.Some? && v.pago_bolivares.value > 0.0))
    ensures TasaCambioField in r <==>
      (v.tasa_cambio.Some? && v.tasa_cambio.value <= 0.0)
      || (v.pago_bolivares.Some? && (v.tasa_cambio.None? || v.tipo_tasa.None?))
  {
    var r := FieldIssues(v) + RefinementIssues(v);
    assert forall f :: f in r <==> f in FieldIssues(v) || f in RefinementIssues(v);
    r
  }

  /** An accepted expense carries a positive amount in its own currency, and
      whenever a bolivar amount is given, a positive rate and a rate type. */
  lemma AcceptedExpense(v: ExpenseValues)
    requires SchemaIssues(v) == {}
    ensures v.original_currency == USD ==> v.pago_divisa.Some? && v.pago_divisa.value > 0.0
    ensures v.original_currency == VES ==> v.pago_bolivares.Some? && v.pago_bolivares.value > 0.0
    ensures v.pago_bolivares.Some? ==> v.tasa_cambio.Some? && v.tasa_cambio.value > 0.0 && v.tipo_tasa.Some?
    ensures v.original_currency == VES ==> v.tasa_cambio.Some? && v.tipo_tasa.Some?
  {
    assert PagoDivisaField !in SchemaIssues(v);
    assert PagoBolivaresField !in SchemaIssues(v);
    assert TasaCambioField !in SchemaIssues(v);
  }

  // ---------------------------------------------------------------- derived amounts

  /** The VES effect: with a bolivar amount and a positive rate, the divisa
      amount becomes their quotient rounded to the cent. */
  function DeriveDivisa(v: ExpenseValues): (r: ExpenseValues)
    ensures r.(pago_divisa := v.pago_divisa) == v
    ensures r != v ==> v.original_currency == VES && v.pago_bolivares.Some? && v.tasa_cambio.Some? && v.tasa_cambio.value > 0.0
    ensures v.original_currency == VES && v.pago_bolivares.Some? && v.tasa_cambio.Some? && v.tasa_cambio.value > 0.0 ==>
      r.pago_divisa.Some? && -0.005 < r.pago_divisa.value - v.pago_bolivares.value / v.tasa_cambio.value <= 0.005
  {
    if v.original_currency == VES && v.pago_bolivares.Some? && v.tasa_cambio.Some? && v.tasa_cambio.value > 0.0
    then v.(pago_divisa := Some(Round2(v.pago_bolivares.value / v.tasa_cambio.value)))
    else v
  }

  /** The USD effect: with a divisa amount and a positive rate, the bolivar
      amount becomes their product rounded to the cent. */
  function DeriveBolivares(v: ExpenseValues): (r: ExpenseValues)
    ensures r.(pago_bolivares := v.pago_bolivares) == v
    ensures r != v ==> v.original_currency == USD && v.pago_divisa.Some? && v.tasa_cambio.Some? && v.tasa_cambio.value > 0.0
    ensures v.original_currency == USD && v.pago_divisa.Some? && v.tasa_cambio.Some? && v.tasa_cambio.value > 0.0 ==>
      r.pago_bolivares.Some? && -0.005 < r.pago_bolivares.value - v.pago_divisa.value * v.tasa_cambio.value <= 0.005
  {
    if v.original_currency == USD && v.pago_divisa.Some? && v.tasa_cambio.Some? && v.tasa_cambio.value > 0.0
    then v.(pago_bolivares := Some(Round2(v.pago_divisa.value * v.tasa_cambio.value)))
    else v
  }

  /** Rounding a non-negative amount to the cent never makes it negative. */
  lemma Round2NonNegative(x: real)
    requires x >= 0.0
    ensures Round2(x) >= 0.0
  {
    var n := (Round2(x) * 100.0).Floor;
    assert n as real == Round2(x) * 100.0;
    assert n as real > -0.5;
  }

  /** The derived amounts never trip the schema's non-negativity checks. */
  lemma DerivedAmountsNonNegative(v: ExpenseValues)
    requires v.pago_bolivares.Some? ==> v.pago_bolivares.value >= 0.0
    requires v.pago_divisa.Some? ==> v.pago_divisa.value >= 0.0
    ensures var d := DeriveDivisa(v); d.pago_divisa.Some? ==> d.pago_divisa.value >= 0.0
    ensures var b := DeriveBolivares(v); b.pago_bolivares.Some? ==> b.pago_bolivares.value >= 0.0
  {
    if v.original_currency == VES && v.pago_bolivares.Some? && v.tasa_cambio.Some? && v.tasa_cambio.value > 0.0 {
      var q := v.pago_bolivares.value / v.tasa_cambio.value;
      assert q * v.tasa_cambio.value == v.pago_bolivares.value;
      assert q >= 0.0;
      Round2NonNegative(q);
    }
    if v.original_currency == USD && v.pago_divisa.Some? && v.tasa_cambio.Some? && v.tasa_cambio.value > 0.0 {
      Round2NonNegative(v.pago_divisa.value * v.tasa_cambio.value);
    }
  }

  /** Converting bolivars to divisa and back at the same rate, rounding to the
      cent both times, lands within half a cent per unit of rate, plus half a
      cent, of the original amount. */
  lemma RoundTripBound(bs: real, rate: real)
    requires rate > 0.0
    ensures var back := Round2(Round2(bs / rate) * rate);
            -(rate / 200.0 + 0.005) < back - bs <= rate / 200.0 + 0.005
  {
    var d := Round2(bs / rate);
    ScaledError(bs, d, rate);
    var p := d * rate;
    assert -0.005 < Round2(p) - p <= 0.005;
  }

  /** A quotient off by at most half a cent, multiplied back by the rate, is
      off by at most half a cent per unit of rate. */
  lemma ScaledError(bs: real, d: real, rate: real)
    requires rate > 0.0 && -0.005 < d - bs / rate <= 0.005
    ensures -(rate / 200.0) < d * rate - bs <= rate / 200.0
  {
    var q := bs / rate;
    var e := d - q;
    assert q * rate == bs;
    MulNonNegative(0.005 - e, rate);
    MulPositive(e + 0.005, rate);
    assert (0.005 - e) * rate == 0.005 * rate - e * rate;
    assert (e + 0.005) * rate == e * rate + 0.005 * rate;
    assert d * rate == (q + e) * rate == q * rate + e * rate;
    assert 0.005 * rate == rate / 200.0;
    assert -(rate / 200.0) < e * rate <= rate / 200.0;
    assert d * rate - bs == e * rate;
  }

  lemma MulNonNegative(a: real, b: real)
    requires a >= 0.0 && b >= 0.0
    ensures a * b >= 0.0
  {
  }

  lemma MulPositive(a: real, b: real)
    requires a > 0.0 && b > 0.0
    ensures a * b > 0.0
  {
  }

  // ---------------------------------------------------------------- opening and saving

  /** The values the dialog opens with: the current expense's fields, where
      an empty text becomes '' and a zero or missing amount or rate becomes
      undefined; a new expense opens on `today` in USD. */
  function DefaultValues(current: Option<Expense>, today: string): (r: ExpenseValues)
    ensures current.None? ==> r == ExpenseValues("", Some(""), today, USD, None, None, None, None)
    ensures current.Some? ==>
      var e := current.value;
      && r.category == e.category && r.original_currency == e.original_currency
      && r.description == Some(if e.description.Some? then e.description.value else "")
      && r.expense_date == (if e.expense_date != "" then e.expense_date else today)
      && (r.pago_divisa.Some? <==> Truthy(e.pago_divisa)) && (r.pago_divisa.Some? ==> r.pago_divisa == e.pago_divisa)
      && (r.pago_bolivares.Some? <==> Truthy(e.pago_bolivares)) && (r.pago_bolivares.Some? ==> r.pago_bolivares == e.pago_bolivares)
      && (r.tasa_cambio.Some? <==> Truthy(e.tasa_cambio)) && (r.tasa_cambio.Some? ==> r.tasa_cambio == e.tasa_cambio)
      && r.tipo_tasa == e.tipo_tasa
  {
    match current
    case None => ExpenseValues("", Some(""), today, USD, None, None, None, None)
    case Some(e) =>
      ExpenseValues(
        e.category,
        Some(if e.description.Some? then e.description.value else ""),
        if e.expense_date != "" then e.expense_date else today,
        e.original_currency,
        if Truthy(e.pago_divisa) then e.pago_divisa else None,
        if Truthy(e.pago_bolivares) then e.pago_bolivares else None,
        if Truthy(e.tasa_cambio) then e.tasa_cambio else None,
        e.tipo_tasa)
  }

  /** The write `onSubmit` sends: an update of the current expense (also
      stamping `updated_at`), or an insert; either way `flete_id` is the
      given shipment id, or null without one. */
  datatype SaveRequest =
    | UpdateExpense(id: string, values: ExpenseValues, flete_id: Option<string>, updated_at: string)
    | InsertExpense(values: ExpenseValues, flete_id: Option<string>)

  function SaveRequestFor(current: Option<Expense>, v: ExpenseValues, fleteId: Option<string>, now: string): (r: SaveRequest)
    ensures r.UpdateExpense? <==> current.Some?
    ensures r.UpdateExpense? ==> r.id == current.value.id && r.updated_at == now
    ensures r.values == v && r.flete_id == fleteId
  {
    if current.Some? then UpdateExpense(current.value.id, v, fleteId, now) else InsertExpense(v, fleteId)
  }
}
