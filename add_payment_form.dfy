/** The payment form (`src/features/deudas/components/add-payment-form.tsx`):
    its schema, the checks `onSubmit` runs before building the payment, the
    payment it submits, and the list of debts it offers. */
module AddPaymentForm {
  import opened Common
  import opened Records
  import opened DebtLedger
  import opened DebtList
  import opened RateSelection

  /** The two ways of paying. */
  datatype PaymentType = Divisa | Bolivares

  /** The form's values; `payment_date` is the ISO text of the chosen date. */
  datatype PaymentValues = PaymentValues(
    deuda_id: string,
    description: Option<string>,
    payment_date: string,
    original_currency: Currency,
    payment_type: PaymentType,
    pago_divisa: Option<real>,
    pago_bolivares: Option<real>,
    tasa_cambio: Option<real>,
    tipo_tasa: Option<RateType>)

  /** The fields a check can report an error on. */
  datatype PaymentField = DeudaIdField | PagoDivisaField | PagoBolivaresField | TasaCambioField | TipoTasaField

  /** `formSchema`: the fields whose check fails. A debt must be chosen and
      any amount or rate that is given must be positive. */
  function SchemaIssues(v: PaymentValues): (r: set<PaymentField>)
    ensures DeudaIdField in r <==> v.deuda_id == ""
    ensures PagoDivisaField in r <==> v.pago_divisa.Some? && v.pago_divisa.value <= 0.0
    ensures PagoBolivaresField in r <==> v.pago_bolivares.Some? && v.pago_bolivares.value <= 0.0
    ensures TasaCambioField in r <==> v.tasa_cambio.Some? && v.tasa_cambio.value <= 0.0
    ensures TipoTasaField !in r
  {
    (if |v.deuda_id| < 1 then {DeudaIdField} else {})
    + (if v.pago_divisa.Some? && v.pago_divisa.value <= 0.0 then {PagoDivisaField} else {})
    + (if v.pago_bolivares.Some? && v.pago_bolivares.value <= 0.0 then {PagoBolivaresField} else {})
    + (if v.tasa_cambio.Some? && v.tasa_cambio.value <= 0.0 then {TasaCambioField} else {})
  }

  /** The payment handed to `onAddPayment` (a `Payment` without id and timestamps). */
  datatype NewPayment = NewPayment(
    deuda_id: string,
    description: Option<string>,
    payment_date: string,
    original_currency: Currency,
    pago_divisa: Option<real>,
    pago_bolivares: Option<real>,
    tasa_cambio: Option<real>,
    tipo_tasa: Option<RateType>)

  /** What `onSubmit` does: report one field, or submit one payment. */
  datatype SubmitOutcome = Rejected(field: PaymentField) | Submitted(payment: NewPayment)

  /** `paymentData`: the amounts of the chosen way of paying, nulls for the other. */
  function PaymentData(v: PaymentValues): NewPayment
  {
    var divisa := v.payment_type == Divisa;
    NewPayment(
      v.deuda_id,
      OrNull(v.description),
      v.payment_date,
      v.original_currency,
      if divisa then v.pago_divisa else None,
      if !divisa then v.pago_bolivares else None,
      if !divisa then v.tasa_cambio else None,
      if !divisa then v.tipo_tasa else None)
  }

  /** `onSubmit` on values the schema accepted: the manual checks run in
      order and the first one that fails is the only error reported. */
  function OnSubmit(v: PaymentValues): (r: SubmitOutcome)
    ensures v.payment_type == Divisa ==> (r == Rejected(PagoDivisaField) <==> !Truthy(v.pago_divisa))
    ensures v.payment_type == Bolivares ==>
      && (r == Rejected(PagoBolivaresField) <==> !Truthy(v.pago_bolivares))
      && (r == Rejected(TasaCambioField) <==> Truthy(v.pago_bolivares) && !Truthy(v.tasa_cambio))
      && (r == Rejected(TipoTasaField) <==> Truthy(v.pago_bolivares) && Truthy(v.tasa_cambio) && v.tipo_tasa.None?)
    ensures r.Rejected? ==> r.field != DeudaIdField
    ensures r.Submitted? <==>
      if v.payment_type == Divisa then Truthy(v.pago_divisa)
      else Truthy(v.pago_bolivares) && Truthy(v.tasa_cambio) && v.tipo_tasa.Some?
    ensures r.Submitted? ==>
      var p := r.payment;
      && p.deuda_id == v.deuda_id && p.original_currency == v.original_currency
      && p.payment_date == v.payment_date
      && (p.description.Some? <==> v.description.Some? && v.description.value != "")
      && (p.description.Some? ==> p.description == v.description)
      && !(p.pago_divisa.Some? && p.pago_bolivares.Some?)
      && (v.payment_type == Divisa ==>
            p.pago_divisa == v.pago_divisa && Truthy(p.pago_divisa)
            && p.pago_bolivares == None && p.tasa_cambio == None && p.tipo_tasa == None)
      && (v.payment_type == Bolivares ==>
            p.pago_divisa == None && p.pago_bolivares == v.pago_bolivares
            && p.tasa_cambio == v.tasa_cambio && p.tipo_tasa == v.tipo_tasa
            && Truthy(p.pago_bolivares) && Truthy(p.tasa_cambio) && p.tipo_tasa.Some?)
  {
    if v.payment_type == Divisa && !Truthy(v.pago_divisa) then Rejected(PagoDivisaField)
    else if v.payment_type == Bolivares && !Truthy(v.pago_bolivares) then Rejected(PagoBolivaresField)
    else if v.payment_type == Bolivares && !Truthy(v.tasa_cambio) then Rejected(TasaCambioField)
    else if v.payment_type == Bolivares && v.tipo_tasa.None? then Rejected(TipoTasaField)
    else Submitted(PaymentData(v))
  }

  /** `form.handleSubmit(onSubmit)`: schema errors first, then the manual checks. */
  datatype HandleOutcome = SchemaRejected(fields: set<PaymentField>) | Checked(outcome: SubmitOutcome)

  function HandleSubmit(v: PaymentValues): (r: HandleOutcome)
    ensures r.SchemaRejected? <==> SchemaIssues(v) != {}
    ensures r.SchemaRejected? ==> r.fields == SchemaIssues(v)
    ensures r.Checked? ==> r.outcome == OnSubmit(v)
  {
    var issues := SchemaIssues(v);
    if issues != {} then SchemaRejected(issues) else Checked(OnSubmit(v))
  }

  /** On values the schema accepted, a divisa payment is rejected exactly when
      no amount was given: a given amount is already positive. */
  lemma DivisaRejectedIffMissing(v: PaymentValues)
    requires SchemaIssues(v) == {} && v.payment_type == Divisa
    ensures OnSubmit(v).Rejected? <==> v.pago_divisa.None?
  {
  }

  /** The row stored for a submitted payment. */
  function Stored(p: NewPayment, id: string, stamp: string): Payment
  {
    Payment(id, p.deuda_id, p.description, p.payment_date, p.original_currency,
            p.tasa_cambio, p.pago_divisa, p.pago_bolivares, p.tipo_tasa, stamp, stamp)
  }

  /** Once stored, a payment accepted by the schema and the checks counts
      towards its debt by a positive amount: the divisa amount, or the
      bolivar amount over its rate. */
  lemma SubmittedPaymentReducesDebt(v: PaymentValues, id: string, stamp: string)
    requires HandleSubmit(v) == Checked(OnSubmit(v)) && OnSubmit(v).Submitted?
    ensures var stored := Stored(OnSubmit(v).payment, id, stamp);
      && stored.deuda_id == v.deuda_id
      && Contribution(stored) > 0.0
      && Contribution(stored) == if v.payment_type == Divisa then v.pago_divisa.value
                                 else v.pago_bolivares.value / v.tasa_cambio.value
  {
    var stored := Stored(OnSubmit(v).payment, id, stamp);
    if v.payment_type == Bolivares {
      var bs := v.pago_bolivares.value;
      var rate := v.tasa_cambio.value;
      assert bs > 0.0 && rate > 0.0;
      assert bs / rate > 0.0;
    }
  }

  /** `unpaidDebts`: the debts with a positive balance (missing counts as 0), in order. */
  function UnpaidDebts(debts: seq<Debt>): (r: seq<Debt>)
    ensures forall d :: d in r <==> d in debts && OrZero(d.remainingBalance) > 0.0
    ensures forall d :: multiset(r)[d] == if OrZero(d.remainingBalance) > 0.0 then multiset(debts)[d] else 0
    ensures IsSubsequence(r, debts)
  {
    Filter(debts, (d: Debt) => OrZero(d.remainingBalance) > 0.0)
  }

  /** The debts offered for payment are exactly those whose badge is not "Pagado". */
  lemma UnpaidMeansNotPaid(debts: seq<Debt>)
    ensures forall d :: d in UnpaidDebts(debts) <==> d in debts && GetPaymentStatus(d) != Pagado
  {
  }

  // ---------------------------------------------------------------- rate lookup as written

  /** The price lookup as the payment form writes it: `TasaTipoEnum` has no
      `PARALELO` or `PROMEDIO` member, so those comparisons are against
      `undefined` and only the BCV type finds a price. */
  function PaymentRateAsWritten(t: RateType, rates: ExchangeRates): (r: Option<real>)
    ensures r.Some? <==> t == Bcv
    ensures r.Some? ==> r == RateFor(t, rates)
  {
    if t == Bcv then Some(rates.bcv) else None
  }

  /** The payment form's auto-fill as written. */
  function PaymentAutoFilledAsWritten(s: RateFields, rates: Option<ExchangeRates>): RateFields
  {
    if s.tipo.Some? && rates.Some? && !s.customRate && Truthy(PaymentRateAsWritten(s.tipo.value, rates.value))
    then s.(tasa := PaymentRateAsWritten(s.tipo.value, rates.value))
    else s
  }

  /** Choosing "Paralelo" with prices loaded leaves the rate empty in the
      form as written, where the shared auto-fill (the expense form's, and
      the one this model uses) fills in the parallel price. */
  lemma ParaleloNotFilledAsWritten()
    ensures var s := RateFields(Some(Paralelo), None, false);
            var rates := Some(ExchangeRates(36.5, 40.0, Some(38.25)));
            && PaymentAutoFilledAsWritten(s, rates).tasa == None
            && AutoFilled(s, rates).tasa == Some(40.0)
  {
  }

  /** The two lookups agree exactly on the BCV and custom types. */
  lemma AsWrittenAgreesOnlyOnBcvAndCustom(t: RateType, rates: ExchangeRates)
    requires rates.promedio.Some?
    ensures PaymentRateAsWritten(t, rates) == RateFor(t, rates) <==> t == Bcv || t == Custom
  {
  }
}
