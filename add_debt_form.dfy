/** The new-debt form (`src/features/deudas/components/add-debt-form.tsx`):
    its schema and the debt it submits. */
module AddDebtForm {
  import opened Common
  import opened Records
  import opened DebtLedger
  import opened DebtList

  /** The form's values; a chosen due date is a timestamp. A rate left out
      and a rate cleared to `null` are both `None`. */
  datatype DebtValues = DebtValues(
    persona_name: string,
    description: string,
    original_currency: Currency,
    total_divisa: real,
    tasa_cambio: Option<real>,
    due_date: Option<int>)

  datatype DebtField = PersonaNameField | DescriptionField | TotalDivisaField | TasaCambioField

  /** `formSchema`: the fields whose check fails. */
  function SchemaIssues(v: DebtValues): (r: set<DebtField>)
    ensures PersonaNameField in r <==> v.persona_name == ""
    ensures DescriptionField in r <==> v.description == ""
    ensures TotalDivisaField in r <==> v.total_divisa <= 0.0
    ensures TasaCambioField in r <==> v.tasa_cambio.Some? && v.tasa_cambio.value <= 0.0
  {
    (if |v.persona_name| < 1 then {PersonaNameField} else {})
    + (if |v.description| < 1 then {DescriptionField} else {})
    + (if v.total_divisa <= 0.0 then {TotalDivisaField} else {})
    + (if v.tasa_cambio.Some? && v.tasa_cambio.value <= 0.0 then {TasaCambioField} else {})
  }

  /** The debt handed to `onAddDebt` (a `Debt` without id, timestamps and balance). */
  datatype NewDebt = NewDebt(
    persona_name: string,
    description: string,
    original_currency: Currency,
    total_divisa: real,
    tasa_cambio: Option<real>,
    due_date: Option<string>)

  /** `onSubmit`: copies the fields, a missing rate as null and a chosen due
      date as its ISO text (`toIso` stands for `toISOString`). */
  function OnSubmit(v: DebtValues, toIso: int -> string): (r: NewDebt)
    ensures r.persona_name == v.persona_name && r.description == v.description
    ensures r.original_currency == v.original_currency && r.total_divisa == v.total_divisa
    ensures r.tasa_cambio == v.tasa_cambio
    ensures r.due_date.Some? <==> v.due_date.Some?
    ensures r.due_date.Some? ==> r.due_date.value == toIso(v.due_date.value)
  {
    var due := if v.due_date.Some? then Some(toIso(v.due_date.value)) else None;
    NewDebt(v.persona_name, v.description, v.original_currency, v.total_divisa, v.tasa_cambio, due)
  }

  /** The row the insert returns for a submitted debt. */
  function Stored(d: NewDebt, id: string, stamp: string): Debt
  {
    Debt(id, d.persona_name, d.description, d.original_currency, d.total_divisa,
         d.tasa_cambio, d.due_date, stamp, stamp, None)
  }

  /** A debt accepted by the schema has a positive total, so the balance the
      dashboard gives it on insertion agrees with the ledger while it has no
      payments, and its badge reads "Pendiente". */
  lemma NewDebtIsPending(v: DebtValues, toIso: int -> string, id: string, stamp: string, payments: seq<Payment>)
    requires SchemaIssues(v) == {}
    requires forall i :: 0 <= i < |payments| ==> payments[i].deuda_id != id
    ensures var d := Stored(OnSubmit(v, toIso), id, stamp);
      && RemainingBalance(d, payments) == d.total_divisa
      && GetPaymentStatus(d.(remainingBalance := Some(d.total_divisa))) == Pendiente
  {
    var d := Stored(OnSubmit(v, toIso), id, stamp);
    NoPaymentsOwesTotal(d, payments);
  }
}
