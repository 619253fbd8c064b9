/** The shipment form (`src/features/fletes/flete-form.tsx`): its schema
    with the two refinements that apply to paid shipments, the effect that
    clears the payment fields, the CDE client rule, and the pristine flag
    that enables the submit button. */
module FleteForm {
  import opened Common
  import opened Records

  /** The five shipment states. */
  datatype FleteStatus = EnTransito | Despachado | Relacionado | Facturado | Pagado

  /** An optional text of an invoice: `undefined`, `null` (what the
      invoices table holds for an empty text, and what the edit page loads
      back), or a string. */
  datatype MaybeText = Undefined | Null | Text(value: string)

  /** The five optional texts of an invoice. */
  datatype OptionalText = DeliveryDate | StateDest | CityDest | Observation | InvoiceDriver

  /** One invoice as the forms hold it (`facturaSchema`); `None` is an
      `undefined` weight (a `null` weight coerces to 0 and is never reported). */
  datatype FacturaValues = FacturaValues(
    invoice_number: string,
    client_name: string,
    load_date: string,
    delivery_date: MaybeText,
    state_dest: MaybeText,
    city_dest: MaybeText,
    weight_kg: Option<real>,
    observation: MaybeText,
    driver_id: MaybeText)

  function TextOf(f: FacturaValues, k: OptionalText): MaybeText
  {
    match k
    case DeliveryDate => f.delivery_date
    case StateDest => f.state_dest
    case CityDest => f.city_dest
    case Observation => f.observation
    case InvoiceDriver => f.driver_id
  }

  datatype FacturaField = InvoiceNumberField | ClientNameField | LoadDateField | NullTextField(key: OptionalText)

  /** `facturaSchema` as written: the three required texts, and
      `z.string().optional()` refuses a `null` optional text. */
  function FacturaIssuesAsWritten(f: FacturaValues): (r: set<FacturaField>)
    ensures InvoiceNumberField in r <==> f.invoice_number == ""
    ensures ClientNameField in r <==> f.client_name == ""
    ensures LoadDateField in r <==> f.load_date == ""
    ensures forall k :: NullTextField(k) in r <==> TextOf(f, k) == Null
  {
    (if |f.invoice_number| < 1 then {InvoiceNumberField} else {})
    + (if |f.client_name| < 1 then {ClientNameField} else {})
    + (if |f.load_date| < 1 then {LoadDateField} else {})
    + (if f.delivery_date.Null? then {NullTextField(DeliveryDate)} else {})
    + (if f.state_dest.Null? then {NullTextField(StateDest)} else {})
    + (if f.city_dest.Null? then {NullTextField(CityDest)} else {})
    + (if f.observation.Null? then {NullTextField(Observation)} else {})
    + (if f.driver_id.Null? then {NullTextField(InvoiceDriver)} else {})
  }

  /** The null-tolerant invoice schema: the three required texts only, so a
      stored invoice loaded back with `null` texts is accepted. */
  function FacturaIssues(f: FacturaValues): (r: set<FacturaField>)
    ensures InvoiceNumberField in r <==> f.invoice_number == ""
    ensures ClientNameField in r <==> f.client_name == ""
    ensures LoadDateField in r <==> f.load_date == ""
    ensures forall x :: x in r <==> x in FacturaIssuesAsWritten(f) && !x.NullTextField?
  {
    (if |f.invoice_number| < 1 then {InvoiceNumberField} else {})
    + (if |f.client_name| < 1 then {ClientNameField} else {})
    + (if |f.load_date| < 1 then {LoadDateField} else {})
  }

  /** The form's values. */
  datatype FleteValues = FleteValues(
    fo_number: string,
    driver_id: Option<string>,
    cliente_id: string,
    status: FleteStatus,
    destination: string,
    costo_aproximado: Option<real>,
    pago_fecha: Option<string>,
    monto_pagado_origen: Option<real>,
    moneda_origen: Currency,
    tasa_cambio: Option<real>,
    facturas: Option<seq<FacturaValues>>)

  datatype FleteField =
    | FoNumberField | ClienteIdField | DestinationField | CostoField | MontoField
    | TasaCambioField | PagoFechaField
    | FacturasField(index: nat, field: FacturaField)

  /** The required text fields of `formSchema`. */
  function TextIssues(v: FleteValues): (r: set<FleteField>)
    ensures FoNumberField in r <==> v.fo_number == ""
    ensures ClienteIdField in r <==> v.cliente_id == ""
    ensures DestinationField in r <==> v.destination == ""
    ensures forall x :: x in r ==> x == FoNumberField || x == ClienteIdField || x == DestinationField
  {
    (if |v.fo_number| < 1 then {FoNumberField} else {})
    + (if |v.cliente_id| < 1 then {ClienteIdField} else {})
    + (if |v.destination| < 1 then {DestinationField} else {})
  }

  /** The number bounds of `formSchema`. */
  function NumberIssues(v: FleteValues): (r: set<FleteField>)
    ensures CostoField in r <==> v.costo_aproximado.Some? && v.costo_aproximado.value < 0.0
    ensures MontoField in r <==> v.monto_pagado_origen.Some? && v.monto_pagado_origen.value < 0.0
    ensures TasaCambioField in r <==> v.tasa_cambio.Some? && v.tasa_cambio.value <= 0.0
    ensures forall x :: x in r ==> x == CostoField || x == MontoField || x == TasaCambioField
  {
    (if v.costo_aproximado.Some? && v.costo_aproximado.value < 0.0 then {CostoField} else {})
    + (if v.monto_pagado_origen.Some? && v.monto_pagado_origen.value < 0.0 then {MontoField} else {})
    + (if v.tasa_cambio.Some? && v.tasa_cambio.value <= 0.0 then {TasaCambioField} else {})
  }

  /** The field checks of `formSchema`. */
  function FieldIssues(v: FleteValues): (r: set<FleteField>)
    ensures FoNumberField in r <==> v.fo_number == ""
    ensures ClienteIdField in r <==> v.cliente_id == ""
    ensures DestinationField in r <==> v.destination == ""
    ensures CostoField in r <==> v.costo_aproximado.Some? && v.costo_aproximado.value < 0.0
    ensures MontoField in r <==> v.monto_pagado_origen.Some? && v.monto_pagado_origen.value < 0.0
    ensures TasaCambioField in r <==> v.tasa_cambio.Some? && v.tasa_cambio.value <= 0.0
    ensures PagoFechaField !in r
    ensures forall x :: x in r ==> !x.FacturasField?
  {
    TextIssues(v) + NumberIssues(v)
  }

  /** The issues of every invoice in the list, tagged with its position. */
  function FacturaListIssues(fs: seq<FacturaValues>): (r: set<FleteField>)
    ensures forall i: nat, f :: FacturasField(i, f) in r <==> i < |fs| && f in FacturaIssues(fs[i])
    ensures forall x :: x in r ==> x.FacturasField?
  {
    set i: nat, f | i < |fs| && f in FacturaIssues(fs[i]) :: FacturasField(i, f)
  }

  /** The second refinement's conditions: a paid shipment in VES needs a rate. */
  predicate PaidCurrencyOk(v: FleteValues)
    ensures v.status != Pagado ==> PaidCurrencyOk(v)
    ensures v.moneda_origen == USD ==> PaidCurrencyOk(v)
    ensures PaidCurrencyOk(v) && v.status == Pagado && v.moneda_origen != USD ==> v.tasa_cambio.Some?
  {
    v.status != Pagado || v.moneda_origen == USD || (v.moneda_origen == VES && v.tasa_cambio.Some?)
  }

  /** The first refinement's conditions: a paid shipment needs a non-empty
      payment date and an amount (0 is an amount). */
  predicate PaidFieldsOk(v: FleteValues)
    ensures v.status != Pagado ==> PaidFieldsOk(v)
    ensures PaidFieldsOk(v) && v.status == Pagado ==> !Blank(v.pago_fecha) && v.monto_pagado_origen.Some?
    // a zero amount counts as given
    ensures !Blank(v.pago_fecha) && v.monto_pagado_origen == Some(0.0) ==> PaidFieldsOk(v)
  {
    v.status != Pagado || (v.pago_fecha.Some? && v.pago_fecha.value != "" && v.monto_pagado_origen.Some?)
  }

  /** Every issue `formSchema` reports. */
  function SchemaIssues(v: FleteValues): (r: set<FleteField>)
    ensures forall x :: x in r <==>
      x in FieldIssues(v)
      || (x == PagoFechaField && !PaidFieldsOk(v))
      || (x == TasaCambioField && !PaidCurrencyOk(v))
      || (v.facturas.Some? && x in FacturaListIssues(v.facturas.value))
  {
    var r := FieldIssues(v)
      + (if v.facturas.Some? then FacturaListIssues(v.facturas.value) else {})
      + (if PaidFieldsOk(v) then {} else {PagoFechaField})
      + (if PaidCurrencyOk(v) then {} else {TasaCambioField});
    r
  }

  /** The issues of every invoice in the list under the as-written schema. */
  function FacturaListIssuesAsWritten(fs: seq<FacturaValues>): (r: set<FleteField>)
    ensures forall i: nat, f :: FacturasField(i, f) in r <==> i < |fs| && f in FacturaIssuesAsWritten(fs[i])
    ensures forall x :: x in r ==> x.FacturasField?
  {
    set i: nat, f | i < |fs| && f in FacturaIssuesAsWritten(fs[i]) :: FacturasField(i, f)
  }

  /** No invoice of the list holds a `null` text. */
  predicate NoNullTexts(v: FleteValues)
  {
    v.facturas.None? || forall i, k :: 0 <= i < |v.facturas.value| ==> TextOf(v.facturas.value[i], k) != Null
  }

  /** `formSchema` as written: the same field checks, with every invoice
      checked by `FacturaIssuesAsWritten`. A `null` text is a type error,
      which aborts the parse of the object, so the two refinements run only
      when no invoice holds one. */
  function SchemaIssuesAsWritten(v: FleteValues): (r: set<FleteField>)
    ensures forall x: FleteField :: !x.FacturasField? ==>
      (x in r <==>
        (x in FieldIssues(v) ||
         (NoNullTexts(v) && ((x == PagoFechaField && !PaidFieldsOk(v)) || (x == TasaCambioField && !PaidCurrencyOk(v))))))
    ensures NoNullTexts(v) ==> forall x: FleteField :: !x.FacturasField? ==> (x in r <==> x in SchemaIssues(v))
    ensures forall i: nat, f :: FacturasField(i, f) in r <==>
      v.facturas.Some? && i < |v.facturas.value| && f in FacturaIssuesAsWritten(v.facturas.value[i])
  {
    FieldIssues(v)
      + (if v.facturas.Some? then FacturaListIssuesAsWritten(v.facturas.value) else {})
      + (if !NoNullTexts(v) || PaidFieldsOk(v) then {} else {PagoFechaField})
      + (if !NoNullTexts(v) || PaidCurrencyOk(v) then {} else {TasaCambioField})
  }

  /** The two schemas differ only on invoices holding a `null` text. Without
      one they report the same. With one, the as-written schema reports it
      and skips the refinements, so it reports no other issue than the
      null-tolerant one does and still rejects every form that one rejects. */
  lemma AsWrittenDiffersOnlyOnNulls(v: FleteValues)
    ensures NoNullTexts(v) ==> SchemaIssuesAsWritten(v) == SchemaIssues(v)
    ensures forall x :: x in SchemaIssuesAsWritten(v) && !x.FacturasField? ==> x in SchemaIssues(v)
    ensures SchemaIssues(v) != {} ==> SchemaIssuesAsWritten(v) != {}
  {
    if NoNullTexts(v) {
      forall x | x in SchemaIssuesAsWritten(v) && x.FacturasField?
        ensures x in SchemaIssues(v)
      {
        assert forall k :: NullTextField(k) !in FacturaIssuesAsWritten(v.facturas.value[x.index]);
      }
    } else {
      var i, k :| 0 <= i < |v.facturas.value| && TextOf(v.facturas.value[i], k) == Null;
      assert NullTextField(k) in FacturaIssuesAsWritten(v.facturas.value[i]);
      assert FacturasField(i, NullTextField(k)) in SchemaIssuesAsWritten(v);
    }
  }

  /** A shipment not yet paid meets both refinements whatever its payment fields hold. */
  lemma NotPaidMeetsRefinements(v: FleteValues)
    requires v.status != Pagado
    ensures PaidFieldsOk(v) && PaidCurrencyOk(v)
    ensures forall w: FleteValues :: w.status == v.status ==> PaidFieldsOk(w) && PaidCurrencyOk(w)
  {
  }

  /** A paid shipment needs a payment date and an amount, and in VES also a
      rate; in USD it needs no rate. */
  lemma PaidRequirements(v: FleteValues)
    requires v.status == Pagado
    ensures PagoFechaField in SchemaIssues(v) <==> v.pago_fecha.None? || v.pago_fecha.value == "" || v.monto_pagado_origen.None?
    ensures v.moneda_origen == VES ==> (TasaCambioField in SchemaIssues(v) <==> v.tasa_cambio.None? || v.tasa_cambio.value <= 0.0)
    ensures v.moneda_origen == USD ==> (TasaCambioField in SchemaIssues(v) <==> v.tasa_cambio.Some? && v.tasa_cambio.value <= 0.0)
  {
  }

  /** An invoice in the list is reported exactly by its own missing fields. */
  lemma InvoiceIssuesReported(v: FleteValues, i: nat, f: FacturaField)
    requires v.facturas.Some? && i < |v.facturas.value|
    ensures FacturasField(i, f) in SchemaIssues(v) <==> f in FacturaIssues(v.facturas.value[i])
  {
  }

  // ---------------------------------------------------------------- effects and state

  /** The status effect: a shipment not yet paid loses its payment date,
      amount and rate and goes back to USD; a paid one keeps them. */
  function ClearPaymentFields(v: FleteValues): (r: FleteValues)
    ensures v.status != Pagado ==>
      r.pago_fecha == None && r.monto_pagado_origen == None && r.tasa_cambio == None && r.moneda_origen == USD
    ensures v.status == Pagado ==> r == v
    ensures r.(pago_fecha := v.pago_fecha, monto_pagado_origen := v.monto_pagado_origen,
               tasa_cambio := v.tasa_cambio, moneda_origen := v.moneda_origen) == v
  {
    if v.status != Pagado
    then v.(pago_fecha := None, monto_pagado_origen := None, moneda_origen := USD, tasa_cambio := None)
    else v
  }

  /** Clearing twice is clearing once, and a cleared form has the same issues
      as before apart from the payment fields it emptied, which a shipment
      not yet paid never needs. */
  lemma ClearIdempotent(v: FleteValues)
    ensures ClearPaymentFields(ClearPaymentFields(v)) == ClearPaymentFields(v)
    ensures PaidFieldsOk(ClearPaymentFields(v)) == PaidFieldsOk(v)
    ensures PaidCurrencyOk(ClearPaymentFields(v)) == PaidCurrencyOk(v)
  {
  }

  /** `isCDE`: the client chosen in the form is the first with that id and is named "CDE". */
  function IsCDE(clientes: seq<Cliente>, clienteId: string): (r: bool)
    ensures r <==> exists i :: 0 <= i < |clientes| && clientes[i].id == clienteId
                          && (forall j :: 0 <= j < i ==> clientes[j].id != clienteId) && clientes[i].nombre == "CDE"
  {
    var c := Find(clientes, (c: Cliente) => c.id == clienteId);
    c.Some? && c.value.nombre == "CDE"
  }

  /** With distinct client ids, the invoices section is shown exactly when
      the chosen client is not named "CDE" (an unknown client shows it). */
  lemma InvoicesShownUnlessCDE(clientes: seq<Cliente>, clienteId: string)
    requires forall i, j :: 0 <= i < j < |clientes| ==> clientes[i].id != clientes[j].id
    ensures !IsCDE(clientes, clienteId) <==>
      forall i :: 0 <= i < |clientes| && clientes[i].id == clienteId ==> clientes[i].nombre != "CDE"
  {
  }

  /** The shipment being edited, or nothing for a new one. */
  datatype Flete = Flete(
    id: string,
    fo_number: string,
    driver_id: Option<string>,
    cliente_id: Option<string>,
    status: FleteStatus,
    destination: string,
    costo_aproximado: Option<real>,
    pago_fecha: Option<string>,
    monto_pagado_origen: Option<real>,
    moneda_origen: Currency,
    tasa_cambio: Option<real>,
    facturas: Option<seq<FacturaValues>>)

  /** The form's default values: the shipment's fields, empty texts for a new one. */
  function DefaultValues(initial: Option<Flete>): (r: FleteValues)
    ensures initial.None? ==>
      r == FleteValues("", None, "", EnTransito, "", None, None, None, USD, None, Some([]))
    ensures initial.Some? ==>
      var f := initial.value;
      && r.fo_number == f.fo_number && r.status == f.status && r.destination == f.destination
      && r.driver_id == OrNull(f.driver_id)
      && r.cliente_id == (if f.cliente_id.Some? then f.cliente_id.value else "")
      && r.costo_aproximado == f.costo_aproximado && r.pago_fecha == f.pago_fecha
      && r.monto_pagado_origen == f.monto_pagado_origen && r.tasa_cambio == f.tasa_cambio
      && r.moneda_origen == f.moneda_origen
      && r.facturas == Some(if f.facturas.Some? then f.facturas.value else [])
  {
    match initial
    case None => FleteValues("", None, "", EnTransito, "", None, None, None, USD, None, Some([]))
    case Some(f) =>
      FleteValues(f.fo_number, OrNull(f.driver_id), if f.cliente_id.Some? then f.cliente_id.value else "",
                  f.status, f.destination, f.costo_aproximado, f.pago_fecha, f.monto_pagado_origen,
                  f.moneda_origen, f.tasa_cambio, Some(if f.facturas.Some? then f.facturas.value else []))
  }

  /** The server action a valid submission calls. */
  datatype FleteCall = UpdateCall(id: string, values: FleteValues) | AddCall(values: FleteValues)

  /** The form's state: its values, the edited shipment's id and the pristine flag. */
  class FleteFormState {
    var values: FleteValues
    var isPristine: bool
    const editId: Option<string>

    /** `isEdit`: the initial data carries a (non-empty) id. */
    function IsEdit(): (r: bool)
      reads this
      ensures r <==> !Blank(editId)
    {
      editId.Some? && editId.value != ""
    }

    /** The submit button is disabled exactly while editing an unchanged shipment. */
    function SubmitDisabled(): (r: bool)
      reads this
      ensures r ==> isPristine && editId.Some?
      // any change, and any new shipment, can be submitted
      ensures !isPristine || editId.None? ==> !r
    {
      IsEdit() && isPristine
    }

    constructor(initial: Option<Flete>)
      ensures values == DefaultValues(initial) && isPristine
      ensures editId == if initial.Some? then Some(initial.value.id) else None
      ensures SubmitDisabled() <==> initial.Some? && initial.value.id != ""
    {
      values := DefaultValues(initial);
      isPristine := true;
      editId := if initial.Some? then Some(initial.value.id) else None;
    }

    /** A change made by the user in any field. */
    method OnChange(v: FleteValues)
      modifies this
      ensures values == v && !isPristine && !SubmitDisabled()
    {
      values := v;
      isPristine := false;
    }

    /** The status effect; written by the form itself, so the flag stays. */
    method ApplyStatusEffect()
      modifies this
      ensures values == ClearPaymentFields(old(values)) && isPristine == old(isPristine)
    {
      if values.status != Pagado {
        values := values.(pago_fecha := None, monto_pagado_origen := None, moneda_origen := USD, tasa_cambio := None);
      }
    }

    /** The action a submission calls: none when the (null-tolerant)
        schema rejects the values, otherwise an update of the edited
        shipment or an insert. */
    method SubmitCall() returns (call: Option<FleteCall>)
      ensures call.None? <==> SchemaIssues(values) != {}
      ensures call.Some? && IsEdit() ==> call.value == UpdateCall(editId.value, values)
      ensures call.Some? && !IsEdit() ==> call.value == AddCall(values)
    {
      if SchemaIssues(values) != {} {
        return None;
      }
      if IsEdit() {
        call := Some(UpdateCall(editId.value, values));
      } else {
        call := Some(AddCall(values));
      }
    }

    /** After the action returns: a success marks the form pristine again,
        a failure leaves it as it was. */
    method AfterSubmit(succeeded: bool)
      modifies this
      ensures values == old(values)
      ensures isPristine == (succeeded || old(isPristine))
      ensures succeeded ==> (SubmitDisabled() <==> IsEdit())
    {
      if succeeded {
        isPristine := true;
      }
    }
  }
}
