/** The shipment server actions (`src/app/actions/flete.ts`): the payload
    written to the shipments table, the invoice rows stamped with their
    shipment, and the step-by-step insert, update and invoice replacement
    over in-memory tables. Every backend error aborts the remaining steps. */
module FleteActions {
  import opened Common
  import opened FleteForm

  /** The shipment row's columns, as `insertPayload` and `updatePayload` build them. */
  datatype FletePayload = FletePayload(
    fo_number: string,
    driver_id: Option<string>,
    cliente_id: string,
    status: FleteStatus,
    destination: string,
    costo_aproximado: Option<real>,
    pago_fecha: Option<string>,
    monto_pagado_origen: Option<real>,
    moneda_origen: Currency,
    tasa_cambio: Option<real>)

  /** `insertPayload` and `updatePayload` (the same object in both actions):
      `x ?? null` only turns `undefined` into null, so every defined value,
      an empty text or a 0 included, is written as it is. */
  function Payload(v: FleteValues): (r: FletePayload)
    ensures r.fo_number == v.fo_number && r.cliente_id == v.cliente_id && r.status == v.status
    ensures r.destination == v.destination && r.moneda_origen == v.moneda_origen
    ensures r.driver_id == v.driver_id && r.costo_aproximado == v.costo_aproximado
    ensures r.pago_fecha == v.pago_fecha && r.monto_pagado_origen == v.monto_pagado_origen
    ensures r.tasa_cambio == v.tasa_cambio
  {
    FletePayload(v.fo_number, v.driver_id, v.cliente_id, v.status, v.destination,
                 v.costo_aproximado, v.pago_fecha, v.monto_pagado_origen, v.moneda_origen, v.tasa_cambio)
  }

  /** Two forms that agree on every column write the same row: the invoice list plays no part. */
  lemma PayloadIgnoresInvoices(v: FleteValues, w: FleteValues)
    requires v.(facturas := None) == w.(facturas := None)
    ensures Payload(v) == Payload(w)
  {
  }

  /** A shipment that is not paid is written with no payment date, amount or
      rate once the form's status effect has run. */
  lemma ClearedPayloadHasNoPayment(v: FleteValues)
    requires v.status != Pagado
    ensures var p := Payload(ClearPaymentFields(v));
            p.pago_fecha == None && p.monto_pagado_origen == None && p.tasa_cambio == None && p.moneda_origen == USD
  {
  }

  /** A row of the invoices table. */
  datatype InvoiceRow = InvoiceRow(
    invoice_number: string,
    client_name: string,
    load_date: string,
    delivery_date: Option<string>,
    state_dest: Option<string>,
    city_dest: Option<string>,
    weight_kg: Option<real>,
    observation: Option<string>,
    flete_id: string,
    driver_id: Option<string>)

  /** `x || null` on an optional invoice text: `undefined`, `null` and the
      empty string all become null. */
  function OrNullText(x: MaybeText): (r: Option<string>)
    ensures r.Some? <==> x.Text? && x.value != ""
    ensures r.Some? ==> r.value == x.value
  {
    if x.Text? && x.value != "" then Some(x.value) else None
  }

  /** One invoice's row: `x || null` turns an empty text into null as well,
      while the weight uses `??`, so a weight of 0 is kept. */
  function InvoiceRowFor(f: FacturaValues, fleteId: string): (r: InvoiceRow)
    ensures r.flete_id == fleteId
    ensures r.invoice_number == f.invoice_number && r.client_name == f.client_name && r.load_date == f.load_date
    ensures r.weight_kg == f.weight_kg
    ensures r.delivery_date.Some? <==> f.delivery_date.Text? && f.delivery_date.value != ""
    ensures r.state_dest.Some? <==> f.state_dest.Text? && f.state_dest.value != ""
    ensures r.city_dest.Some? <==> f.city_dest.Text? && f.city_dest.value != ""
    ensures r.observation.Some? <==> f.observation.Text? && f.observation.value != ""
    ensures r.driver_id.Some? <==> f.driver_id.Text? && f.driver_id.value != ""
    ensures r.delivery_date.Some? ==> r.delivery_date.value == f.delivery_date.value
    ensures r.state_dest.Some? ==> r.state_dest.value == f.state_dest.value
    ensures r.city_dest.Some? ==> r.city_dest.value == f.city_dest.value
    ensures r.observation.Some? ==> r.observation.value == f.observation.value
    ensures r.driver_id.Some? ==> r.driver_id.value == f.driver_id.value
  {
    InvoiceRow(f.invoice_number, f.client_name, f.load_date, OrNullText(f.delivery_date), OrNullText(f.state_dest),
               OrNullText(f.city_dest), f.weight_kg, OrNullText(f.observation), fleteId, OrNullText(f.driver_id))
  }

  /** A column as `select('*, facturas(*)')` returns it and the edit form
      keeps it: a null column stays `null`. */
  function LoadedText(x: Option<string>): (r: MaybeText)
    ensures r.Null? <==> x.None?
    ensures !r.Undefined?
    // writing a reloaded column back stores what was stored
    ensures x != Some("") ==> OrNullText(r) == x
  {
    if x.None? then Null else Text(x.value)
  }

  /** A stored invoice row as the edit page puts it into the form's
      defaults (`initialData?.facturas || []` copies it unchanged). */
  function LoadedFactura(row: InvoiceRow): (r: FacturaValues)
    ensures r.invoice_number == row.invoice_number && r.client_name == row.client_name
    ensures r.load_date == row.load_date && r.weight_kg == row.weight_kg
    ensures r.delivery_date == LoadedText(row.delivery_date) && r.state_dest == LoadedText(row.state_dest)
    ensures r.city_dest == LoadedText(row.city_dest) && r.observation == LoadedText(row.observation)
    ensures r.driver_id == LoadedText(row.driver_id)
  {
    FacturaValues(row.invoice_number, row.client_name, row.load_date, LoadedText(row.delivery_date),
                  LoadedText(row.state_dest), LoadedText(row.city_dest), row.weight_kg,
                  LoadedText(row.observation), LoadedText(row.driver_id))
  }

  /** As written, an invoice saved with any optional text left empty or
      unset comes back with that text `null`, and the schema then refuses
      it: exactly the texts that were not filled in are reported. */
  lemma ReloadedInvoiceRejectedAsWritten(f: FacturaValues, fleteId: string, k: OptionalText)
    ensures NullTextField(k) in FacturaIssuesAsWritten(LoadedFactura(InvoiceRowFor(f, fleteId)))
            <==> OrNullText(TextOf(f, k)).None?
  {
  }

  /** With the null-tolerant schema, saving and loading an invoice back
      changes none of its issues. */
  lemma ReloadedInvoiceKeepsIssues(f: FacturaValues, fleteId: string)
    ensures FacturaIssues(LoadedFactura(InvoiceRowFor(f, fleteId))) == FacturaIssues(f)
  {
  }

  /** A new shipment whose one invoice has no observation. */
  function FirstSave(): FleteValues
  {
    FleteValues("FO-1", None, "c1", EnTransito, "Valencia", None, None, None, USD, None,
                Some([FacturaValues("F-1", "Cliente", "2025-04-01", Undefined, Undefined, Undefined, None, Undefined, Undefined)]))
  }

  /** Counterexample: the shipment is accepted and saved, yet once the edit
      page loads it back the as-written schema refuses it, so the edit can
      never be submitted; the null-tolerant schema accepts it again. */
  lemma SecondEditRejectedAsWritten()
    ensures SchemaIssuesAsWritten(FirstSave()) == {} && SchemaIssues(FirstSave()) == {}
    ensures var stored := Flete("id-1", "FO-1", None, Some("c1"), EnTransito, "Valencia", None, None, None, USD, None,
                                Some([LoadedFactura(InvoiceRowFor(FirstSave().facturas.value[0], "id-1"))]));
            var reloaded := DefaultValues(Some(stored));
            FacturasField(0, NullTextField(Observation)) in SchemaIssuesAsWritten(reloaded)
            && SchemaIssues(reloaded) == {}
  {
    var v := FirstSave();
    var f := v.facturas.value[0];
    assert FacturaIssuesAsWritten(f) == {};
    assert FacturaListIssuesAsWritten([f]) == {};
    var g := LoadedFactura(InvoiceRowFor(f, "id-1"));
    assert NullTextField(Observation) in FacturaIssuesAsWritten(g);
    assert FacturaIssues(g) == {};
    assert FacturaListIssues([g]) == {};
  }

  /** The invoice map: one row per invoice, in order, each owned by `fleteId`. */
  function InvoiceRows(fs: seq<FacturaValues>, fleteId: string): (r: seq<InvoiceRow>)
    ensures |r| == |fs|
    ensures forall i :: 0 <= i < |r| ==> r[i] == InvoiceRowFor(fs[i], fleteId)
    ensures forall i :: 0 <= i < |r| ==> r[i].flete_id == fleteId
  {
    seq(|fs|, i requires 0 <= i < |fs| => InvoiceRowFor(fs[i], fleteId))
  }

  /** The filters `flete_id = id` and its negation, as the delete uses it. */
  function OwnedBy(fleteId: string): InvoiceRow -> bool
  {
    (r: InvoiceRow) => r.flete_id == fleteId
  }

  function NotOwnedBy(fleteId: string): InvoiceRow -> bool
  {
    (r: InvoiceRow) => r.flete_id != fleteId
  }

  /** The invoice rows owned by a shipment, in table order. */
  function InvoicesOf(rows: seq<InvoiceRow>, fleteId: string): seq<InvoiceRow>
  {
    Filter(rows, OwnedBy(fleteId))
  }

  /** Deleting a shipment's rows and appending a fresh list for it leaves
      exactly that list as its invoices. */
  lemma ReplaceInvoices(rows: seq<InvoiceRow>, id: string, fs: seq<FacturaValues>)
    ensures InvoicesOf(Filter(rows, NotOwnedBy(id)) + InvoiceRows(fs, id), id) == InvoiceRows(fs, id)
  {
    var kept := Filter(rows, NotOwnedBy(id));
    var added := InvoiceRows(fs, id);
    FilterAppend(kept, added, OwnedBy(id));
    FilterAll(added, OwnedBy(id));
    NoneMatch(kept, id);
    assert [] + added == added;
  }

  /** The same replacement leaves every other shipment's invoices as they were. */
  lemma OtherInvoicesKept(rows: seq<InvoiceRow>, id: string, fs: seq<FacturaValues>, other: string)
    requires other != id
    ensures InvoicesOf(Filter(rows, NotOwnedBy(id)) + InvoiceRows(fs, id), other) == InvoicesOf(rows, other)
  {
    var kept := Filter(rows, NotOwnedBy(id));
    var added := InvoiceRows(fs, id);
    FilterAppend(kept, added, OwnedBy(other));
    NoneMatch(added, other);
    FilterOfFilter(rows, id, other);
    assert kept + [] == kept;
    assert InvoicesOf(kept, other) + [] == InvoicesOf(kept, other);
  }

  lemma {:induction false} NoneMatch(rows: seq<InvoiceRow>, id: string)
    requires forall i :: 0 <= i < |rows| ==> rows[i].flete_id != id
    ensures InvoicesOf(rows, id) == []
  {
    if rows != [] {
      NoneMatch(rows[1..], id);
    }
  }

  /** Removing another shipment's rows does not change a shipment's invoices. */
  lemma {:induction false} FilterOfFilter(rows: seq<InvoiceRow>, id: string, other: string)
    requires other != id
    ensures InvoicesOf(Filter(rows, NotOwnedBy(id)), other) == InvoicesOf(rows, other)
  {
    if rows != [] {
      FilterOfFilter(rows[1..], id, other);
    }
  }

  /** A row of the shipments table. */
  datatype FleteRow = FleteRow(id: string, payload: FletePayload)

  /** The backend step that fails, if any. */
  datatype Step = InsertFleteStep | InsertInvoicesStep | UpdateFleteStep | DeleteInvoicesStep | InsertOneInvoiceStep

  /** The two tables the actions write. */
  class Database {
    var fletes: seq<FleteRow>
    var facturas: seq<InvoiceRow>

    constructor(fletes0: seq<FleteRow>, facturas0: seq<InvoiceRow>)
      ensures fletes == fletes0 && facturas == facturas0
    {
      fletes := fletes0;
      facturas := facturas0;
    }

    /** `addFlete`: inserts the shipment under the id the database assigns,
        then its invoices when the list is non-empty. A failing insert of
        the shipment writes nothing; a failing insert of the invoices keeps
        the shipment without them. */
    method AddFlete(v: FleteValues, newId: string, fail: Option<Step>) returns (r: Result<string>)
      modifies this
      ensures fail == Some(InsertFleteStep) ==> r.Err? && fletes == old(fletes) && facturas == old(facturas)
      ensures fail != Some(InsertFleteStep) ==> fletes == old(fletes) + [FleteRow(newId, Payload(v))]
      ensures var withInvoices := v.facturas.Some? && |v.facturas.value| > 0;
        && (fail != Some(InsertFleteStep) && withInvoices && fail == Some(InsertInvoicesStep) ==>
              r.Err? && facturas == old(facturas))
        && (fail != Some(InsertFleteStep) && !(withInvoices && fail == Some(InsertInvoicesStep)) ==>
              r == Ok(newId)
              && facturas == old(facturas) + (if withInvoices then InvoiceRows(v.facturas.value, newId) else []))
    {
      if fail == Some(InsertFleteStep) {
        return Err("insert flete");
      }
      fletes := fletes + [FleteRow(newId, Payload(v))];
      if v.facturas.Some? && |v.facturas.value| > 0 {
        if fail == Some(InsertInvoicesStep) {
          return Err("insert facturas");
        }
        facturas := facturas + InvoiceRows(v.facturas.value, newId);
      }
      r := Ok(newId);
    }

    /** `updateFlete`: rewrites the shipment's row (an unknown id is an
        error), then, when the form carries an invoice list, deletes the
        shipment's invoices and inserts the list. A failure after the delete
        leaves the shipment with no invoices at all. */
    method UpdateFlete(id: string, v: FleteValues, fail: Option<Step>) returns (r: Result<string>)
      modifies this
      ensures var known := exists i :: 0 <= i < |old(fletes)| && old(fletes)[i].id == id;
        && (!known || fail == Some(UpdateFleteStep) ==> r.Err? && fletes == old(fletes) && facturas == old(facturas))
        && (known && fail != Some(UpdateFleteStep) ==>
              |fletes| == |old(fletes)|
              && forall i :: 0 <= i < |fletes| ==>
                   fletes[i] == if old(fletes)[i].id == id then FleteRow(id, Payload(v)) else old(fletes)[i])
        && (known && fail != Some(UpdateFleteStep) && v.facturas.None? ==> r == Ok(id) && facturas == old(facturas))
        && (known && fail != Some(UpdateFleteStep) && v.facturas.Some? && fail == Some(DeleteInvoicesStep) ==>
              r.Err? && facturas == old(facturas))
        && (known && fail != Some(UpdateFleteStep) && v.facturas.Some? && fail == Some(InsertInvoicesStep) ==>
              r.Err? && facturas == Filter(old(facturas), NotOwnedBy(id))
              && InvoicesOf(facturas, id) == [])
        && (known && fail != Some(UpdateFleteStep) && v.facturas.Some?
              && fail != Some(DeleteInvoicesStep) && fail != Some(InsertInvoicesStep) ==>
              r == Ok(id)
              && facturas == Filter(old(facturas), NotOwnedBy(id)) + InvoiceRows(v.facturas.value, id)
              && InvoicesOf(facturas, id) == InvoiceRows(v.facturas.value, id))
      ensures forall other :: other != id ==> InvoicesOf(facturas, other) == InvoicesOf(old(facturas), other)
    {
      var known := exists i :: 0 <= i < |fletes| && fletes[i].id == id;
      if !known || fail == Some(UpdateFleteStep) {
        return Err("update flete");
      }
      fletes := seq(|fletes|, i requires 0 <= i < |fletes| reads this =>
                      if fletes[i].id == id then FleteRow(id, Payload(v)) else fletes[i]);
      if v.facturas.None? {
        return Ok(id);
      }
      if fail == Some(DeleteInvoicesStep) {
        return Err("delete facturas");
      }
      facturas := Filter(facturas, NotOwnedBy(id));
      if fail == Some(InsertInvoicesStep) {
        NoneMatch(facturas, id);
        forall other | other != id ensures InvoicesOf(facturas, other) == InvoicesOf(old(facturas), other) {
          FilterOfFilter(old(facturas), id, other);
        }
        return Err("insert facturas");
      }
      facturas := facturas + InvoiceRows(v.facturas.value, id);
      ReplaceInvoices(old(facturas), id, v.facturas.value);
      forall other | other != id ensures InvoicesOf(facturas, other) == InvoicesOf(old(facturas), other) {
        OtherInvoicesKept(old(facturas), id, v.facturas.value, other);
      }
      r := Ok(id);
    }

    /** `addFactura`: stores the given invoice under the given shipment,
        whatever shipment the invoice named. */
    method AddFactura(fleteId: string, row: InvoiceRow, fail: bool) returns (r: Result<InvoiceRow>)
      modifies this
      ensures fail ==> r.Err? && facturas == old(facturas)
      ensures !fail ==> r == Ok(row.(flete_id := fleteId)) && facturas == old(facturas) + [row.(flete_id := fleteId)]
      ensures fletes == old(fletes)
    {
      if fail {
        return Err("insert factura");
      }
      var stored := row.(flete_id := fleteId);
      facturas := facturas + [stored];
      r := Ok(stored);
    }
  }
}
