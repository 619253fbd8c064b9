/** The invoices table of a shipment (`src/features/fletes/invoices-manager.tsx`):
    the dialog's schema with its dispatch-guide list, the values it opens
    with for a new or an existing invoice, the delete confirmation, how a
    saved invoice goes back into the list, and the driver name column. */
module InvoicesManager {
  import opened Common
  import opened Records

  /** The component's `Factura`, with the guide numbers the query joins in. */
  datatype Factura = Factura(
    id: string,
    flete_id: string,
    invoice_number: string,
    client_name: string,
    load_date: string,
    delivery_date: Option<string>,
    state_dest: Option<string>,
    city_dest: Option<string>,
    weight_kg: Option<real>,
    observation: Option<string>,
    driver_id: Option<string>,
    created_at: string,
    updated_at: string,
    guias_despacho: Option<seq<string>>)

  /** The dialog's values. Both ways of opening the dialog fill every field,
      so none is `undefined` here. */
  datatype InvoiceValues = InvoiceValues(
    invoice_number: string,
    client_name: string,
    load_date: string,
    delivery_date: string,
    state_dest: string,
    city_dest: string,
    weight_kg: real,
    observation: string,
    driver_id: string,
    guias: seq<string>)

  datatype InvoiceField = InvoiceNumberField | ClientNameField | LoadDateField | GuiaField(index: nat)

  /** `extendedSchema`: three required texts and a non-empty number on every guide. */
  function Issues(v: InvoiceValues): (r: set<InvoiceField>)
    ensures InvoiceNumberField in r <==> v.invoice_number == ""
    ensures ClientNameField in r <==> v.client_name == ""
    ensures LoadDateField in r <==> v.load_date == ""
    ensures forall i: nat :: GuiaField(i) in r <==> i < |v.guias| && v.guias[i] == ""
  {
    (if |v.invoice_number| < 1 then {InvoiceNumberField} else {})
    + (if |v.client_name| < 1 then {ClientNameField} else {})
    + (if |v.load_date| < 1 then {LoadDateField} else {})
    + (set i: nat | i < |v.guias| && |v.guias[i]| < 1 :: GuiaField(i))
  }

  /** `x || ''`. */
  function OrEmpty(x: Option<string>): (r: string)
    ensures x.Some? ==> r == x.value
    ensures x.None? ==> r == ""
  {
    if x.Some? then x.value else ""
  }

  /** The values `handleAdd` resets the form to: today's date, and the
      shipment's destination and driver when it has them. */
  function AddDefaults(today: string, destination: Option<string>, driverId: Option<string>): (r: InvoiceValues)
    ensures r.invoice_number == "" && r.client_name == "" && r.load_date == today
    ensures r.delivery_date == "" && r.city_dest == "" && r.observation == "" && r.weight_kg == 0.0
    ensures r.state_dest == OrEmpty(destination) && r.driver_id == OrEmpty(driverId)
    ensures r.guias == []
  {
    InvoiceValues("", "", today, "", OrEmpty(destination), "", 0.0, "", OrEmpty(driverId), [])
  }

  /** The values `handleEdit` resets the form to: a null field becomes empty
      (the weight 0), and the invoice's guides in their order. */
  function EditDefaults(f: Factura): (r: InvoiceValues)
    ensures r.invoice_number == f.invoice_number && r.client_name == f.client_name && r.load_date == f.load_date
    ensures r.delivery_date == OrEmpty(f.delivery_date) && r.state_dest == OrEmpty(f.state_dest)
    ensures r.city_dest == OrEmpty(f.city_dest) && r.observation == OrEmpty(f.observation)
    ensures r.driver_id == OrEmpty(f.driver_id) && r.weight_kg == OrZero(f.weight_kg)
    ensures f.guias_despacho.Some? ==> r.guias == f.guias_despacho.value
    ensures f.guias_despacho.None? ==> r.guias == []
  {
    InvoiceValues(
      f.invoice_number, f.client_name, f.load_date,
      OrEmpty(f.delivery_date), OrEmpty(f.state_dest), OrEmpty(f.city_dest),
      OrZero(f.weight_kg), OrEmpty(f.observation), OrEmpty(f.driver_id),
      if f.guias_despacho.Some? then f.guias_despacho.value else [])
  }

  /** A fresh dialog always asks for an invoice number and a client, and
      for nothing else when today's date is given. */
  lemma AddDefaultsNeedInput(today: string, destination: Option<string>, driverId: Option<string>)
    ensures Issues(AddDefaults(today, destination, driverId)) ==
      {InvoiceNumberField, ClientNameField} + (if today == "" then {LoadDateField} else {})
  {
    var v := AddDefaults(today, destination, driverId);
    var r := Issues(v);
    assert forall x :: x in r ==> x.InvoiceNumberField? || x.ClientNameField? || x.LoadDateField?;
  }

  /** Opening an invoice that was stored through this dialog passes the
      schema again unchanged. */
  lemma EditOfStoredInvoiceIsAccepted(f: Factura)
    requires f.invoice_number != "" && f.client_name != "" && f.load_date != ""
    requires f.guias_despacho.Some? ==> forall i :: 0 <= i < |f.guias_despacho.value| ==> f.guias_despacho.value[i] != ""
    ensures Issues(EditDefaults(f)) == {}
  {
    var r := Issues(EditDefaults(f));
    assert forall x :: x in r ==> x.GuiaField?;
  }

  /** The row kept in the list after a save: the stored invoice with the
      submitted guide numbers. */
  function WithGuias(stored: Factura, guias: seq<string>): (r: Factura)
    ensures r.guias_despacho == Some(guias)
    ensures r.(guias_despacho := stored.guias_despacho) == stored
  {
    stored.(guias_despacho := Some(guias))
  }

  function IdOf(f: Factura): string
  {
    f.id
  }

  /** `getDriverName`: the first driver with that id as "first last", or a dash. */
  function DriverName(drivers: seq<Driver>, id: string): (r: string)
    ensures r == "—" <==> forall i :: 0 <= i < |drivers| ==> drivers[i].id != id
    ensures forall k :: 0 <= k < |drivers| && drivers[k].id == id && (forall j :: 0 <= j < k ==> drivers[j].id != id) ==>
      r == drivers[k].first_name + " " + drivers[k].last_name
  {
    var d := Find(drivers, (d: Driver) => d.id == id);
    if d.Some? then
      var name := d.value.first_name + " " + d.value.last_name;
      assert name[|d.value.first_name|] == ' ';
      name
    else "—"
  }

  /** With unique driver ids, the name shown is that driver's. */
  lemma KnownDriverName(drivers: seq<Driver>, k: int)
    requires forall i, j :: 0 <= i < j < |drivers| ==> drivers[i].id != drivers[j].id
    requires 0 <= k < |drivers|
    ensures DriverName(drivers, drivers[k].id) == drivers[k].first_name + " " + drivers[k].last_name
  {
  }

  /** The component's state; its props are fixed at construction. */
  class InvoicesModel {
    const fleteId: Option<string>
    const destination: Option<string>
    const driverId: Option<string>
    var facturas: seq<Factura>
    var drivers: seq<Driver>
    var dialogOpen: bool
    var current: Option<Factura>
    var form: InvoiceValues
    var deleteDialogOpen: bool
    var facturaToDelete: Option<string>

    constructor(fleteId0: Option<string>, destination0: Option<string>, driverId0: Option<string>, today: string)
      ensures fleteId == fleteId0 && destination == destination0 && driverId == driverId0
      ensures facturas == [] && drivers == [] && !dialogOpen && current == None
      ensures form == AddDefaults(today, destination0, driverId0)
      ensures !deleteDialogOpen && facturaToDelete == None
    {
      fleteId := fleteId0;
      destination := destination0;
      driverId := driverId0;
      facturas := [];
      drivers := [];
      dialogOpen := false;
      current := None;
      form := AddDefaults(today, destination0, driverId0);
      deleteDialogOpen := false;
      facturaToDelete := None;
    }

    /** The drivers query: kept only when it succeeded. */
    method LoadDrivers(fetched: Result<seq<Driver>>)
      modifies this
      ensures fetched.Ok? ==> drivers == fetched.data
      ensures fetched.Err? ==> drivers == old(drivers)
      ensures facturas == old(facturas) && dialogOpen == old(dialogOpen) && current == old(current) && form == old(form)
      ensures deleteDialogOpen == old(deleteDialogOpen) && facturaToDelete == old(facturaToDelete)
    {
      if fetched.Ok? {
        drivers := fetched.data;
      }
    }

    /** The invoices query: none without a shipment, the old list on error. */
    method LoadFacturas(fetched: Result<seq<Factura>>)
      modifies this
      ensures Blank(fleteId) ==> facturas == []
      ensures !Blank(fleteId) && fetched.Ok? ==> facturas == fetched.data
      ensures !Blank(fleteId) && fetched.Err? ==> facturas == old(facturas)
      ensures drivers == old(drivers) && dialogOpen == old(dialogOpen) && current == old(current) && form == old(form)
      ensures deleteDialogOpen == old(deleteDialogOpen) && facturaToDelete == old(facturaToDelete)
    {
      if Blank(fleteId) {
        facturas := [];
        return;
      }
      if fetched.Ok? {
        facturas := fetched.data;
      }
    }

    method HandleAdd(today: string)
      modifies this
      ensures current == None && dialogOpen && form == AddDefaults(today, destination, driverId)
      ensures facturas == old(facturas) && drivers == old(drivers)
      ensures deleteDialogOpen == old(deleteDialogOpen) && facturaToDelete == old(facturaToDelete)
    {
      current := None;
      form := AddDefaults(today, destination, driverId);
      dialogOpen := true;
    }

    method HandleEdit(f: Factura)
      modifies this
      ensures current == Some(f) && dialogOpen && form == EditDefaults(f)
      ensures facturas == old(facturas) && drivers == old(drivers)
      ensures deleteDialogOpen == old(deleteDialogOpen) && facturaToDelete == old(facturaToDelete)
    {
      current := Some(f);
      form := EditDefaults(f);
      dialogOpen := true;
    }

    method HandleDelete(id: string)
      modifies this
      ensures facturaToDelete == Some(id) && deleteDialogOpen
      ensures facturas == old(facturas) && drivers == old(drivers)
      ensures dialogOpen == old(dialogOpen) && current == old(current) && form == old(form)
    {
      facturaToDelete := Some(id);
      deleteDialogOpen := true;
    }

    /** The confirm button: nothing pending does nothing; otherwise a
        successful delete removes exactly that id, and the confirmation
        resets whether or not it succeeded. */
    method ConfirmDelete(deleted: bool)
      modifies this
      ensures Blank(old(facturaToDelete)) ==>
        facturas == old(facturas) && deleteDialogOpen == old(deleteDialogOpen) && facturaToDelete == old(facturaToDelete)
      ensures !Blank(old(facturaToDelete)) ==> !deleteDialogOpen && facturaToDelete == None
      ensures !Blank(old(facturaToDelete)) && deleted ==>
        facturas == RemoveById(old(facturas), old(facturaToDelete).value, IdOf)
      ensures !Blank(old(facturaToDelete)) && !deleted ==> facturas == old(facturas)
      ensures drivers == old(drivers) && dialogOpen == old(dialogOpen) && current == old(current) && form == old(form)
    {
      if Blank(facturaToDelete) {
        return;
      }
      if deleted {
        facturas := RemoveById(facturas, facturaToDelete.value, IdOf);
      }
      deleteDialogOpen := false;
      facturaToDelete := None;
    }

    /** `onSubmit` with the row the backend stored (or the error any of its
        calls threw): without a shipment nothing happens; an edit replaces
        the row with the stored row's id in place, a new invoice goes at
        the end, each carrying the submitted guide numbers; only a save
        closes the dialog. */
    method OnSubmit(vals: InvoiceValues, stored: Result<Factura>)
      modifies this
      ensures Blank(fleteId) || stored.Err? ==>
        facturas == old(facturas) && dialogOpen == old(dialogOpen)
      ensures !Blank(fleteId) && stored.Ok? && old(current).Some? ==>
        facturas == ReplaceById(old(facturas), WithGuias(stored.data, vals.guias), IdOf) && !dialogOpen
      ensures !Blank(fleteId) && stored.Ok? && old(current).None? ==>
        facturas == old(facturas) + [WithGuias(stored.data, vals.guias)] && !dialogOpen
      ensures drivers == old(drivers) && current == old(current) && form == old(form)
      ensures deleteDialogOpen == old(deleteDialogOpen) && facturaToDelete == old(facturaToDelete)
    {
      if Blank(fleteId) {
        return;
      }
      if stored.Err? {
        return;
      }
      var saved := WithGuias(stored.data, vals.guias);
      if current.Some? {
        facturas := ReplaceById(facturas, saved, IdOf);
      } else {
        facturas := facturas + [saved];
      }
      dialogOpen := false;
    }
  }
}
