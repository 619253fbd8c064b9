/** The vehicle create/edit form (`src/features/vehicles/vehicle-form.tsx`):
    five required text fields; with initial data carrying an id the form
    updates that vehicle, otherwise it adds a new one, and after the save it
    goes back to the vehicle list. */
module VehicleForm {
  import opened Common

  /** What the form holds: the schema's fields plus the optional id. */
  datatype VehicleFormValues = VehicleFormValues(
    name: string, brand: string, model: string, color: string, plate: string,
    id: Option<string>)

  /** What the schema lets through to the submit handler: unknown keys, the
      id among them, are stripped. */
  datatype VehicleData = VehicleData(name: string, brand: string, model: string, color: string, plate: string)

  datatype Field = NameField | BrandField | ModelField | ColorField | PlateField

  /** `formSchema`: every field needs at least one character. */
  function Issues(v: VehicleFormValues): (r: set<Field>)
    ensures NameField in r <==> v.name == ""
    ensures BrandField in r <==> v.brand == ""
    ensures ModelField in r <==> v.model == ""
    ensures ColorField in r <==> v.color == ""
    ensures PlateField in r <==> v.plate == ""
  {
    (if |v.name| < 1 then {NameField} else {}) +
    (if |v.brand| < 1 then {BrandField} else {}) +
    (if |v.model| < 1 then {ModelField} else {}) +
    (if |v.color| < 1 then {ColorField} else {}) +
    (if |v.plate| < 1 then {PlateField} else {})
  }

  /** The schema's output for values it accepts. */
  function Parse(v: VehicleFormValues): (r: Result<VehicleData>)
    ensures r.Ok? <==> Issues(v) == {}
    ensures r.Ok? ==> r.data == VehicleData(v.name, v.brand, v.model, v.color, v.plate)
  {
    if Issues(v) != {} then Err("Required")
    else Ok(VehicleData(v.name, v.brand, v.model, v.color, v.plate))
  }

  /** `isEdit`: the initial data carries a non-empty id. */
  predicate IsEdit(initial: Option<VehicleFormValues>)
    ensures IsEdit(initial) ==> initial.Some? && initial.value.id.Some? && initial.value.id.value != ""
    ensures initial.None? ==> !IsEdit(initial)
  {
    initial.Some? && !Blank(initial.value.id)
  }

  /** `defaultValues`: the initial data, or every field empty. */
  function Defaults(initial: Option<VehicleFormValues>): (r: VehicleFormValues)
    ensures initial.Some? ==> r == initial.value
    ensures initial.None? ==> r.name == "" && r.brand == "" && r.model == "" && r.color == "" && r.plate == ""
    ensures initial.None? ==> r.id.None?
  {
    if initial.Some? then initial.value else VehicleFormValues("", "", "", "", "", None)
  }

  /** The server action the submit runs. */
  datatype Action = UpdateVehicle(id: string, data: VehicleData) | AddVehicle(data: VehicleData)

  /** `onSubmit`: update the initial vehicle when editing, add otherwise. */
  function OnSubmit(initial: Option<VehicleFormValues>, values: VehicleData): (r: Action)
    ensures r.UpdateVehicle? <==> IsEdit(initial)
    ensures r.UpdateVehicle? ==> r.id == initial.value.id.value && r.id != ""
    ensures r.data == values
  {
    if IsEdit(initial) then UpdateVehicle(initial.value.id.value, values) else AddVehicle(values)
  }

  /** `handleSubmit(onSubmit)`: nothing is sent unless the schema accepts. */
  function HandleSubmit(initial: Option<VehicleFormValues>, v: VehicleFormValues): (r: Option<Action>)
    ensures r.Some? <==> Issues(v) == {}
    // the typed fields are sent as typed
    ensures r.Some? ==> r.value.data == VehicleData(v.name, v.brand, v.model, v.color, v.plate)
    ensures r.Some? ==> (r.value.UpdateVehicle? <==> IsEdit(initial))
    ensures r.Some? && r.value.UpdateVehicle? ==> r.value.id == initial.value.id.value
  {
    match Parse(v)
    case Err(_) => None
    case Ok(data) => Some(OnSubmit(initial, data))
  }

  /** Where the page goes once the action settles: to the list after a
      save, nowhere when the action throws. */
  function AfterSave(saved: bool): (r: Option<string>)
    ensures r.Some? <==> saved
    ensures r.Some? ==> r.value == "/dashboard/vehiculos"
  {
    if saved then Some("/dashboard/vehiculos") else None
  }

  /** A blank new form cannot be submitted: every field is flagged. */
  lemma BlankFormIsRejected()
    ensures Issues(Defaults(None)) == {NameField, BrandField, ModelField, ColorField, PlateField}
    ensures HandleSubmit(None, Defaults(None)).None?
  {
  }

  /** Saving an unchanged stored vehicle, with all five fields filled,
      updates that same vehicle with the same data. */
  lemma UnchangedEditUpdatesSameVehicle(stored: VehicleFormValues)
    requires stored.name != "" && stored.brand != "" && stored.model != ""
    requires stored.color != "" && stored.plate != ""
    requires !Blank(stored.id)
    ensures HandleSubmit(Some(stored), Defaults(Some(stored))) ==
      Some(UpdateVehicle(stored.id.value, VehicleData(stored.name, stored.brand, stored.model, stored.color, stored.plate)))
  {
  }
}
