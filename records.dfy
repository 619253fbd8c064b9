/** The persisted records shared by the debt and expense screens
    (`src/types/index.ts`). Timestamps and dates are kept as their ISO text. */
module Records {
  import opened Common

  /** `Debt`; `remainingBalance` is the computed, optional field. */
  datatype Debt = Debt(
    id: string,
    persona_name: string,
    description: string,
    original_currency: Currency,
    total_divisa: real,
    tasa_cambio: Option<real>,
    due_date: Option<string>,
    created_at: string,
    updated_at: string,
    remainingBalance: Option<real>)

  /** `Payment`: one payment towards the debt `deuda_id`. */
  datatype Payment = Payment(
    id: string,
    deuda_id: string,
    description: Option<string>,
    payment_date: string,
    original_currency: Currency,
    tasa_cambio: Option<real>,
    pago_divisa: Option<real>,
    pago_bolivares: Option<real>,
    tipo_tasa: Option<RateType>,
    created_at: string,
    updated_at: string)

  /** `Gasto`: an expense row, as the charts and the listing read it. */
  datatype Gasto = Gasto(
    id: string,
    flete_id: Option<string>,
    category: string,
    description: Option<string>,
    expense_date: string,
    created_at: string,
    updated_at: string,
    tasa_cambio: Option<real>,
    pago_divisa: Option<real>,
    pago_bolivares: Option<real>,
    tipo_tasa: Option<string>,
    original_currency: string)

  /** `Vehicle`. */
  datatype Vehicle = Vehicle(id: string, name: string, brand: string, model: string, color: string, plate: string)

  /** `Driver`. */
  datatype Driver = Driver(
    id: string,
    cedula: string,
    first_name: string,
    last_name: string,
    vehicle_id: Option<string>,
    created_at: string,
    updated_at: string)

  /** `Cliente`. */
  datatype Cliente = Cliente(id: string, nombre: string, created_at: string, updated_at: string)
}
