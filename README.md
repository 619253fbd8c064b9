# logistic-jit back-office logic in Dafny

A model of the business logic of the logistic-jit freight and debt back-office (a Next.js and Supabase application), with proofs about it. The model covers these areas:

- **Debt ledger.** What is still owed on a personal debt given its payments. Each payment's status badge. The payment history, newest first. The portfolio totals and the paid percentage.
- **Record forms.** The schemas, the submit checks and the payloads of the debt, payment, expense, shipment ("flete"), invoice ("factura") and vehicle forms.
- **Exchange-rate controls.** The auto-fill of the rate from published prices (BCV, parallel market, their average), shared by the payment and expense forms. Once the user types a rate, it is "custom" and is not overwritten.
- **Shipment server actions.** The row written for a shipment. The invoice rows stamped with their shipment. The replacement of a shipment's invoices on update. All of this runs over in-memory tables.
- **In-memory list managers.** The expense and invoice lists of a shipment page: prepend, append, replace-by-id and remove-by-id, with the column totals.
- **Expense charts.** Expenses grouped by date and by month, with per-group sums.
- **Paths and query strings:**
  - the breadcrumb trail derived from a pathname;
  - the query-string multimap (`URLSearchParams`) that the table filters rewrite;
  - the date filter's parameter encoding;
  - the expense listing's date-bound resolution, its filters and its page range.

## How the system is modelled

- Money is `real`.
- `toFixed(2)` followed by `parseFloat` is `Common.Round2`. Its contract says only that the result is within half a cent and is a whole number of cents.
- `Math.round` is `Common.JsRound`.
- `null`/`undefined` are `Option`. Backend outcomes are `Result` values passed in as parameters.
- A zod schema is a function returning the set of fields whose check fails. A form is accepted when that set is empty.
- Dates are kept as their ISO text or as millisecond time values. Wherever the source parses or formats a date in a locale or time zone, the model takes a function or an offset parameter instead.
- Component state updated through `useState` setters becomes a `class` whose fields the methods reassign. This covers the debt list and dashboard, the expense and invoice managers, the shipment form and the rate controls.
- The shipment actions' two tables are the `seq` fields of `FleteActions.Database`.
- The query string is `SearchParams.Params`, an ordered list of key/value pairs.
- The charts' JavaScript `Map` is modelled as its entries in insertion order.

Module per source file:

| module | source |
|---|---|
| Common | shared vocabulary: Option, Result, currency, rate type, `filter`, `find`, `sort`, `reduce` |
| Records | src/types/index.ts |
| DebtLedger | src/lib/utils.ts |
| DebtList | src/features/deudas/components/debt-list.tsx |
| DebtDashboard | src/features/deudas/components/debt-dashboard.tsx |
| DebtSummary | src/features/deudas/components/debt-summary.tsx |
| AddPaymentForm | src/features/deudas/components/add-payment-form.tsx |
| AddDebtForm | src/features/deudas/components/add-debt-form.tsx |
| RateSelection | the rate controls of the payment and expense forms |
| ExpenseForm | src/components/expense-form-dialog.tsx |
| FleteForm | src/features/fletes/flete-form.tsx |
| FleteActions | src/app/actions/flete.ts |
| ExpensesManager | src/features/fletes/expenses-manager.tsx |
| InvoicesManager | src/features/fletes/invoices-manager.tsx |
| Charts | src/features/gastos/components/barchart.tsx and areachart.tsx |
| Breadcrumbs | src/hooks/use-breadcrumbs.tsx |
| SearchParams | the `URLSearchParams` operations the filters use |
| DateFilter | src/components/ui/table/data-table-date-filter.tsx |
| Toolbar | src/components/ui/table/data-table-toolbar.tsx |
| GastosListing | src/features/gastos/gastos-listing.tsx |
| VehicleForm | src/features/vehicles/vehicle-form.tsx |

### Behaviour worth noting

- **"Pendiente" rule.** A debt is "Pendiente" when its balance is positive and at least its total, so a balance above the total also counts.
- **No rounding in the ledger.** The ledger converts bolivar payments at their own rate and does not round.
- **Payment checks stop early.** The payment form's checks stop at the first failing field and report only that one.
- **No clearing of driver/helper fields.** No code path clears the driver or helper payment fields of a shipment "En Transito", so the model has no such step.

## Model

| member | source | states |
|---|---|---|
| DebtLedger.RemainingBalance | src/lib/utils.ts:58-73 | The balance is never negative. It is either zero or the total less what the debt's own payments contributed. |
| DebtLedger.Contribution | src/lib/utils.ts:64-71 | A set `pago_divisa` is the contribution. Otherwise a bolivar amount with a present, non-zero rate contributes the amount that, multiplied back by that rate, gives the bolivar amount. Otherwise the payment contributes 0. Non-negative fields give a non-negative contribution. |
| DebtLedger.TotalPaid | src/lib/utils.ts:58-71 | A debt with no payments of its own has paid 0. Payments whose contributions are non-negative give a non-negative total. |
| DebtLedger.CalculateRemainingBalance | src/lib/utils.ts:54-74 | The filter and the accumulating loop compute exactly `RemainingBalance`. The loop invariant is the running sum of contributions over the processed prefix. |
| DebtLedger.PaymentEffect | src/lib/utils.ts:64-71 | One more payment of the debt adds exactly its `pago_divisa` when that is set, ignoring its bolivar fields. Otherwise it adds `pago_bolivares / tasa_cambio`, unrounded, when the rate is present and non-zero. Otherwise it adds nothing. |
| DebtLedger.ForeignPaymentIgnored | src/lib/utils.ts:58-60 | A payment of another debt, anywhere in the list, does not change the balance. |
| DebtLedger.NoPaymentsOwesTotal | src/lib/utils.ts:62-73 | With no payments of its own, a debt owes `max(0, total_divisa)`. |
| DebtLedger.OrderIndependent | src/lib/utils.ts:62-73 | Two payment lists with the same multiset of payments give the same balance. |
| DebtLedger.BalanceAtMostTotal | src/lib/utils.ts:62-73 | Take a non-negative total and payments whose contributions are non-negative. Then the balance lies between 0 and the total. |
| DebtLedger.PaymentNeverIncreasesBalance | src/lib/utils.ts:62-73 | Recording a payment with a non-negative contribution never raises any debt's balance. |
| DebtList.GetPaymentStatus | src/features/deudas/components/debt-list.tsx:67-77 | The three badges, each as an if-and-only-if. "Pagado": the balance is missing, zero or negative. "Parcial": 0 < balance < total. "Pendiente": the balance is positive and at least the total. So every debt gets exactly one badge. |
| DebtList.StatusOfComputedBalance | src/features/deudas/components/debt-list.tsx:67-77 | For a debt whose balance came from the ledger, the badge is decided by the amount paid: "Pagado" iff paid ≥ total; "Parcial" iff 0 < paid < total; "Pendiente" iff paid ≤ 0 and paid < total. |
| DebtList.GetDebtPayments | src/features/deudas/components/debt-list.tsx:57-65 | The history is a permutation of the debt's own payments, and holds exactly the payments with that `deuda_id`. Its payment times never increase along the list (newest first). |
| DebtList.HistoryMatchesLedger | src/features/deudas/components/debt-list.tsx:57-65 | The contributions of the payments in the history add up to what the ledger counts as paid. |
| DebtList.DebtListState.constructor | src/features/deudas/components/debt-list.tsx:38-39 | Nothing is expanded and no history dialog is open. |
| DebtList.DebtListState.ToggleExpand | src/features/deudas/components/debt-list.tsx:41-47 | Toggling the expanded id collapses it. Toggling any other id expands that id. The selected debt is untouched. |
| DebtList.DebtListState.ViewPaymentHistory | src/features/deudas/components/debt-list.tsx:49-51 | The selected debt becomes the given debt. The expanded row is untouched. |
| DebtList.DebtListState.CloseDialog | src/features/deudas/components/debt-list.tsx:53-55 | The selected debt becomes null. The expanded row is untouched. |
| DebtDashboard.WithBalances | src/features/deudas/components/debt-dashboard.tsx:46-49 | Count and order are kept. Each debt is unchanged except that it carries its ledger balance over the full payment list. |
| DebtDashboard.TotalDebt | src/features/deudas/components/debt-dashboard.tsx:127 | An empty list totals 0. Non-negative totals give a non-negative sum. |
| DebtDashboard.TotalRemaining | src/features/deudas/components/debt-dashboard.tsx:128-131 | An empty list, or one where no debt has a balance yet, sums to 0: a missing balance counts as 0. Non-negative balances give a non-negative sum. |
| DebtDashboard.PortfolioPaid | src/features/deudas/components/debt-dashboard.tsx:132 | `totalDebt - totalRemaining` is the sum, over the debts, of what was paid on each: its total less its balance. |
| DebtDashboard.TotalsBounded | src/features/deudas/components/debt-dashboard.tsx:127-132 | Suppose every balance lies in [0, total]. Then 0 ≤ `totalRemaining` ≤ `totalDebt`, and `totalPaid` ≥ 0. |
| DebtDashboard.LoadedBalancesInRange | src/features/deudas/components/debt-dashboard.tsx:46-49 | Suppose the loaded debts have non-negative totals and non-negative payments. Then every balance lies in [0, total]. |
| DebtDashboard.AddedDebtKeepsPaid | src/features/deudas/components/debt-dashboard.tsx:76-82 | A debt put in front with its total as balance raises `totalDebt` and `totalRemaining` by that total. It leaves `totalPaid` unchanged. |
| DebtDashboard.Dashboard.constructor | src/features/deudas/components/debt-dashboard.tsx:26-59 | The dashboard starts with no debts, no payments, no selection and the dialog closed. |
| DebtDashboard.Dashboard.FetchData | src/features/deudas/components/debt-dashboard.tsx:26-59 | When both queries succeed, the debts are stored with their balances and the payments as returned. When either query fails, nothing changes. |
| DebtDashboard.Dashboard.AddDebt | src/features/deudas/components/debt-dashboard.tsx:65-90 | The first inserted row goes in front, with its total as balance, and the other debts are unchanged. An error or an empty answer changes nothing. |
| DebtDashboard.Dashboard.OpenPaymentModal | src/features/deudas/components/debt-dashboard.tsx:113-116 | The payment dialog opens on the given debt. The lists and the selection are untouched. |
| DebtDashboard.Dashboard.SelectDebt | src/features/deudas/components/debt-dashboard.tsx:118-124 | The id is always recorded. The dialog opens on the first loaded debt with that id, and otherwise stays as it was. |
| DebtSummary.PercentPaid | src/features/deudas/components/debt-summary.tsx:20-21 | The percentage is 0 when `totalDebt` ≤ 0. Otherwise it is the nearest integer to paid/total·100. |
| DebtSummary.PercentPaidBounds | src/features/deudas/components/debt-summary.tsx:20-21 | When 0 ≤ paid ≤ total and total > 0, the percentage is between 0 and 100. |
| DebtSummary.PercentPaidEndpoints | src/features/deudas/components/debt-summary.tsx:20-21 | Nothing paid gives 0. Everything paid gives 100. |
| DebtSummary.DashboardPercentInRange | src/features/deudas/components/debt-dashboard.tsx:127-132 | On a dashboard whose balances are in range, the summary card shows 0 to 100. |
| AddPaymentForm.SchemaIssues | src/features/deudas/components/add-payment-form.tsx:48-67 | A debt must be chosen. A given amount or rate must be positive. Each condition is an if-and-only-if. |
| AddPaymentForm.OnSubmit | src/features/deudas/components/add-payment-form.tsx:198-245 | The checks run in order and only the first failure is reported. A divisa payment fails on `pago_divisa` iff that amount is null or 0. A bolivar payment fails on `pago_bolivares`, then `tasa_cambio`, then `tipo_tasa`. A bolivar payment is submitted iff all three are truthy. A submitted payment copies the debt, currency and date, turns an empty description into null, and never carries both amounts. A divisa payment nulls the bolivar fields. A bolivar payment nulls `pago_divisa`. |
| AddPaymentForm.HandleSubmit | src/features/deudas/components/add-payment-form.tsx:48-67 | Schema errors are reported first. The manual checks run only on values the schema accepted. |
| AddPaymentForm.DivisaRejectedIffMissing | src/features/deudas/components/add-payment-form.tsx:198-205 | After the schema, a divisa payment is rejected exactly when no amount was given. |
| AddPaymentForm.SubmittedPaymentReducesDebt | src/features/deudas/components/add-payment-form.tsx:233-245 | An accepted payment, once stored, counts towards its debt by a positive amount: the divisa amount, or bolivars over the rate. |
| AddPaymentForm.UnpaidDebts | src/features/deudas/components/add-payment-form.tsx:256 | The offered debts are exactly those with a positive balance (missing counts as 0), each with its original multiplicity. They appear in their original order. |
| AddPaymentForm.UnpaidMeansNotPaid | src/features/deudas/components/add-payment-form.tsx:256 | A debt is offered for payment exactly when its badge is not "Pagado". |
| AddPaymentForm.PaymentRateAsWritten | src/features/deudas/components/add-payment-form.tsx:151-157 | As written, only the BCV type finds a price. When it does, that price agrees with `RateSelection.RateFor`. |
| AddPaymentForm.ParaleloNotFilledAsWritten | src/features/deudas/components/add-payment-form.tsx:148-162 | Counterexample: choosing "Paralelo" with prices loaded leaves the rate empty as written. The shared auto-fill fills in the parallel price. |
| AddPaymentForm.AsWrittenAgreesOnlyOnBcvAndCustom | src/features/deudas/components/add-payment-form.tsx:151-157 | The as-written lookup and the intended one agree exactly on BCV and custom. |
| AddDebtForm.SchemaIssues | src/features/deudas/components/add-debt-form.tsx:38-49 | Rejects an empty name, an empty description, a total ≤ 0, and a rate that is present but ≤ 0. Each condition is an if-and-only-if. |
| AddDebtForm.OnSubmit | src/features/deudas/components/add-debt-form.tsx:76-90 | Copies name, description, currency, total and rate, with a missing rate as null. The due date is null iff none was chosen, and otherwise its ISO text. |
| AddDebtForm.NewDebtIsPending | src/features/deudas/components/add-debt-form.tsx:83-90 | An accepted new debt with no payments owes its whole total. With the dashboard's initial balance, its badge is "Pendiente". |
| RateSelection.AverageRate | src/components/expense-form-dialog.tsx:190-193 | The averaged price is within half a cent of the midpoint of the two prices. It is also within half a cent of the interval between them. |
| RateSelection.RateFor | src/components/expense-form-dialog.tsx:259-268 | BCV gives the BCV price. Paralelo gives the parallel price. Promedio gives the average when it is present. Custom gives nothing. |
| RateSelection.AutoFillEffect | src/components/expense-form-dialog.tsx:256-274 | The auto-fill writes only the rate. The rate changes only to the matching published price, and only with a type chosen, prices loaded and the rate not custom. Otherwise nothing changes. Running it twice is running it once. |
| RateSelection.AutoFillApplies | src/components/expense-form-dialog.tsx:259 | The auto-fill never runs with the custom type, with the custom flag set, or with no type chosen. |
| RateSelection.AutoFilled | src/components/expense-form-dialog.tsx:256-274 | Only the rate can change. When the conditions hold, the new rate is truthy (present and non-zero). Otherwise nothing changes. |
| RateSelection.RateEdited | src/components/expense-form-dialog.tsx:454-462 | The typed value becomes the rate. Afterwards the flag is set, or the type is custom or unset, so the auto-fill has nothing to write. With no type or the custom type, type and flag stay as they were. |
| RateSelection.TypeSelected | src/components/expense-form-dialog.tsx:479-484 | The picked type is stored, the rate kept and the flag cleared. For any prices with a truthy price for that type, the auto-fill then applies. |
| RateSelection.ManualRateSurvives | src/components/expense-form-dialog.tsx:454-462 | A typed rate is kept as typed. No later auto-fill overwrites it, whatever the prices. |
| RateSelection.SelectAfterEdit | src/features/deudas/components/add-payment-form.tsx:502-513 | Typing a rate while a published type is chosen switches to custom with the flag set. Picking a type afterwards clears the flag, and the auto-fill then writes that type's price. |
| RateSelection.FetchedRatesFillAllPublishedTypes | src/components/expense-form-dialog.tsx:185-207 | With positive fetched prices whose sum exceeds 0.01, every non-custom type auto-fills. A smaller sum makes the rounded average 0, which is falsy. |
| RateSelection.RateControl.constructor | src/components/expense-form-dialog.tsx:142-157 | The controls open with the given type and rate, and the custom flag cleared. |
| RateSelection.RateControl.AutoFill | src/components/expense-form-dialog.tsx:256-274 | The new controls are `AutoFilled` of the old ones. |
| RateSelection.RateControl.EditRate | src/features/deudas/components/add-payment-form.tsx:502-513 | The new controls are `RateEdited` of the old ones: the typed value, and custom when a published type was chosen. |
| RateSelection.RateControl.SelectType | src/features/deudas/components/add-payment-form.tsx:534-539 | The type is stored and the custom flag cleared. The rate is kept. |
| ExpenseForm.FieldIssues | src/components/expense-form-dialog.tsx:53-68 | A category and a date are required. Amounts must be ≥ 0 and a given rate > 0. Each condition is an if-and-only-if. |
| ExpenseForm.RefinementIssues | src/components/expense-form-dialog.tsx:70-101 | A USD expense needs `pago_divisa` > 0, reported on that field. A VES expense needs `pago_bolivares` > 0. A given bolivar amount needs both a rate and a rate type, reported on `tasa_cambio`. |
| ExpenseForm.SchemaIssues | src/components/expense-form-dialog.tsx:53-101 | Every field is reported on its own path, exactly when a field check or a refinement fails. |
| ExpenseForm.AcceptedExpense | src/components/expense-form-dialog.tsx:70-101 | An accepted expense has a positive amount in its own currency. Whenever it carries bolivars, it has a positive rate and a rate type. |
| ExpenseForm.DeriveDivisa | src/components/expense-form-dialog.tsx:228-239 | The VES effect changes only `pago_divisa`. It applies only with VES, a bolivar amount and a positive rate, and then sets bolivars/rate to within half a cent. |
| ExpenseForm.DeriveBolivares | src/components/expense-form-dialog.tsx:242-253 | The USD effect changes only `pago_bolivares`. It applies only with USD, a divisa amount and a positive rate, and then sets divisa·rate to within half a cent. |
| ExpenseForm.DerivedAmountsNonNegative | src/components/expense-form-dialog.tsx:228-253 | Amounts derived from non-negative inputs are non-negative, so they never trip the schema. |
| ExpenseForm.RoundTripBound | src/components/expense-form-dialog.tsx:236-250 | Bolivars go to divisa and back at the same rate, rounded to the cent both times. The result stays within rate/200 + 0.005 of the original. |
| ExpenseForm.DefaultValues | src/components/expense-form-dialog.tsx:146-174 | A new expense opens on today's date in USD. An edited one opens with its own fields, with a missing text as '' and a zero or missing amount or rate as undefined. |
| ExpenseForm.SaveRequestFor | src/components/expense-form-dialog.tsx:276-305 | An update (of the current expense, stamping `updated_at`) happens iff an expense is being edited. Otherwise it is an insert. Either way the row carries the given `flete_id`, or null. |
| FleteForm.FacturaIssues | src/features/fletes/flete-form.tsx:49-59 | The invoice number, client and load date are required, each as an if-and-only-if. The optional texts may be missing or null. These are the as-written issues without the null rejections (see Findings). |
| FleteForm.FacturaIssuesAsWritten | src/features/fletes/flete-form.tsx:49-59 | As written, the three required texts are checked as in `FacturaIssues`. Each optional text is rejected exactly when it is null, because `z.string().optional()` admits undefined but not null. |
| FleteForm.TextIssues | src/features/fletes/flete-form.tsx:63-70 | `fo_number`, `cliente_id` and `destination` must be non-empty. No other field is reported. |
| FleteForm.NumberIssues | src/features/fletes/flete-form.tsx:71-80 | Cost and amount must be ≥ 0. A given rate must be > 0. No other field is reported. |
| FleteForm.FieldIssues | src/features/fletes/flete-form.tsx:63-80 | The six field checks, each as an if-and-only-if. No payment-date or invoice issue is raised here. |
| FleteForm.FacturaListIssues | src/features/fletes/flete-form.tsx:82 | An invoice issue is reported at index i exactly when invoice i has it. |
| FleteForm.FacturaListIssuesAsWritten | src/features/fletes/flete-form.tsx:82 | An as-written invoice issue is reported at index i exactly when invoice i has it. |
| FleteForm.SchemaIssues | src/features/fletes/flete-form.tsx:61-103 | An issue is reported exactly when one of these fails: a field check, the paid date/amount refinement, the paid VES-rate refinement, or an invoice's check. Invoice texts may be null (see Findings). |
| FleteForm.SchemaIssuesAsWritten | src/features/fletes/flete-form.tsx:49-103 | The as-written schema reports the field checks and the as-written issues of each invoice. It reports the two paid-status refinements only when no invoice text is null: zod aborts the parse on a null, and `.refine` is then skipped. Without a null it agrees with `SchemaIssues` on every field other than the invoices. |
| FleteForm.AsWrittenDiffersOnlyOnNulls | src/features/fletes/flete-form.tsx:49-103 | The two schemas agree when no invoice text is null. Outside the invoices, the as-written schema reports nothing that `SchemaIssues` does not. Every form that `SchemaIssues` rejects is rejected by the as-written schema too. |
| FleteForm.PaidFieldsOk | src/features/fletes/flete-form.tsx:85-93 | Any status but "Pagado" passes. "Pagado" passes only with a non-empty payment date and a present amount, and an amount of 0 counts. |
| FleteForm.PaidCurrencyOk | src/features/fletes/flete-form.tsx:94-103 | Any status but "Pagado" passes, and so does USD. A paid shipment in another currency passes only with a rate. |
| FleteForm.NotPaidMeetsRefinements | src/features/fletes/flete-form.tsx:85-103 | Any status but "Pagado" satisfies both refinements, whatever the payment fields hold. |
| FleteForm.PaidRequirements | src/features/fletes/flete-form.tsx:75-103 | "Pagado" needs a non-empty payment date and a present amount, and 0 is allowed. In VES, a rate error is raised iff the rate is missing or ≤ 0. In USD, iff a given rate is ≤ 0. |
| FleteForm.InvoiceIssuesReported | src/features/fletes/flete-form.tsx:82 | An invoice in the list is reported exactly for its own missing fields. |
| FleteForm.ClearPaymentFields | src/features/fletes/flete-form.tsx:179-186 | Below "Pagado", the payment date, amount and rate become undefined and the currency USD. "Pagado" is left as it is. No other field is touched. |
| FleteForm.ClearIdempotent | src/features/fletes/flete-form.tsx:179-186 | Clearing twice is clearing once. Clearing does not change whether the refinements hold. |
| FleteForm.IsCDE | src/features/fletes/flete-form.tsx:153-155 | True iff the first client with the chosen id is named "CDE". |
| FleteForm.InvoicesShownUnlessCDE | src/features/fletes/flete-form.tsx:521-534 | With distinct client ids, the invoices section is shown exactly when the chosen client (if any) is not named "CDE". |
| FleteForm.DefaultValues | src/features/fletes/flete-form.tsx:126-140 | A new shipment opens empty, "En Transito", in USD, with no invoices. An edited one opens with its fields. With `\|\|`, an empty driver id becomes undefined. |
| FleteForm.FleteFormState.constructor | src/features/fletes/flete-form.tsx:117-141 | The form opens pristine on its default values. Submit is disabled exactly when editing a shipment with an id. |
| FleteForm.FleteFormState.IsEdit | src/features/fletes/flete-form.tsx:117 | The form edits exactly when the initial data's id is present and non-empty. |
| FleteForm.FleteFormState.SubmitDisabled | src/features/fletes/flete-form.tsx:504 | Submit is disabled only on a pristine form that edits a shipment. A changed form, and a new shipment, can always be submitted. |
| FleteForm.FleteFormState.OnChange | src/features/fletes/flete-form.tsx:171-176 | A user change makes the form not pristine, which enables submit. |
| FleteForm.FleteFormState.ApplyStatusEffect | src/features/fletes/flete-form.tsx:179-186 | The values become `ClearPaymentFields` of the old values. The pristine flag is untouched. |
| FleteForm.FleteFormState.SubmitCall | src/features/fletes/flete-form.tsx:188-199 | Nothing is called iff the schema reports an issue. Otherwise, when editing, the update of the edited id runs, and when not editing, the insert. |
| FleteForm.FleteFormState.AfterSubmit | src/features/fletes/flete-form.tsx:200-205 | Success marks the form pristine, so an edit's submit is disabled again. Failure leaves the flag as it was. |
| FleteActions.Payload | src/app/actions/flete.ts:14-25 | Every column is copied as given. `?? null` only turns undefined into null, so 0 and '' are kept. |
| FleteActions.PayloadIgnoresInvoices | src/app/actions/flete.ts:81-92 | The update payload is the insert payload. It does not depend on the invoice list. |
| FleteActions.ClearedPayloadHasNoPayment | src/app/actions/flete.ts:14-25 | A shipment not yet paid, once the status effect has run, is written with no payment date, amount or rate, and in USD. |
| FleteActions.InvoiceRowFor | src/app/actions/flete.ts:43-54 | The row carries the owning `flete_id`. With `\|\|`, the five optional texts are null when empty or missing and copied otherwise. With `??`, a weight of 0 is kept. |
| FleteActions.OrNullText | src/app/actions/flete.ts:47-53 | `x \|\| null` on an optional invoice text gives a value exactly when the text is present and non-empty, and then that text. |
| FleteActions.LoadedText | src/features/fletes/flete-view-page.tsx:16-22 | A stored null comes back as null, never as undefined. Writing a reloaded column back stores what was stored. |
| FleteActions.LoadedFactura | src/features/fletes/flete-view-page.tsx:16-22 | A stored invoice row comes back with its three required texts and its weight, and each optional text through `LoadedText`. |
| FleteActions.ReloadedInvoiceRejectedAsWritten | src/app/actions/flete.ts:43-54 | After a save and reload, the as-written schema rejects optional text k of the invoice exactly when that text was saved as null (missing or empty). |
| FleteActions.ReloadedInvoiceKeepsIssues | src/app/actions/flete.ts:43-54 | Under `FacturaIssues`, an invoice that is saved and reloaded has the same issues as before. |
| FleteActions.SecondEditRejectedAsWritten | src/features/fletes/flete-form.tsx:139 | Take a shipment whose one invoice leaves the optional texts undefined. Both schemas accept it. After it is saved and reloaded for edit, the as-written schema rejects the invoice's null observation, while `SchemaIssues` reports nothing. |
| FleteActions.InvoiceRows | src/app/actions/flete.ts:120-131 | One row per invoice, in order, each owned by the shipment. |
| FleteActions.ReplaceInvoices | src/app/actions/flete.ts:108-142 | Deleting the shipment's rows and inserting the list leaves exactly the list as its invoices. |
| FleteActions.OtherInvoicesKept | src/app/actions/flete.ts:108-142 | The same replacement leaves every other shipment's invoices as they were. |
| FleteActions.Database.constructor | src/app/actions/flete.ts:8-9 | The tables hold the given rows. |
| FleteActions.Database.AddFlete | src/app/actions/flete.ts:8-73 | A failed shipment insert writes nothing. Otherwise the shipment row is appended, and the invoice rows follow only when the list is non-empty. A failed invoice insert keeps the shipment, adds no invoices, and returns the error. |
| FleteActions.Database.UpdateFlete | src/app/actions/flete.ts:75-150 | An unknown id or a failed update changes nothing. Otherwise the shipment row is rewritten. Without an invoice list, that is all. With a list, the shipment's invoices become exactly the list. A failure after the delete leaves it with none. Other shipments' invoices never change. |
| FleteActions.Database.AddFactura | src/app/actions/flete.ts:169-188 | The invoice is stored with its `flete_id` overridden by the argument. A failure stores nothing. |
| ExpensesManager.Merged | src/features/fletes/expenses-manager.tsx:108-118 | An edit replaces in place the rows with the saved id, keeping length, ids and the other rows. An insert puts the saved row on top. |
| ExpensesManager.TotalDivisas | src/features/fletes/expenses-manager.tsx:121 | With every `pago_divisa` missing the total is 0. Non-negative amounts give a non-negative total. |
| ExpensesManager.TotalBolivares | src/features/fletes/expenses-manager.tsx:122-125 | With every `pago_bolivares` missing the total is 0. Non-negative amounts give a non-negative total. |
| ExpensesManager.InsertAddsToTotals | src/features/fletes/expenses-manager.tsx:114-125 | An insert adds its amounts to both totals. |
| ExpensesManager.EditAdjustsTotals | src/features/fletes/expenses-manager.tsx:109-125 | With unique ids, an edit swaps the row's old amounts for the new ones in both totals. |
| ExpensesManager.MergedKeepsIdsUnique | src/features/fletes/expenses-manager.tsx:108-118 | Saving keeps ids unique. For an insert this needs a new id. |
| ExpensesManager.DeleteSubtractsFromTotals | src/features/fletes/expenses-manager.tsx:101-125 | With unique ids, deleting a row takes its amounts off both totals. |
| ExpensesManager.ExpensesModel.constructor | src/features/fletes/expenses-manager.tsx:38-43 | The page starts with no rows and both dialogs closed. |
| ExpensesManager.ExpensesModel.Load | src/features/fletes/expenses-manager.tsx:46-74 | No shipment gives an empty list. A successful query gives its rows. A failed one keeps the list. The dialogs are untouched. |
| ExpensesManager.ExpensesModel.HandleEdit | src/features/fletes/expenses-manager.tsx:76-79 | The dialog opens on the expense. The list is untouched. |
| ExpensesManager.ExpensesModel.HandleAdd | src/features/fletes/expenses-manager.tsx:81-84 | The dialog opens on a blank expense. |
| ExpensesManager.ExpensesModel.HandleDelete | src/features/fletes/expenses-manager.tsx:86-89 | The confirmation opens for that id. |
| ExpensesManager.ExpensesModel.ConfirmDelete | src/features/fletes/expenses-manager.tsx:91-106 | With nothing pending, nothing happens. A successful delete removes exactly the rows with that id, keeping the rest in order. A failed one keeps the list. Either way the confirmation closes and the pending id is null. |
| ExpensesManager.ExpensesModel.HandleFormSubmitSuccess | src/features/fletes/expenses-manager.tsx:108-118 | The list becomes `Merged`, as an edit exactly when the dialog was opened on an expense. |
| ExpensesManager.ExpensesModel.DialogSaved | src/components/expense-form-dialog.tsx:276-317 | A saved row is merged and the dialog closes. A failure keeps the list and leaves the dialog open. |
| InvoicesManager.Issues | src/features/fletes/invoices-manager.tsx:56-75 | The invoice number, client and load date are required, and so is every guide number, reported at its index. Each condition is an if-and-only-if. |
| InvoicesManager.OrEmpty | src/features/fletes/invoices-manager.tsx:202-207 | A null text becomes ''. A present one is kept. |
| InvoicesManager.AddDefaults | src/features/fletes/invoices-manager.tsx:179-194 | A fresh dialog has today's date, the shipment's destination and driver (or '') and weight 0. All other texts are empty and there are no guides. |
| InvoicesManager.EditDefaults | src/features/fletes/invoices-manager.tsx:196-212 | Editing copies the invoice. A null text becomes '' and a null weight 0. The guides are kept in order, and a missing list becomes []. |
| InvoicesManager.AddDefaultsNeedInput | src/features/fletes/invoices-manager.tsx:179-194 | A fresh dialog always asks for the number and the client. It asks for nothing else when today's date is given. |
| InvoicesManager.EditOfStoredInvoiceIsAccepted | src/features/fletes/invoices-manager.tsx:196-212 | A stored invoice with its required fields passes the schema again when opened unchanged. |
| InvoicesManager.WithGuias | src/features/fletes/invoices-manager.tsx:259-264 | The kept row is the stored invoice with exactly the submitted guide numbers, in order. |
| InvoicesManager.DriverName | src/features/fletes/invoices-manager.tsx:296-299 | For a known id, "first last" of the first driver with that id. Otherwise '—'. |
| InvoicesManager.KnownDriverName | src/features/fletes/invoices-manager.tsx:296-299 | With unique driver ids, any loaded driver's id shows that driver's name. |
| InvoicesManager.InvoicesModel.constructor | src/features/fletes/invoices-manager.tsx:102-132 | The props are stored. The lists are empty, the dialogs are closed and the form is on its add defaults. |
| InvoicesManager.InvoicesModel.LoadDrivers | src/features/fletes/invoices-manager.tsx:145-154 | The drivers are replaced only when the query succeeded. |
| InvoicesManager.InvoicesModel.LoadFacturas | src/features/fletes/invoices-manager.tsx:157-177 | No shipment gives an empty list. A successful query gives its rows. A failed one keeps the list. |
| InvoicesManager.InvoicesModel.HandleAdd | src/features/fletes/invoices-manager.tsx:179-194 | The dialog opens on a new invoice with the add defaults. |
| InvoicesManager.InvoicesModel.HandleEdit | src/features/fletes/invoices-manager.tsx:196-212 | The dialog opens on the invoice with the edit defaults. |
| InvoicesManager.InvoicesModel.HandleDelete | src/features/fletes/invoices-manager.tsx:214-217 | The confirmation opens for that id. |
| InvoicesManager.InvoicesModel.ConfirmDelete | src/features/fletes/invoices-manager.tsx:219-230 | With nothing pending, nothing happens. A successful delete removes exactly that id. Either way the confirmation closes and the pending id is null. |
| InvoicesManager.InvoicesModel.OnSubmit | src/features/fletes/invoices-manager.tsx:232-294 | Without a shipment, or when saving fails, the list and the dialog are unchanged. An edit replaces in place the row with the stored id, with the submitted guides. A new invoice is appended with its guides. On success the dialog closes. |
| Charts.FirstKeys | src/features/gastos/components/barchart.tsx:51-55 | The keys occur each once, and are exactly the keys of the expenses. |
| Charts.KeyIndex | src/features/gastos/components/barchart.tsx:53-56 | `map.has`/`map.get`: the position of the key's entry, or none when no entry has that key. |
| Charts.Plus | src/features/gastos/components/barchart.tsx:56-58 | Adding an expense to a bucket adds its amounts, with a missing amount counting as 0. The key and the caption are kept. |
| Charts.AddToGroup | src/features/gastos/components/barchart.tsx:51-59 | One turn of the `forEach` keeps the grouping invariant. |
| Charts.GroupExpenses | src/features/gastos/components/areachart.tsx:47-59 | There is one bucket per distinct key, in first-appearance order. Each bucket holds its key's sums and the caption of its key's first expense. The buckets' totals are the expenses' totals. |
| Charts.BarChartData | src/features/gastos/components/barchart.tsx:46-72 | There is one entry per distinct date, captioned by that date, and the entries are sorted by ascending time. Each entry holds its date's sums. The chart totals equal the expenses' totals, which are zero for no expenses. |
| Charts.AreaChartData | src/features/gastos/components/areachart.tsx:42-60 | There is one entry per distinct month key, in first-appearance order. Each entry holds its month's sums and the label of that month's first expense. The totals are preserved. |
| Breadcrumbs.Split | src/hooks/use-breadcrumbs.tsx:34 | `split('/')` gives at least one piece, and no piece contains a slash. |
| Breadcrumbs.Segments | src/hooks/use-breadcrumbs.tsx:34 | `filter(Boolean)` keeps non-empty, slash-free segments. |
| Breadcrumbs.SplitAtSlash | src/hooks/use-breadcrumbs.tsx:34 | Splitting at a slash splits the two sides independently. |
| Breadcrumbs.SplitOfPiece | src/hooks/use-breadcrumbs.tsx:34 | A slash-free piece splits to itself. |
| Breadcrumbs.SplitJoin | src/hooks/use-breadcrumbs.tsx:34-37 | `split('/')` undoes `join('/')` on slash-free pieces. |
| Breadcrumbs.SplitOfPath | src/hooks/use-breadcrumbs.tsx:34 | A leading slash splits off one empty piece. |
| Breadcrumbs.SegmentsOfPath | src/hooks/use-breadcrumbs.tsx:34 | A path '/' + non-empty slash-free segments has exactly those segments. |
| Breadcrumbs.RootSegments | src/hooks/use-breadcrumbs.tsx:34 | '' and '/' have no segments. |
| Breadcrumbs.JoinSnoc | src/hooks/use-breadcrumbs.tsx:37 | Joining one more segment appends '/' and that segment. |
| Breadcrumbs.Capitalize | src/hooks/use-breadcrumbs.tsx:55 | The length is kept. The first character is upper-cased and the rest is unchanged. |
| Breadcrumbs.Truncate5 | src/hooks/use-breadcrumbs.tsx:50 | Up to five characters are kept as they are. Longer texts become their first five characters. |
| Breadcrumbs.Dynamic | src/hooks/use-breadcrumbs.tsx:36-57 | There is one crumb per segment, and crumb i has the title and link of segment i. |
| Breadcrumbs.BreadcrumbsFor | src/hooks/use-breadcrumbs.tsx:27-58 | A mapped path returns its fixed list. Any other path returns one crumb per segment. |
| Breadcrumbs.FixedTrails | src/hooks/use-breadcrumbs.tsx:12-22 | The three mapped paths give their fixed lists. |
| Breadcrumbs.RouteMapping | src/hooks/use-breadcrumbs.tsx:12-22 | Exactly the three listed paths have a fixed trail. Each trail starts at the dashboard crumb and ends with a crumb linking to the path itself. |
| Breadcrumbs.Title | src/hooks/use-breadcrumbs.tsx:39-56 | "new", in any letter case, becomes "Nuevo". Any other title is never longer than its segment. Under /dashboard/fletes/ the third title is the first five characters of the id, or the whole of a shorter id. Every other title has its segment's length. |
| Breadcrumbs.Link | src/hooks/use-breadcrumbs.tsx:37 | Every link starts with '/'. |
| Breadcrumbs.LinkSegments | src/hooks/use-breadcrumbs.tsx:34-37 | For non-empty, slash-free segments, a crumb's link splits back into the segments up to that crumb. |
| Breadcrumbs.RootHasNoCrumbs | src/hooks/use-breadcrumbs.tsx:34-36 | '' and '/' give no crumbs. |
| Breadcrumbs.DynamicTrail | src/hooks/use-breadcrumbs.tsx:36-57 | On unmapped paths there is one crumb per segment, and crumb i links to '/' + the first i+1 segments. "new" in any case is titled "Nuevo" first. Index 2 under /dashboard/fletes is truncated to five characters. Everything else is capitalised. |
| Breadcrumbs.LastCrumbIsThePage | src/hooks/use-breadcrumbs.tsx:37 | The last crumb links to the page itself. |
| Breadcrumbs.LinksExtendOneSegment | src/hooks/use-breadcrumbs.tsx:37 | Each link extends the previous one by one segment. |
| Breadcrumbs.DashboardTrailAgrees | src/hooks/use-breadcrumbs.tsx:13 | The fixed /dashboard trail is the one the segment rule would build. |
| Breadcrumbs.SectionTrailsAgree | src/hooks/use-breadcrumbs.tsx:14-21 | The two fixed section trails are the ones the segment rule would build. |
| Breadcrumbs.SectionTrailAgrees | src/hooks/use-breadcrumbs.tsx:14-21 | Any section under /dashboard whose name is not "new" (in any letter case) gets two crumbs: "Dashboard" linking to /dashboard, then its capitalised name linking to /dashboard/<section>. |
| SearchParams.Drop | src/components/ui/table/data-table-toolbar.tsx:93 | `delete`: the entries whose key is not dropped, with nothing else. |
| SearchParams.GetAll | src/components/ui/table/data-table-toolbar.tsx:93-102 | `getAll(k)`: exactly the values stored under k. |
| SearchParams.Get | src/components/ui/table/data-table-date-filter.tsx:74-76 | `get(k)`: null iff k has no value, and otherwise its first value. |
| SearchParams.DropAppend | src/components/ui/table/data-table-toolbar.tsx:93 | Deleting distributes over concatenation. |
| SearchParams.DropDrop | src/components/ui/table/data-table-toolbar.tsx:37 | Deleting two sets of keys in turn deletes their union. |
| SearchParams.DropAbsent | src/components/ui/table/data-table-toolbar.tsx:37 | Deleting absent keys changes nothing. |
| SearchParams.GetAllOfDrop | src/components/ui/table/data-table-toolbar.tsx:93 | Deleted keys have no values left. Every other key keeps its values. |
| SearchParams.GetAllAppend | src/components/ui/table/data-table-toolbar.tsx:99 | The values of a concatenation are the values of each part, in order. |
| SearchParams.SetValueLaw | src/components/ui/table/data-table-date-filter.tsx:99 | After `set(k, v)`, k holds exactly [v]. Every other entry is as it was, in order. |
| SearchParams.SetValue | src/components/ui/table/data-table-toolbar.tsx:101 | After `set(k, v)` the pair (k, v) is present and every entry under k holds v. The entries before the first one under k keep their places. An existing key is overwritten, not appended to, and the list grows by at most one entry. |
| SearchParams.AppendLaw | src/components/ui/table/data-table-toolbar.tsx:99 | After `append(k, v)`, v is k's last value and the other keys are untouched. |
| SearchParams.OtherKeyUnchanged | src/components/ui/table/data-table-toolbar.tsx:93-102 | An update confined to k leaves every other key's values unchanged. |
| SearchParams.Params.constructor | src/components/ui/table/data-table-toolbar.tsx:90 | `new URLSearchParams(...)` of the current entries. |
| SearchParams.Params.Delete | src/components/ui/table/data-table-toolbar.tsx:93 | The entries become `Drop` of the key. |
| SearchParams.Params.Set | src/components/ui/table/data-table-date-filter.tsx:99 | The entries become `SetValue`. |
| SearchParams.Params.Append | src/components/ui/table/data-table-toolbar.tsx:99 | The pair is added at the end. |
| Toolbar.KeptValues | src/components/ui/table/data-table-toolbar.tsx:97-98 | Exactly the items that are neither undefined nor ''. |
| Toolbar.Pairs | src/components/ui/table/data-table-toolbar.tsx:99 | The id paired with each value, in order. |
| Toolbar.GetAllOfPairs | src/components/ui/table/data-table-toolbar.tsx:99 | The appended pairs give the id exactly those values, and no other key any value. |
| Toolbar.DropPairs | src/components/ui/table/data-table-toolbar.tsx:99 | Deleting the id removes all the appended pairs. |
| Toolbar.SetValueAbsent | src/components/ui/table/data-table-toolbar.tsx:101 | `set` on a key that is not present appends it. |
| Toolbar.AppendAll | src/components/ui/table/data-table-toolbar.tsx:97-99 | The `forEach` appends one pair per kept value, in order. |
| Toolbar.UpdateSearchParam | src/components/ui/table/data-table-toolbar.tsx:88-110 | The new parameters are `UpdatedParams` of the old ones. |
| Toolbar.UpdatedParamsLaw | src/components/ui/table/data-table-toolbar.tsx:93-102 | An array update leaves the id holding its kept items in order. A scalar update leaves just the value when it is non-empty, and nothing otherwise. Every other key is untouched. |
| Toolbar.UpdatedParams | src/components/ui/table/data-table-toolbar.tsx:93-102 | No empty or undefined value is ever written under the column id. Every entry under another key was there before, and every such entry is kept. |
| Toolbar.UpdateIsIdempotent | src/components/ui/table/data-table-toolbar.tsx:93-102 | Applying the same update twice is applying it once. |
| Toolbar.OnReset | src/components/ui/table/data-table-toolbar.tsx:33-39 | The column filters are cleared, so the toolbar is no longer filtered. Each filterable column's parameter is deleted and other parameters are kept in order. |
| Toolbar.ResetLaw | src/components/ui/table/data-table-toolbar.tsx:37 | After a reset, a filterable column has no values and any other key keeps its own. |
| Toolbar.WidgetFor | src/components/ui/table/data-table-toolbar.tsx:130-195 | A missing or unknown variant renders nothing. 'text', 'number' and 'range' render, exactly, the text input, the number input and the slider. 'date'/'dateRange' render the date filter, with `multiple` iff 'dateRange'. 'select'/'multiSelect' render the faceted filter, with `multiple` iff 'multiSelect'. |
| Toolbar.TableState.constructor | src/components/ui/table/data-table-toolbar.tsx:26 | The table holds the given column filters. |
| DateFilter.ItemOf | src/components/ui/table/data-table-date-filter.tsx:39-44 | An array item is kept iff it is a string or a number. |
| DateFilter.ParseColumnFilterValue | src/components/ui/table/data-table-date-filter.tsx:33-52 | null or undefined gives []. A string or a number gives [v]. An array keeps its length, with its other items replaced by undefined. Anything else gives []. |
| DateFilter.ParsedArrayKeepsScalars | src/components/ui/table/data-table-date-filter.tsx:38-45 | In an array, string and number items are kept. Every other item becomes undefined. |
| DateFilter.Digits | src/components/ui/table/data-table-date-filter.tsx:127-132 | The decimal digits of a time value: at least one digit, and digits only. |
| DateFilter.DecimalString | src/components/ui/table/data-table-date-filter.tsx:127-132 | `toString()` of a time value is non-empty. |
| DateFilter.DigitsRoundTrip | src/components/ui/table/data-table-date-filter.tsx:127-132 | Reading back the digits of n gives n. |
| DateFilter.NumberOfDecimalString | src/components/ui/table/data-table-date-filter.tsx:28 | `Number()` of a time value's decimal text is that value. |
| DateFilter.NumberOf | src/components/ui/table/data-table-date-filter.tsx:27-28 | A number read from text is always an integer. It is negative only after a leading minus sign. A string of digits reads as a non-negative number. |
| DateFilter.DateOf | src/components/ui/table/data-table-date-filter.tsx:29-30 | A valid `new Date(n)` lies within the ±8.64e15 ms range. |
| DateFilter.ParseAsDate | src/components/ui/table/data-table-date-filter.tsx:25-31 | A missing, empty or zero timestamp gives undefined, and so does non-numeric text. A result lies within the valid range. |
| DateFilter.StoredDateReadsBack | src/components/ui/table/data-table-date-filter.tsx:25-31 | The decimal text this filter writes parses back to the same date. |
| DateFilter.SelectedDates | src/components/ui/table/data-table-date-filter.tsx:78-88 | Range mode reads both bounds. Single mode reads at most one date, present exactly when the parameter parses. |
| DateFilter.HasValueIff | src/components/ui/table/data-table-date-filter.tsx:153-160 | The clear button shows exactly when a range bound, or the single date, parses. |
| DateFilter.HasValue | src/components/ui/table/data-table-date-filter.tsx:153-160 | Only a selection of the column's own shape has a value: a range in range mode, a list of dates otherwise. |
| DateFilter.FormatDateRange | src/components/ui/table/data-table-date-filter.tsx:162-168 | No bounds give ''. Both give "from - to". One gives that one. |
| DateFilter.LabelShowsDateIffHasValue | src/components/ui/table/data-table-date-filter.tsx:170-216 | The label always renders. It shows date text exactly when the clear button shows. |
| DateFilter.Label | src/components/ui/table/data-table-date-filter.tsx:170-216 | A label renders exactly when the selection has the column's shape. It carries the title, and date text exactly when `hasValue` holds. In single mode that text is the first date, formatted. |
| DateFilter.BoundNamesDiffer | src/components/ui/table/data-table-date-filter.tsx:70-71 | `<col>_from` and `<col>_to` are different keys. |
| DateFilter.ApplyUpdateLaw | src/components/ui/table/data-table-date-filter.tsx:95-101 | A null update deletes its key, and a string sets it to exactly that value. Other keys are untouched. |
| DateFilter.ApplyUpdatesKeepOthers | src/components/ui/table/data-table-date-filter.tsx:95-101 | Keys that no update names are untouched, in order. |
| DateFilter.ApplyUpdatesValue | src/components/ui/table/data-table-date-filter.tsx:95-101 | With distinct keys, each key ends as its own update says. |
| DateFilter.UpdateSearchParams | src/components/ui/table/data-table-date-filter.tsx:90-108 | The `forEach` applies the updates in order. |
| DateFilter.SelectWritesOwnedKeys | src/components/ui/table/data-table-date-filter.tsx:110-150 | Range mode writes only `<col>_from`/`<col>_to`, and single mode only `<col>`, each key at most once. |
| DateFilter.SelectUpdates | src/components/ui/table/data-table-date-filter.tsx:110-136 | Nothing is written exactly when the calendar's value has the other mode's shape. Range mode writes two keys and single mode one. Clearing deletes every key it writes. A picked day is written as text that `Number()` reads back as that day. |
| DateFilter.ClearingMatchesReset | src/components/ui/table/data-table-date-filter.tsx:112-150 | Selecting nothing writes what reset writes. Afterwards each owned key is gone. |
| DateFilter.OnSelect | src/components/ui/table/data-table-date-filter.tsx:110-136 | A mismatched calendar value changes nothing. Otherwise the select updates are applied. |
| DateFilter.OnReset | src/components/ui/table/data-table-date-filter.tsx:138-150 | The mode's keys are deleted. |
| DateFilter.SelectKeepsOtherParams | src/components/ui/table/data-table-date-filter.tsx:110-136 | Whatever is picked, parameters the column does not own are kept in order. |
| DateFilter.PickedRangeReadsBack | src/components/ui/table/data-table-date-filter.tsx:126-129 | A picked range reads back as the same range. A missing end leaves no key for it. |
| DateFilter.PickedDayReadsBack | src/components/ui/table/data-table-date-filter.tsx:130-133 | A picked day reads back as that day. |
| GastosListing.TrimStart | src/features/gastos/gastos-listing.tsx:24 | The result is a suffix of the input that does not start with a blank. |
| GastosListing.DigitPrefix | src/features/gastos/gastos-listing.tsx:24 | The longest all-digit prefix. |
| GastosListing.ParseInt | src/features/gastos/gastos-listing.tsx:24-25 | `parseInt` gives a number only when the text contains a digit. |
| GastosListing.ParseIntOfDecimalString | src/features/gastos/gastos-listing.tsx:24-28 | `parseInt` reads back any time value the date filter writes. |
| GastosListing.Instant | src/features/gastos/gastos-listing.tsx:25 | `toISOString()` succeeds exactly on valid time values and keeps the instant. |
| GastosListing.EndOfDayLaw | src/features/gastos/gastos-listing.tsx:30-32 | `setHours(23, 59, 59, 999)` gives the last millisecond of the same local day, at or after the input. Applying it again changes nothing. |
| GastosListing.EndOfDay | src/features/gastos/gastos-listing.tsx:30-32 | An invalid date throws. A date at least a day inside the valid range always has an end of day. The end is a valid time value, at or after the input and less than a day after it, at the last millisecond of its local day. |
| GastosListing.Bounds | src/features/gastos/gastos-listing.tsx:20-46 | The start is the value from `expense_date_from` when it parses, and otherwise from the first `expense_date`. The end comes from `expense_date_to`, or otherwise the second `expense_date`, at end of day. Each is undefined exactly when no candidate parses. |
| GastosListing.StartInstant | src/features/gastos/gastos-listing.tsx:23-26 | A missing candidate leaves the start undefined. A present one converts, or throws when invalid. |
| GastosListing.EndInstant | src/features/gastos/gastos-listing.tsx:27-34 | A missing candidate leaves the end undefined. A present one becomes its end of day, or throws. |
| GastosListing.ArrayFallback | src/features/gastos/gastos-listing.tsx:35-46 | A bound left unset by the text parameters falls back to the array element. The conversion errors are exactly those of the fallbacks. |
| GastosListing.ResolveBounds | src/features/gastos/gastos-listing.tsx:20-46 | The four ifs compute exactly `Bounds`, including its errors. |
| GastosListing.AddFilters | src/features/gastos/gastos-listing.tsx:51-55 | The chained calls give exactly `ConstraintsFor`: an `in` only for a non-empty list, and `gte`/`lte` only for a defined bound. |
| GastosListing.ConstraintsFor | src/features/gastos/gastos-listing.tsx:51-55 | An `in` filter is sent only for a non-empty list, and only with that list. A `gte` is sent iff there is a start, and an `lte` iff there is an end. A query with no lists and no bounds sends no constraint. |
| GastosListing.QueryFor | src/features/gastos/gastos-listing.tsx:7-61 | The query fails exactly when a bound cannot be written as ISO. It asks for one page of `perPage` rows, by default the first ten. It has a lower bound iff a start candidate parses, and an upper bound iff an end candidate parses. |
| GastosListing.BuildQuery | src/features/gastos/gastos-listing.tsx:7-61 | The page builds exactly `QueryFor`: its bounds, filters and range, or the error of an invalid date. |
| GastosListing.ConstraintsSelect | src/features/gastos/gastos-listing.tsx:51-55 | A row satisfies the constraints iff it is in each non-empty list and on the right side of each defined bound. |
| GastosListing.QuerySelects | src/features/gastos/gastos-listing.tsx:49-55 | The rows the query selects are those in every non-empty list and within the resolved bounds. |
| GastosListing.AllHoldAppend | src/features/gastos/gastos-listing.tsx:51-55 | Chaining two groups of constraints requires both. |
| GastosListing.WrittenStartIsUsed | src/features/gastos/gastos-listing.tsx:23-26 | With `expense_date_from` read as the page intends (the key declared in the cache; see Findings), a start the date filter wrote there is the start bound. |
| GastosListing.FromCache | src/lib/searchparams.ts:9-32 | What `searchParamsCache.get` gives the page: page, perPage and category as parsed. `original_currency`, `tipo_tasa`, `expense_date_from`, `expense_date_to` and `expense_date` are not declared, so they are always missing. |
| GastosListing.CachedQueryIgnoresFilters | src/features/gastos/gastos-listing.tsx:8-61 | Through the cache as written, the query has only the category filter and the page range, whatever currency, rate-type or date parameters the URL carries. |
| GastosListing.WrittenStartLostAsWritten | src/features/gastos/gastos-listing.tsx:16-26 | A start the date filter wrote in `expense_date_from` is the start bound when that key is read. Through the cache as written, the start is missing and the query has no `gte`. |
| GastosListing.PagesTile | src/features/gastos/gastos-listing.tsx:59-60 | A page spans `perPage` rows, and the next page starts right after it. |
| GastosListing.RowOnOnePage | src/features/gastos/gastos-listing.tsx:59-60 | With positive sizes, row n lies on exactly page n / perPage + 1. |
| GastosListing.TableInput | src/features/gastos/gastos-listing.tsx:61-69 | A failed request throws. Missing data becomes [] and a missing count 0. Otherwise both are passed on. |
| VehicleForm.Issues | src/features/vehicles/vehicle-form.tsx:20-26 | Each of the five fields is reported exactly when it is empty. |
| VehicleForm.Parse | src/features/vehicles/vehicle-form.tsx:20-27 | The schema accepts exactly when nothing is reported, and passes the five fields on, without the id. |
| VehicleForm.Defaults | src/features/vehicles/vehicle-form.tsx:44-50 | The form opens on the initial data, or on five empty fields and no id. |
| VehicleForm.IsEdit | src/features/vehicles/vehicle-form.tsx:40 | The form edits only when the initial data carries a non-empty id, and never without initial data. |
| VehicleForm.OnSubmit | src/features/vehicles/vehicle-form.tsx:53-59 | The update of the initial id runs exactly when `isEdit` holds (a non-empty id). Otherwise the add runs. Either way the data is the submitted data. |
| VehicleForm.AfterSave | src/features/vehicles/vehicle-form.tsx:60 | After a save the page goes to the vehicle list. It goes nowhere when the action throws. |
| VehicleForm.BlankFormIsRejected | src/features/vehicles/vehicle-form.tsx:20-50 | A blank new form reports all five fields, and nothing is sent. |
| VehicleForm.HandleSubmit | src/features/vehicles/vehicle-form.tsx:53-68 | Something is sent exactly when nothing is reported. It carries the five typed fields. It is an update, of the initial id, exactly when editing. |
| VehicleForm.UnchangedEditUpdatesSameVehicle | src/features/vehicles/vehicle-form.tsx:40-59 | Saving an unchanged, complete stored vehicle updates that same vehicle with its own data. |
| Common.OrNull | src/app/actions/flete.ts:47-53 | `x \|\| null` on a text: null exactly when missing or empty, and the text otherwise. |
| Common.Round2 | src/components/expense-form-dialog.tsx:236 | `parseFloat(x.toFixed(2))` is within half a cent of x and a whole number of cents. |
| Common.JsRound | src/features/deudas/components/debt-summary.tsx:21 | `Math.round` is within half of x. |
| Common.Filter | src/lib/utils.ts:58-60 | `filter` keeps exactly the elements satisfying the predicate, with their multiplicities, in order. |
| Common.RemoveById | src/features/fletes/expenses-manager.tsx:101 | Removes exactly the elements with that id, keeping the rest in order. When no element has the id, it is the identity. |
| Common.ReplaceById | src/features/fletes/expenses-manager.tsx:111-113 | The length is kept. Each element with the new element's id is replaced, and the others are kept. |
| Common.Find | src/features/deudas/components/debt-dashboard.tsx:119 | `find` gives the first element satisfying the predicate, or none exactly when there is no such element. |
| Common.SortBy | src/features/gastos/components/barchart.tsx:60-62 | Sorting by a key gives the same elements (as a multiset), with the keys in ascending order. |

## Left out

- Backend and network I/O: the Supabase queries, inserts, updates and deletes, and the exchange-rate fetch from pydolarve.org. Their outcomes are parameters (`Result`, a failing step, or a flag), and tables are in-memory sequences.
- The guide-table writes in the invoice dialog's submit, src/features/fletes/invoices-manager.tsx:245-257 and 270-277. These are the delete and insert on `guias_despacho`, and their results are not checked. Only the list state the dialog keeps is modelled.
- `deleteFlete`, `updateFactura` and `deleteFactura` in src/app/actions/flete.ts: each is a single backend call with no logic of its own. The invoice dialog's update and delete are modelled through their outcomes.
- `addPayment` in src/features/deudas/components/debt-dashboard.tsx:92-111: an insert followed by a full reload, which is `FetchData`.
- The effects in src/features/deudas/components/add-payment-form.tsx:165-190 that keep `deuda_id` and the currency in step with the selected debt. These effects only copy props into the form.
- UI plumbing: rendering, dialogs, toasts, routing (`router.replace`, `refresh`, `push`, `history.replaceState`; the URL is the `SearchParams` entries), `setTimeout`, `isLoading` and `isSubmitting` flags, and the order in which React runs effects.
- `Common.SortBy`: it is one sorted permutation. The model does not claim that its tie order matches the engine's `Array.prototype.sort`.
- Locale, display and date handling:
  - `Intl.NumberFormat`, `toLocaleDateString`, date-fns `format` and `formatDate`;
  - `new Date(text)` parsing;
  - daylight-saving changes. `setHours` uses one fixed zone offset, passed as a parameter.

  Date keys, month labels and text-to-time conversions are function parameters.
- The area chart's sort by `Date.parse` of the localized month labels (src/features/gastos/components/areachart.tsx:61-63). `Charts.AreaChartData` keeps the map's first-appearance order.
- `toISOString` text: an instant stands for its ISO string, which orders the same way.
- Floating point: `real` arithmetic is exact, and NaN is not modelled. `Common.Round2` is stated as "within half a cent, whole cents". The rounding of exact ties and float drift are not proved.
- `formatBytes`, `formatExchangeRate` and the other formatters in src/lib/utils.ts.
- `Number(text)` only for an optional sign followed by decimal digits. Other syntaxes (fractions, exponents, hexadecimal, blanks) read as not-a-number in `DateFilter.ParseAsDate`. `parseInt` skips only ASCII blanks.
- Upper-casing in the breadcrumbs covers the ASCII letters only. `toUpperCase`/`toLowerCase` on other Unicode characters are not modelled.
- AddPaymentForm.SchemaIssues: accepts all four rate types. The source's `z.nativeEnum(TasaTipoEnum)` admits only BCV and custom (see Findings).
- ExpenseForm.SchemaIssues: does not model zod's skipping of refinements after a field's type check fails. Every check is reported on well-typed values. The type enums are `datatype`s, so a value outside them cannot arise.
- `category` is declared in src/lib/searchparams.ts:17 as a single string (`parseAsString`). `GastosListing.ListingParams` takes the categories as a list, and `GastosListing.FromCache` passes them on as given.
- The setting of the table library's own column filter (`column.setFilterValue`). Only the query string and `TableState`'s filter list are modelled.
- The server-side ordering of query results (`order(...)`). The lists are taken as returned.
- FleteActions.LoadedFactura: a stored null `weight_kg` reloads as a missing weight (`None`). In the source the form keeps it as null, and the invoice schema's `z.coerce.number()` turns that null into 0 (`Number(null)`), so the next save writes 0. The model writes null back instead.

## Findings

| source | as written | input that shows it | evidently intended | confidence | as-written member | corrected member |
|---|---|---|---|---|---|---|
| src/features/deudas/components/add-payment-form.tsx:151-157 with src/types/index.ts:147-150 | The rate auto-fill compares with `TasaTipoEnum.PARALELO` and `TasaTipoEnum.PROMEDIO`. The enum defines neither, so only the BCV type finds a price. | Choose the type "Paralelo" after the prices have loaded: the rate stays empty. | The same lookup as the expense form: Paralelo gives the parallel price and Promedio the average. | not executed | AddPaymentForm.PaymentRateAsWritten, AddPaymentForm.ParaleloNotFilledAsWritten | RateSelection.RateFor, RateSelection.AutoFillEffect |
| src/features/fletes/flete-form.tsx:53-58 with src/app/actions/flete.ts:47-53 | The invoice schema declares the optional texts `z.string().optional()`, which rejects null. The actions store an empty or missing text as null (`\|\| null`), and the edit page loads the stored rows back as the form's invoices (flete-form.tsx:139). | On an existing shipment, add an invoice in the invoice dialog and leave its observation empty; it is stored as `''`. Open the shipment for edit and save it: the update rewrites every invoice with `\|\| null`, so the observation is now stored as null. Open it for edit again and submit: the schema rejects `facturas[0].observation` because it is null. | The optional texts accept null as well (`.nullish()`), so an unchanged invoice can be saved again. | not executed | FleteForm.FacturaIssuesAsWritten, FleteForm.SchemaIssuesAsWritten, FleteActions.ReloadedInvoiceRejectedAsWritten, FleteActions.SecondEditRejectedAsWritten | FleteForm.FacturaIssues, FleteForm.SchemaIssues, FleteActions.ReloadedInvoiceKeepsIssues |
| src/features/gastos/gastos-listing.tsx:11-18 with src/lib/searchparams.ts:9-32 | The page reads `original_currency`, `tipo_tasa`, `expense_date_from`, `expense_date_to` and `expense_date` from `searchParamsCache`. The cache declares none of them, so each read is missing. | Open the expense listing with `?expense_date_from=1744689600000` (or `?original_currency=VES`): the query has no date bound (no currency filter) and lists every expense. | The cache declares these keys, as string lists and strings, so the filters reach the query. | not executed | GastosListing.FromCache, GastosListing.CachedQueryIgnoresFilters, GastosListing.WrittenStartLostAsWritten | GastosListing.WrittenStartIsUsed, GastosListing.QuerySelects |
