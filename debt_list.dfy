/** The debt list (`src/features/deudas/components/debt-list.tsx`): the
    per-debt payment history, the status badge and the list's own UI state. */
module DebtList {
  import opened Common
  import opened Records
  import opened DebtLedger

  /** The three badges a debt row can show. */
  datatype PaymentStatus = Pagado | Parcial | Pendiente

  /** `getPaymentStatus`: paid when the balance is missing, zero or negative;
      partial when it is positive and below the total; pending otherwise,
      that is when it is positive and at least the total. */
  function GetPaymentStatus(debt: Debt): (s: PaymentStatus)
    ensures s == Pagado <==> debt.remainingBalance.None? || debt.remainingBalance.value <= 0.0
    ensures s == Parcial <==>
      debt.remainingBalance.Some? && 0.0 < debt.remainingBalance.value < debt.total_divisa
    ensures s == Pendiente <==>
      debt.remainingBalance.Some? && 0.0 < debt.remainingBalance.value && debt.remainingBalance.value >= debt.total_divisa
  {
    if debt.remainingBalance.None? || debt.remainingBalance.value == 0.0 || debt.remainingBalance.value <= 0.0 then Pagado
    else if debt.remainingBalance.value < debt.total_divisa then Parcial
    else Pendiente
  }

  /** For a debt whose balance was computed by the ledger, the badge depends
      only on how much was paid: paid in full, something but not all, or
      nothing (or a net negative amount) against a positive balance. */
  lemma StatusOfComputedBalance(debt: Debt, payments: seq<Payment>)
    ensures var d := debt.(remainingBalance := Some(RemainingBalance(debt, payments)));
            var paid := TotalPaid(debt, payments);
            && (GetPaymentStatus(d) == Pagado <==> paid >= debt.total_divisa)
            && (GetPaymentStatus(d) == Parcial <==> 0.0 < paid < debt.total_divisa)
            && (GetPaymentStatus(d) == Pendiente <==> paid <= 0.0 && paid < debt.total_divisa)
  {
  }

  /** The sort key of `getDebtPayments`: later payments first. */
  function Newest(timeOf: string -> int): Payment -> int
  {
    (p: Payment) => -timeOf(p.payment_date)
  }

  /** `getDebtPayments`: the debt's payments, newest first. `timeOf` stands
      for `new Date(payment_date).getTime()`. */
  function GetDebtPayments(payments: seq<Payment>, debtId: string, timeOf: string -> int): (r: seq<Payment>)
    ensures multiset(r) == multiset(Filter(payments, PaymentOf(debtId)))
    ensures forall p :: p in r <==> p in payments && p.deuda_id == debtId
    ensures forall i, j :: 0 <= i < j < |r| ==> timeOf(r[i].payment_date) >= timeOf(r[j].payment_date)
  {
    var own := Filter(payments, PaymentOf(debtId));
    var r := SortBy(own, Newest(timeOf));
    SameMembers(r, own);
    r
  }

  /** The history shown for a debt holds every payment the ledger counts for it. */
  lemma HistoryMatchesLedger(debt: Debt, payments: seq<Payment>, timeOf: string -> int)
    ensures TotalPaid(debt, payments) == SumOf(GetDebtPayments(payments, debt.id, timeOf), Contribution)
  {
    SumOfPermutation(DebtPayments(debt, payments), GetDebtPayments(payments, debt.id, timeOf), Contribution);
  }

  /** The list's own state: which row is expanded and whose history dialog is open. */
  class DebtListState {
    var expandedDebtId: Option<string>
    var selectedDebt: Option<Debt>

    constructor()
      ensures expandedDebtId == None && selectedDebt == None
    {
      expandedDebtId := None;
      selectedDebt := None;
    }

    /** `toggleExpand`: collapses the row if it is the expanded one, expands it otherwise. */
    method ToggleExpand(debtId: string)
      modifies this
      ensures old(expandedDebtId) == Some(debtId) ==> expandedDebtId == None
      ensures old(expandedDebtId) != Some(debtId) ==> expandedDebtId == Some(debtId)
      ensures selectedDebt == old(selectedDebt)
    {
      if expandedDebtId == Some(debtId) {
        expandedDebtId := None;
      } else {
        expandedDebtId := Some(debtId);
      }
    }

    /** `viewPaymentHistory`: opens the history dialog on `debt`. */
    method ViewPaymentHistory(debt: Debt)
      modifies this
      ensures selectedDebt == Some(debt)
      ensures expandedDebtId == old(expandedDebtId)
    {
      selectedDebt := Some(debt);
    }

    /** `closeDialog`. */
    method CloseDialog()
      modifies this
      ensures selectedDebt == None
      ensures expandedDebtId == old(expandedDebtId)
    {
      selectedDebt := None;
    }
  }
}
