/** The debt dashboard (`src/features/deudas/components/debt-dashboard.tsx`):
    the loaded debts with their balances, the portfolio totals and the
    payment dialog. */
module DebtDashboard {
  import opened Common
  import opened Records
  import opened DebtLedger

  /** The map in `fetchData`: every debt with its balance over the full payment list. */
  function WithBalances(debts: seq<Debt>, payments: seq<Payment>): (r: seq<Debt>)
    ensures |r| == |debts|
    ensures forall i :: 0 <= i < |r| ==>
      r[i] == debts[i].(remainingBalance := Some(RemainingBalance(debts[i], payments)))
  {
    seq(|debts|, i requires 0 <= i < |debts| => debts[i].(remainingBalance := Some(RemainingBalance(debts[i], payments))))
  }

  function TotalOf(d: Debt): real
  {
    d.total_divisa
  }

  /** A debt's balance, a missing (or zero) one counting as 0. */
  function BalanceOf(d: Debt): real
  {
    OrZero(d.remainingBalance)
  }

  /** What was paid on one debt: its total less its balance. */
  function PaidPart(d: Debt): real
  {
    d.total_divisa - OrZero(d.remainingBalance)
  }

  /** `totalDebt`: the sum of the debts' totals. */
  function TotalDebt(debts: seq<Debt>): (r: real)
    ensures debts == [] ==> r == 0.0
    ensures (forall i :: 0 <= i < |debts| ==> debts[i].total_divisa >= 0.0) ==> r >= 0.0
  {
    var r := SumOf(debts, TotalOf);
    assert (forall i :: 0 <= i < |debts| ==> debts[i].total_divisa >= 0.0) ==> r >= 0.0 by {
      if forall i :: 0 <= i < |debts| ==> debts[i].total_divisa >= 0.0 {
        SumOfNonNegative(debts, TotalOf);
      }
    }
    r
  }

  /** `totalRemaining`: the sum of the balances. */
  function TotalRemaining(debts: seq<Debt>): (r: real)
    ensures debts == [] ==> r == 0.0
    ensures (forall i :: 0 <= i < |debts| ==> OrZero(debts[i].remainingBalance) >= 0.0) ==> r >= 0.0
    ensures (forall i :: 0 <= i < |debts| ==> debts[i].remainingBalance.None?) ==> r == 0.0
  {
    var r := SumOf(debts, BalanceOf);
    assert (forall i :: 0 <= i < |debts| ==> OrZero(debts[i].remainingBalance) >= 0.0) ==> r >= 0.0 by {
      if forall i :: 0 <= i < |debts| ==> OrZero(debts[i].remainingBalance) >= 0.0 {
        SumOfNonNegative(debts, BalanceOf);
      }
    }
    assert (forall i :: 0 <= i < |debts| ==> debts[i].remainingBalance.None?) ==> r == 0.0 by {
      if forall i :: 0 <= i < |debts| ==> debts[i].remainingBalance.None? {
        SumOfZero(debts, BalanceOf);
      }
    }
    r
  }

  /** `totalPaid`, the difference of the two: the sum over the debts of what
      was paid on each. */
  function PortfolioPaid(debts: seq<Debt>): (r: real)
    ensures r == SumOf(debts, PaidPart)
  {
    SumOfDifference(debts, TotalOf, BalanceOf, PaidPart);
    TotalDebt(debts) - TotalRemaining(debts)
  }

  /** Every debt carries a balance between zero and its total. */
  ghost predicate BalancesInRange(debts: seq<Debt>)
  {
    forall i :: 0 <= i < |debts| ==>
      var b := OrZero(debts[i].remainingBalance);
      0.0 <= b <= debts[i].total_divisa
  }

  /** With every balance in range, what remains lies between zero and the
      total debt, and what was paid is non-negative. */
  lemma TotalsBounded(debts: seq<Debt>)
    requires BalancesInRange(debts)
    ensures 0.0 <= TotalRemaining(debts) <= TotalDebt(debts)
    ensures PortfolioPaid(debts) >= 0.0
  {
    SumOfNonNegative(debts, BalanceOf);
    SumOfMonotone(debts, BalanceOf, TotalOf);
  }

  /** Debts loaded from non-negative totals and non-negative payments have
      their balances in range, so the totals are bounded as above. */
  lemma LoadedBalancesInRange(debts: seq<Debt>, payments: seq<Payment>)
    requires forall i :: 0 <= i < |debts| ==> debts[i].total_divisa >= 0.0 && NonNegativePayments(debts[i], payments)
    ensures BalancesInRange(WithBalances(debts, payments))
  {
    var loaded := WithBalances(debts, payments);
    forall i | 0 <= i < |loaded| ensures 0.0 <= OrZero(loaded[i].remainingBalance) <= loaded[i].total_divisa {
      BalanceAtMostTotal(debts[i], payments);
    }
  }

  /** Placing a freshly added debt, whose balance is its total, in front of
      the list raises the total debt and the remainder by that total and
      leaves the amount paid unchanged. */
  lemma AddedDebtKeepsPaid(d: Debt, debts: seq<Debt>)
    requires d.remainingBalance == Some(d.total_divisa)
    ensures TotalDebt([d] + debts) == TotalDebt(debts) + d.total_divisa
    ensures TotalRemaining([d] + debts) == TotalRemaining(debts) + d.total_divisa
    ensures PortfolioPaid([d] + debts) == PortfolioPaid(debts)
  {
    assert ([d] + debts)[1..] == debts;
  }

  /** The dashboard's state: the loaded debts and payments and the payment dialog. */
  class Dashboard {
    var debts: seq<Debt>
    var payments: seq<Payment>
    var selectedDebtId: Option<string>
    var isPaymentModalOpen: bool
    var paymentDebt: Option<Debt>

    constructor()
      ensures debts == [] && payments == []
      ensures selectedDebtId == None && !isPaymentModalOpen && paymentDebt == None
    {
      debts := [];
      payments := [];
      selectedDebtId := None;
      isPaymentModalOpen := false;
      paymentDebt := None;
    }

    /** `fetchData`, given what the two queries return: when both succeed the
        debts are stored with their balances and the payments as returned;
        when either fails nothing changes. */
    method FetchData(debtsResult: Result<seq<Debt>>, paymentsResult: Result<seq<Payment>>)
      modifies this
      ensures debtsResult.Ok? && paymentsResult.Ok? ==>
        debts == WithBalances(debtsResult.data, paymentsResult.data) && payments == paymentsResult.data
      ensures !(debtsResult.Ok? && paymentsResult.Ok?) ==> debts == old(debts) && payments == old(payments)
      ensures selectedDebtId == old(selectedDebtId) && isPaymentModalOpen == old(isPaymentModalOpen)
      ensures paymentDebt == old(paymentDebt)
    {
      if debtsResult.Err? {
        return;
      }
      if paymentsResult.Err? {
        return;
      }
      debts := WithBalances(debtsResult.data, paymentsResult.data);
      payments := paymentsResult.data;
    }

    /** `addDebt`, given what the insert returns: the first returned row goes
        to the front with its total as balance; an error or an empty answer
        changes nothing. */
    method AddDebt(inserted: Result<seq<Debt>>)
      modifies this
      ensures inserted.Ok? && |inserted.data| > 0 ==>
        debts == [inserted.data[0].(remainingBalance := Some(inserted.data[0].total_divisa))] + old(debts)
      ensures !(inserted.Ok? && |inserted.data| > 0) ==> debts == old(debts)
      ensures payments == old(payments) && selectedDebtId == old(selectedDebtId)
      ensures isPaymentModalOpen == old(isPaymentModalOpen) && paymentDebt == old(paymentDebt)
    {
      if inserted.Ok? && |inserted.data| > 0 {
        var added := inserted.data[0].(remainingBalance := Some(inserted.data[0].total_divisa));
        debts := [added] + debts;
      }
    }

    /** `openPaymentModal`. */
    method OpenPaymentModal(debt: Debt)
      modifies this
      ensures paymentDebt == Some(debt) && isPaymentModalOpen
      ensures debts == old(debts) && payments == old(payments) && selectedDebtId == old(selectedDebtId)
    {
      paymentDebt := Some(debt);
      isPaymentModalOpen := true;
    }

    /** `selectDebt`: records the id in every case, and opens the payment
        dialog on the first loaded debt with that id, if there is one. */
    method SelectDebt(debtId: string)
      modifies this
      ensures selectedDebtId == Some(debtId)
      ensures var found := Find(old(debts), (d: Debt) => d.id == debtId);
        if found.Some? then paymentDebt == found && isPaymentModalOpen
        else paymentDebt == old(paymentDebt) && isPaymentModalOpen == old(isPaymentModalOpen)
      ensures debts == old(debts) && payments == old(payments)
    {
      var debt := Find(debts, (d: Debt) => d.id == debtId);
      if debt.Some? {
        OpenPaymentModal(debt.value);
      }
      selectedDebtId := Some(debtId);
    }
  }
}
