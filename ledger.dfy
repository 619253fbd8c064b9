/** The debt ledger (`calculateRemainingBalance` in `src/lib/utils.ts`):
    what is still owed on a debt given every recorded payment. */
module DebtLedger {
  import opened Common
  import opened Records

  /** The filter `payment.deuda_id === debtId`. */
  function PaymentOf(debtId: string): Payment -> bool
  {
    (p: Payment) => p.deuda_id == debtId
  }

  /** What one payment adds to the amount paid, in the debt's currency: the
      foreign-currency amount when present, otherwise the bolivar amount
      converted at the payment's rate when that rate is present and non-zero
      (a missing or zero rate is falsy), otherwise nothing. No rounding. */
  function Contribution(p: Payment): (r: real)
    ensures p.pago_divisa.Some? ==> r == p.pago_divisa.value
    // converted back at the payment's rate, the bolivar-only contribution gives the bolivar amount
    ensures p.pago_divisa.None? && p.pago_bolivares.Some? && p.tasa_cambio.Some? && p.tasa_cambio.value != 0.0 ==>
      r * p.tasa_cambio.value == p.pago_bolivares.value
    ensures p.pago_divisa.None? && !(p.pago_bolivares.Some? && p.tasa_cambio.Some? && p.tasa_cambio.value != 0.0) ==>
      r == 0.0
    ensures OrZero(p.pago_divisa) >= 0.0 && OrZero(p.pago_bolivares) >= 0.0 && OrZero(p.tasa_cambio) >= 0.0 ==> r >= 0.0
  {
    if p.pago_divisa.Some? then p.pago_divisa.value
    else if p.pago_bolivares.Some? && p.tasa_cambio.Some? && p.tasa_cambio.value != 0.0 then
      p.pago_bolivares.value / p.tasa_cambio.value
    else 0.0
  }

  /** The payments recorded against `debt`, in their original order. */
  function DebtPayments(debt: Debt, payments: seq<Payment>): seq<Payment>
  {
    Filter(payments, PaymentOf(debt.id))
  }

  /** The sum of the contributions of the debt's own payments. */
  function TotalPaid(debt: Debt, payments: seq<Payment>): (r: real)
    ensures (forall i :: 0 <= i < |payments| ==> payments[i].deuda_id != debt.id) ==> r == 0.0
    ensures (forall i :: 0 <= i < |payments| ==> Contribution(payments[i]) >= 0.0) ==> r >= 0.0
  {
    var own := DebtPayments(debt, payments);
    var r := SumOf(own, Contribution);
    assert (forall i :: 0 <= i < |payments| ==> payments[i].deuda_id != debt.id) ==> r == 0.0 by {
      if forall i :: 0 <= i < |payments| ==> payments[i].deuda_id != debt.id {
        assert forall p :: p in own ==> p in payments && PaymentOf(debt.id)(p);
        assert own == [];
      }
    }
    assert (forall i :: 0 <= i < |payments| ==> Contribution(payments[i]) >= 0.0) ==> r >= 0.0 by {
      if forall i :: 0 <= i < |payments| ==> Contribution(payments[i]) >= 0.0 {
        assert forall p :: p in own ==> p in payments;
        SumOfNonNegative(own, Contribution);
      }
    }
    r
  }

  /** The balance still owed: the total less what was paid, floored at zero. */
  function RemainingBalance(debt: Debt, payments: seq<Payment>): (r: real)
    ensures r >= 0.0 && r >= debt.total_divisa - TotalPaid(debt, payments)
    ensures r == 0.0 || r == debt.total_divisa - TotalPaid(debt, payments)
  {
    var rest := debt.total_divisa - TotalPaid(debt, payments);
    if rest > 0.0 then rest else 0.0
  }

  /** `calculateRemainingBalance`: filters the debt's payments, accumulates
      their contributions in a loop and floors the difference at zero. */
  method CalculateRemainingBalance(debt: Debt, payments: seq<Payment>) returns (balance: real)
    ensures balance == RemainingBalance(debt, payments)
  {
    var debtPayments := Filter(payments, PaymentOf(debt.id));
    var totalPaid := 0.0;
    for i := 0 to |debtPayments|
      invariant totalPaid == SumOf(debtPayments[..i], Contribution)
    {
      var payment := debtPayments[i];
      SumOfAppend(debtPayments[..i], [payment], Contribution);
      SumOfSingleton(payment, Contribution);
      assert debtPayments[..i + 1] == debtPayments[..i] + [payment];
      if payment.pago_divisa.Some? {
        totalPaid := totalPaid + payment.pago_divisa.value;
      } else if payment.pago_bolivares.Some? && payment.tasa_cambio.Some? && payment.tasa_cambio.value != 0.0 {
        totalPaid := totalPaid + payment.pago_bolivares.value / payment.tasa_cambio.value;
      }
    }
    assert debtPayments[..|debtPayments|] == debtPayments;
    balance := if debt.total_divisa - totalPaid > 0.0 then debt.total_divisa - totalPaid else 0.0;
  }

  // ---------------------------------------------------------------- properties

  /** Recording one more payment against the debt adds exactly its
      contribution: the foreign amount, or the bolivar amount over a non-zero
      rate, or nothing when neither applies. */
  lemma PaymentEffect(debt: Debt, payments: seq<Payment>, p: Payment)
    requires p.deuda_id == debt.id
    ensures p.pago_divisa.Some? ==>
      TotalPaid(debt, payments + [p]) == TotalPaid(debt, payments) + p.pago_divisa.value
    ensures p.pago_divisa.None? && p.pago_bolivares.Some? && p.tasa_cambio.Some? && p.tasa_cambio.value != 0.0 ==>
      TotalPaid(debt, payments + [p]) == TotalPaid(debt, payments) + p.pago_bolivares.value / p.tasa_cambio.value
    ensures p.pago_divisa.None? && (p.pago_bolivares.None? || p.tasa_cambio.None? || p.tasa_cambio.value == 0.0) ==>
      TotalPaid(debt, payments + [p]) == TotalPaid(debt, payments)
  {
    FilterAppend(payments, [p], PaymentOf(debt.id));
    FilterSingleton(p, PaymentOf(debt.id));
    SumOfAppend(DebtPayments(debt, payments), [p], Contribution);
    SumOfSingleton(p, Contribution);
  }

  /** A payment recorded against another debt, wherever it sits in the list,
      does not change this debt's balance. */
  lemma ForeignPaymentIgnored(debt: Debt, before: seq<Payment>, p: Payment, after: seq<Payment>)
    requires p.deuda_id != debt.id
    ensures RemainingBalance(debt, before + [p] + after) == RemainingBalance(debt, before + after)
  {
    var own := PaymentOf(debt.id);
    FilterAppend(before + [p], after, own);
    FilterAppend(before, [p], own);
    FilterSingleton(p, own);
    FilterAppend(before, after, own);
    assert Filter(before + [p], own) == Filter(before, own);
  }

  /** A debt with no payments of its own owes its whole (non-negative) total. */
  lemma NoPaymentsOwesTotal(debt: Debt, payments: seq<Payment>)
    requires forall i :: 0 <= i < |payments| ==> payments[i].deuda_id != debt.id
    ensures RemainingBalance(debt, payments) == if debt.total_divisa > 0.0 then debt.total_divisa else 0.0
  {
    assert DebtPayments(debt, payments) == [];
  }

  /** The balance does not depend on the order in which payments are listed. */
  lemma OrderIndependent(debt: Debt, payments: seq<Payment>, reordered: seq<Payment>)
    requires multiset(payments) == multiset(reordered)
    ensures RemainingBalance(debt, payments) == RemainingBalance(debt, reordered)
  {
    var a := DebtPayments(debt, payments);
    var b := DebtPayments(debt, reordered);
    assert forall x :: multiset(a)[x] == multiset(b)[x];
    assert multiset(a) == multiset(b);
    SumOfPermutation(a, b, Contribution);
  }

  /** The debt's payments each contribute a non-negative amount. */
  ghost predicate NonNegativePayments(debt: Debt, payments: seq<Payment>)
  {
    forall i :: 0 <= i < |payments| && payments[i].deuda_id == debt.id ==> Contribution(payments[i]) >= 0.0
  }

  /** With non-negative payments the balance never exceeds the debt's total. */
  lemma BalanceAtMostTotal(debt: Debt, payments: seq<Payment>)
    requires debt.total_divisa >= 0.0
    requires NonNegativePayments(debt, payments)
    ensures 0.0 <= RemainingBalance(debt, payments) <= debt.total_divisa
  {
    var own := DebtPayments(debt, payments);
    forall i | 0 <= i < |own| ensures Contribution(own[i]) >= 0.0 {
      assert own[i] in payments;
      var k :| 0 <= k < |payments| && payments[k] == own[i];
    }
    SumOfNonNegative(own, Contribution);
  }

  /** Recording a payment with a non-negative contribution never increases the balance. */
  lemma PaymentNeverIncreasesBalance(debt: Debt, payments: seq<Payment>, p: Payment)
    requires Contribution(p) >= 0.0
    ensures RemainingBalance(debt, payments + [p]) <= RemainingBalance(debt, payments)
  {
    if p.deuda_id == debt.id {
      PaymentEffect(debt, payments, p);
    } else {
      ForeignPaymentIgnored(debt, payments, p, []);
      assert payments + [p] + [] == payments + [p];
      assert payments + [] == payments;
    }
  }
}
