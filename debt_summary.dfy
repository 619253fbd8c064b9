/** The summary cards (`src/features/deudas/components/debt-summary.tsx`):
    the share of the portfolio already paid. */
module DebtSummary {
  import opened Common
  import opened Records
  import opened DebtDashboard

  /** `percentPaid`: the paid share of the total debt, rounded to a whole
      percent, and 0 when there is no positive total. */
  function PercentPaid(totalDebt: real, totalPaid: real): (r: int)
    ensures totalDebt <= 0.0 ==> r == 0
    ensures totalDebt > 0.0 ==>
      var x := totalPaid / totalDebt * 100.0;
      x - 0.5 < r as real <= x + 0.5
  {
    if totalDebt > 0.0 then JsRound(totalPaid / totalDebt * 100.0) else 0
  }

  /** A paid amount between zero and a positive total gives a percentage between 0 and 100. */
  lemma PercentPaidBounds(totalDebt: real, totalPaid: real)
    requires totalDebt > 0.0
    requires 0.0 <= totalPaid <= totalDebt
    ensures 0 <= PercentPaid(totalDebt, totalPaid) <= 100
  {
    var q := totalPaid / totalDebt;
    assert q * totalDebt == totalPaid;
    assert 0.0 <= q <= 1.0;
  }

  /** Nothing paid gives 0; everything paid gives 100. */
  lemma PercentPaidEndpoints(totalDebt: real)
    requires totalDebt > 0.0
    ensures PercentPaid(totalDebt, 0.0) == 0
    ensures PercentPaid(totalDebt, totalDebt) == 100
  {
    assert 0.0 / totalDebt == 0.0;
    assert totalDebt / totalDebt == 1.0;
  }

  /** On a dashboard whose balances are all in range, the card shows a percentage between 0 and 100. */
  lemma DashboardPercentInRange(debts: seq<Debt>)
    requires BalancesInRange(debts)
    ensures 0 <= PercentPaid(TotalDebt(debts), PortfolioPaid(debts)) <= 100
  {
    TotalsBounded(debts);
    if TotalDebt(debts) > 0.0 {
      PercentPaidBounds(TotalDebt(debts), PortfolioPaid(debts));
    }
  }
}
