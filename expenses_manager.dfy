/** The expenses table of a shipment, or of the general expenses when no
    shipment is given (`src/features/fletes/expenses-manager.tsx`): the
    list it loads, the edit/add/delete dialogs, the way a saved expense is
    merged back into the list, and the two totals in the table footer. */
module ExpensesManager {
  import opened Common
  import opened ExpenseForm

  function IdOf(e: Expense): string
  {
    e.id
  }

  function DivisaOf(e: Expense): real
  {
    OrZero(e.pago_divisa)
  }

  function BolivaresOf(e: Expense): real
  {
    OrZero(e.pago_bolivares)
  }

  /** The footer's `totalDivisas`: a missing amount counts as zero. */
  function TotalDivisas(s: seq<Expense>): (r: real)
    ensures (forall i :: 0 <= i < |s| ==> s[i].pago_divisa.None?) ==> r == 0.0
    ensures (forall i :: 0 <= i < |s| ==> OrZero(s[i].pago_divisa) >= 0.0) ==> r >= 0.0
  {
    var r := SumOf(s, DivisaOf);
    assert (forall i :: 0 <= i < |s| ==> s[i].pago_divisa.None?) ==> r == 0.0 by {
      if forall i :: 0 <= i < |s| ==> s[i].pago_divisa.None? {
        SumOfZero(s, DivisaOf);
      }
    }
    assert (forall i :: 0 <= i < |s| ==> OrZero(s[i].pago_divisa) >= 0.0) ==> r >= 0.0 by {
      if forall i :: 0 <= i < |s| ==> OrZero(s[i].pago_divisa) >= 0.0 {
        SumOfNonNegative(s, DivisaOf);
      }
    }
    r
  }

  /** The footer's `totalBolivares`. */
  function TotalBolivares(s: seq<Expense>): (r: real)
    ensures (forall i :: 0 <= i < |s| ==> s[i].pago_bolivares.None?) ==> r == 0.0
    ensures (forall i :: 0 <= i < |s| ==> OrZero(s[i].pago_bolivares) >= 0.0) ==> r >= 0.0
  {
    var r := SumOf(s, BolivaresOf);
    assert (forall i :: 0 <= i < |s| ==> s[i].pago_bolivares.None?) ==> r == 0.0 by {
      if forall i :: 0 <= i < |s| ==> s[i].pago_bolivares.None? {
        SumOfZero(s, BolivaresOf);
      }
    }
    assert (forall i :: 0 <= i < |s| ==> OrZero(s[i].pago_bolivares) >= 0.0) ==> r >= 0.0 by {
      if forall i :: 0 <= i < |s| ==> OrZero(s[i].pago_bolivares) >= 0.0 {
        SumOfNonNegative(s, BolivaresOf);
      }
    }
    r
  }

  /** The list after a save: an edit replaces the row with the same id, an
      insert goes on top. */
  function Merged(s: seq<Expense>, editing: bool, saved: Expense): (r: seq<Expense>)
    ensures editing ==> |r| == |s| && forall i :: 0 <= i < |s| ==> IdOf(r[i]) == IdOf(s[i])
    ensures editing ==> forall i :: 0 <= i < |s| && s[i].id == saved.id ==> r[i] == saved
    ensures editing ==> forall i :: 0 <= i < |s| && s[i].id != saved.id ==> r[i] == s[i]
    ensures !editing ==> |r| == |s| + 1 && r[0] == saved && r[1..] == s
  {
    if editing then ReplaceById(s, saved, IdOf) else [saved] + s
  }

  /** An insert adds the new amounts to both totals. */
  lemma {:induction false} InsertAddsToTotals(s: seq<Expense>, saved: Expense)
    ensures TotalDivisas(Merged(s, false, saved)) == TotalDivisas(s) + DivisaOf(saved)
    ensures TotalBolivares(Merged(s, false, saved)) == TotalBolivares(s) + BolivaresOf(saved)
  {
    var r := Merged(s, false, saved);
    assert r[1..] == s;
  }

  /** An edit of the row at `k` swaps its amounts for the new ones in both totals. */
  lemma EditAdjustsTotals(s: seq<Expense>, saved: Expense, k: int)
    requires UniqueIds(s, IdOf)
    requires 0 <= k < |s| && s[k].id == saved.id
    ensures TotalDivisas(Merged(s, true, saved)) == TotalDivisas(s) - DivisaOf(s[k]) + DivisaOf(saved)
    ensures TotalBolivares(Merged(s, true, saved)) == TotalBolivares(s) - BolivaresOf(s[k]) + BolivaresOf(saved)
  {
    SumOfReplace(s, saved, IdOf, DivisaOf, k);
    SumOfReplace(s, saved, IdOf, BolivaresOf, k);
  }

  /** Saving keeps ids unique, an insert provided its id is new. */
  lemma MergedKeepsIdsUnique(s: seq<Expense>, editing: bool, saved: Expense)
    requires UniqueIds(s, IdOf)
    requires !editing ==> forall i :: 0 <= i < |s| ==> s[i].id != saved.id
    ensures UniqueIds(Merged(s, editing, saved), IdOf)
  {
    var r := Merged(s, editing, saved);
    if !editing {
      assert forall i :: 1 <= i < |r| ==> r[i] == s[i - 1];
    }
  }

  /** Deleting the row at `k` takes its amounts off both totals. */
  lemma DeleteSubtractsFromTotals(s: seq<Expense>, k: int)
    requires UniqueIds(s, IdOf)
    requires 0 <= k < |s|
    ensures TotalDivisas(RemoveById(s, s[k].id, IdOf)) == TotalDivisas(s) - DivisaOf(s[k])
    ensures TotalBolivares(RemoveById(s, s[k].id, IdOf)) == TotalBolivares(s) - BolivaresOf(s[k])
  {
    SumOfRemove(s, IdOf, DivisaOf, k);
    SumOfRemove(s, IdOf, BolivaresOf, k);
  }

  /** The component's state. */
  class ExpensesModel {
    var expenses: seq<Expense>
    var dialogOpen: bool
    var currentExpense: Option<Expense>
    var deleteDialogOpen: bool
    var expenseToDelete: Option<string>

    constructor()
      ensures expenses == [] && !dialogOpen && currentExpense == None
      ensures !deleteDialogOpen && expenseToDelete == None
    {
      expenses := [];
      dialogOpen := false;
      currentExpense := None;
      deleteDialogOpen := false;
      expenseToDelete := None;
    }

    /** The fetch effect: no shipment means an empty list; a failed query
        keeps the list it had. */
    method Load(fleteId: Option<string>, fetched: Result<seq<Expense>>)
      modifies this
      ensures Blank(fleteId) ==> expenses == []
      ensures !Blank(fleteId) && fetched.Ok? ==> expenses == fetched.data
      ensures !Blank(fleteId) && fetched.Err? ==> expenses == old(expenses)
      ensures dialogOpen == old(dialogOpen) && currentExpense == old(currentExpense)
      ensures deleteDialogOpen == old(deleteDialogOpen) && expenseToDelete == old(expenseToDelete)
    {
      if Blank(fleteId) {
        expenses := [];
        return;
      }
      if fetched.Ok? {
        expenses := fetched.data;
      }
    }

    /** The pencil button: open the dialog on that expense. */
    method HandleEdit(e: Expense)
      modifies this
      ensures currentExpense == Some(e) && dialogOpen
      ensures expenses == old(expenses)
      ensures deleteDialogOpen == old(deleteDialogOpen) && expenseToDelete == old(expenseToDelete)
    {
      currentExpense := Some(e);
      dialogOpen := true;
    }

    /** The add button: open the dialog on a blank expense. */
    method HandleAdd()
      modifies this
      ensures currentExpense == None && dialogOpen
      ensures expenses == old(expenses)
      ensures deleteDialogOpen == old(deleteDialogOpen) && expenseToDelete == old(expenseToDelete)
    {
      currentExpense := None;
      dialogOpen := true;
    }

    /** The bin button: ask for confirmation of deleting `id`. */
    method HandleDelete(id: string)
      modifies this
      ensures expenseToDelete == Some(id) && deleteDialogOpen
      ensures expenses == old(expenses)
      ensures dialogOpen == old(dialogOpen) && currentExpense == old(currentExpense)
    {
      expenseToDelete := Some(id);
      deleteDialogOpen := true;
    }

    /** The confirm button: with nothing pending it does nothing at all;
        otherwise the row leaves the list only if the delete succeeded, and
        the confirmation closes either way. */
    method ConfirmDelete(deleted: bool)
      modifies this
      ensures Blank(old(expenseToDelete)) ==>
        expenses == old(expenses) && deleteDialogOpen == old(deleteDialogOpen) && expenseToDelete == old(expenseToDelete)
      ensures !Blank(old(expenseToDelete)) ==> !deleteDialogOpen && expenseToDelete == None
      ensures !Blank(old(expenseToDelete)) && deleted ==>
        expenses == RemoveById(old(expenses), old(expenseToDelete).value, IdOf)
      ensures !Blank(old(expenseToDelete)) && !deleted ==> expenses == old(expenses)
      ensures dialogOpen == old(dialogOpen) && currentExpense == old(currentExpense)
    {
      if Blank(expenseToDelete) {
        return;
      }
      if deleted {
        expenses := RemoveById(expenses, expenseToDelete.value, IdOf);
      }
      deleteDialogOpen := false;
      expenseToDelete := None;
    }

    /** `onSubmitSuccess`: merge the saved row, as an edit exactly when the
        dialog was opened on an expense. */
    method HandleFormSubmitSuccess(saved: Expense)
      modifies this
      ensures expenses == Merged(old(expenses), old(currentExpense).Some?, saved)
      ensures dialogOpen == old(dialogOpen) && currentExpense == old(currentExpense)
      ensures deleteDialogOpen == old(deleteDialogOpen) && expenseToDelete == old(expenseToDelete)
    {
      expenses := Merged(expenses, currentExpense.Some?, saved);
    }

    /** The dialog's outcome: a saved row is merged, then the dialog closes
        (on failure it stays open). */
    method DialogSaved(outcome: Result<Expense>)
      modifies this
      ensures outcome.Ok? ==> expenses == Merged(old(expenses), old(currentExpense).Some?, outcome.data) && !dialogOpen
      ensures outcome.Err? ==> expenses == old(expenses) && dialogOpen == old(dialogOpen)
      ensures currentExpense == old(currentExpense)
      ensures deleteDialogOpen == old(deleteDialogOpen) && expenseToDelete == old(expenseToDelete)
    {
      if outcome.Ok? {
        HandleFormSubmitSuccess(outcome.data);
        dialogOpen := false;
      }
    }
  }
}
