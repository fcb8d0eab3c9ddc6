/** The logic of src/views/Settings.tsx: the fixed-expense form and its
    name selection, the goal form's guard, the month's list of fixed
    expenses with its totals, and the paid toggle. */
module Settings {

  import opened Base
  import opened FinanceTypes
  import opened Calculations
  import FinanceContext

  /** `fixedFormData`; the value and the due day are held as the numbers
      the form's text parses to. */
  datatype FixedForm = FixedForm(name: string, category: string, customName: string, value: real, dueDay: int)

  const Other: string := "Outros"

  /** The bill names the form offers besides `Outros` (lines 83 and 269-275). */
  const Predefined: seq<string> :=
    ["Aluguel", "Internet", "Dentista", "Cartão De Credito", "Mercado", "Parcela Veiculo", "Emprestimo"]

  /** Line 32: the custom name when the category is `Outros`, the category otherwise. */
  function FinalName(form: FixedForm): string
  {
    if form.category == Other then form.customName else form.category
  }

  /** Lines 82-95, `handleEdit`: a predefined name is selected as the
      category; any other name goes into the custom field under `Outros`. */
  function EditForm(f: FixedExpense): FixedForm
  {
    var isCustom := f.name !in Predefined;
    FixedForm(f.name, if isCustom then Other else f.name, if isCustom then f.name else "", f.value, f.dueDay)
  }

  /** Editing reproduces the name: whatever the record's name, the form
      `handleEdit` fills in gives it back through `finalName`, and it shows
      `Outros` exactly for the names not on the list. */
  lemma EditRoundTrip(f: FixedExpense)
    ensures FinalName(EditForm(f)) == f.name
    ensures EditForm(f).category == Other <==> f.name !in Predefined
  {
    assert Other !in Predefined;
  }

  /** A new bill to add, without the id and creation time the store assigns. */
  datatype NewFixed = NewFixed(name: string, value: real, dueDay: int, month: string, isPaid: bool)

  datatype FixedAction = UpdateFixed(id: string, patch: FinanceContext.FixedPatch) | AddFixed(draft: NewFixed)

  /** Lines 30-50, `handleFixedSubmit`: an update of name, value and due day
      while editing, otherwise a new unpaid bill of the selected month. */
  function FixedSubmit(form: FixedForm, editingId: Option<string>, selectedMonth: string): (r: FixedAction)
    ensures r.UpdateFixed? <==> editingId.Some? && editingId.value != ""
    ensures r.AddFixed? ==> !r.draft.isPaid && r.draft.month == selectedMonth && r.draft.name == FinalName(form)
    ensures r.UpdateFixed? ==> r.id == editingId.value
    ensures r.UpdateFixed? ==> r.patch == FinanceContext.FixedPatch(None, Some(FinalName(form)), Some(form.value), Some(form.dueDay),
                                           None, None, None, None, None, None)
  {
    if editingId.Some? && editingId.value != "" then
      UpdateFixed(editingId.value,
                  FinanceContext.FixedPatch(None, Some(FinalName(form)), Some(form.value), Some(form.dueDay),
                                            None, None, None, None, None, None))
    else AddFixed(NewFixed(FinalName(form), form.value, form.dueDay, selectedMonth, false))
  }

  /** Opening a bill for editing and saving the form untouched writes the
      record back as it was, and does not count as a payment. */
  lemma EditUnchangedIsIdentity(f: FixedExpense)
    requires f.id != ""
    ensures FixedSubmit(EditForm(f), Some(f.id), f.month).UpdateFixed?
    ensures FinanceContext.MergeFixed(f, FixedSubmit(EditForm(f), Some(f.id), f.month).patch) == f
    ensures !FinanceContext.PaidTransition(f, FixedSubmit(EditForm(f), Some(f.id), f.month).patch)
  {
    EditRoundTrip(f);
  }

  datatype GoalAction = SaveGoal(month: string, target: real)

  /** Lines 52-59, `handleGoalSubmit`: the goal is saved only when the
      target parses to a number above zero; `None` stands for the NaN
      `parseFloat` gives for text that is not a number. */
  function GoalSubmit(month: string, parsed: Option<real>): (r: Option<GoalAction>)
    ensures r.Some? <==> parsed.Some? && parsed.value > 0.0
    ensures r.Some? ==> r.value.month == month && r.value.target == parsed.value
  {
    if parsed.Some? && parsed.value > 0.0 then Some(SaveGoal(month, parsed.value)) else None
  }

  predicate PositiveGoals(goals: seq<SavingsGoal>)
  {
    forall g :: g in goals ==> g.target > 0.0
  }

  /** Saving through the form never stores a goal of zero or less: a list
      of positive goals stays positive. */
  lemma GoalSubmitKeepsPositive(goals: seq<SavingsGoal>, month: string, parsed: Option<real>, newId: string, now: string)
    requires PositiveGoals(goals)
    requires GoalSubmit(month, parsed).Some?
    ensures PositiveGoals(FinanceContext.UpsertGoal(goals, month, GoalSubmit(month, parsed).value.target, newId, now))
  {
    var t := GoalSubmit(month, parsed).value.target;
    var r := FinanceContext.UpsertGoal(goals, month, t, newId, now);
    forall g | g in r ensures g.target > 0.0 {
      var i :| 0 <= i < |r| && r[i] == g;
      if i < |goals| {
        assert goals[i] in goals;
      }
    }
  }

  function DueDayKey(f: FixedExpense): real
  {
    f.dueDay as real
  }

  /** Lines 106-108, `monthExpenses`: the selected month's bills, earliest
      due day first. */
  function MonthExpenses(fixed: seq<FixedExpense>, month: string): (r: seq<FixedExpense>)
    ensures forall f :: f in r <==> f in fixed && f.month == month
    ensures multiset(r) == multiset(FixedOfMonth(fixed, month))
    ensures forall i, j :: 0 <= i < j < |r| ==> r[i].dueDay <= r[j].dueDay
  {
    var r := SortByKey(FixedOfMonth(fixed, month), DueDayKey);
    assert forall i, j :: 0 <= i < j < |r| ==> DueDayKey(r[i]) <= DueDayKey(r[j]);
    forall f ensures f in r <==> f in FixedOfMonth(fixed, month) {
      assert f in r <==> f in multiset(r);
    }
    r
  }

  function IsPaid(f: FixedExpense): bool
  {
    f.isPaid
  }

  /** Lines 110-113: `totalFixed` and `paidTotal` over the sorted list. */
  function MonthTotals(fixed: seq<FixedExpense>, month: string): (real, real)
  {
    var xs := MonthExpenses(fixed, month);
    (SumBy(xs, FixedValue), SumBy(Filter(xs, IsPaid), FixedValue))
  }

  /** Sorting changes nothing in the sums: the totals are the month's
      fixed total and its paid part, and with non-negative values the paid
      part is at most the total. */
  lemma MonthTotalsAgree(fixed: seq<FixedExpense>, month: string)
    requires month != ""
    ensures MonthTotals(fixed, month).0 == TotalFixedExpenses(fixed, month)
    ensures MonthTotals(fixed, month).1 == PaidFixedTotal(fixed, month)
    ensures (forall f :: f in fixed ==> f.value >= 0.0) ==> MonthTotals(fixed, month).1 <= MonthTotals(fixed, month).0
  {
    var xs := MonthExpenses(fixed, month);
    var ys := FixedOfMonth(fixed, month);
    SumPermutation(xs, ys, FixedValue);
    FilterPermutation(xs, ys, IsPaid);
    SumPermutation(Filter(xs, IsPaid), Filter(ys, IsPaid), FixedValue);
    PaidOfMonth(fixed, month);
    if forall f :: f in fixed ==> f.value >= 0.0 {
      SumFilterAtMost(xs, IsPaid, FixedValue);
    }
  }

  lemma {:induction false} PaidOfMonth(fixed: seq<FixedExpense>, month: string)
    ensures Filter(FixedOfMonth(fixed, month), IsPaid) == PaidFixedOfMonth(fixed, month)
  {
    if fixed != [] {
      PaidOfMonth(fixed[1..], month);
      var x := fixed[0];
      if x.month == month {
        assert FixedOfMonth(fixed, month) == [x] + FixedOfMonth(fixed[1..], month);
        if x.isPaid {
          assert PaidFixedOfMonth(fixed, month) == [x] + PaidFixedOfMonth(fixed[1..], month);
        } else {
          assert PaidFixedOfMonth(fixed, month) == PaidFixedOfMonth(fixed[1..], month);
        }
      } else {
        assert FixedOfMonth(fixed, month) == FixedOfMonth(fixed[1..], month);
        assert PaidFixedOfMonth(fixed, month) == PaidFixedOfMonth(fixed[1..], month);
      }
    }
  }

  /** Lines 102-104, `togglePaid`: a patch of `isPaid` alone, to its negation. */
  function TogglePatch(f: FixedExpense): FinanceContext.FixedPatch
  {
    FinanceContext.FixedPatch(None, None, None, None, Some(!f.isPaid), None, None, None, None, None)
  }

  /** The toggle flips the flag and nothing else, twice restores the
      record, and it is a payment exactly when the bill was unpaid. */
  lemma ToggleLaws(f: FixedExpense)
    ensures FinanceContext.MergeFixed(f, TogglePatch(f)) == f.(isPaid := !f.isPaid)
    ensures var g := FinanceContext.MergeFixed(f, TogglePatch(f)); FinanceContext.MergeFixed(g, TogglePatch(g)) == f
    ensures FinanceContext.PaidTransition(f, TogglePatch(f)) <==> !f.isPaid
  {
  }
}
