/** The figures src/views/Dashboard.tsx derives from the data for the
    current month: the monthly totals, what is still to be received, the
    savings-goal card with its colour band, and the top five categories. */
module Dashboard {

  import opened Base
  import opened FinanceTypes
  import opened Calculations

  /** `monthlyData`. */
  datatype MonthlyData = MonthlyData(
    totalIncome: real,
    totalExpenses: real,
    totalFixed: real,
    totalAllExpenses: real,
    totalFixedPaid: real,
    savings: real,
    available: real)

  /** Lines 27-54. `totalFixed` and `totalFixedPaid` are the view's own
      filters over the month's fixed expenses. */
  function MonthlyFigures(data: FinancialData, month: string): MonthlyData
  {
    var totalIncome := TotalIncome(data.incomes, month);
    var totalExpenses := TotalExpenses(data.expenses, month);
    var totalFixed := SumBy(FixedOfMonth(data.fixedExpenses, month), FixedValue);
    var totalFixedPaid := SumBy(PaidFixedOfMonth(data.fixedExpenses, month), FixedValue);
    MonthlyData(totalIncome, totalExpenses, totalFixed, totalExpenses + totalFixedPaid, totalFixedPaid,
                Savings(data.incomes, data.expenses, data.fixedExpenses, month),
                totalIncome - totalExpenses - totalFixedPaid)
  }

  /** What the card shows as available is the month's savings, and it is
      the income less every expense paid; the fixed total is the one
      `calculateTotalFixedExpenses` computes, paid and unpaid together, and
      with non-negative values the paid part never exceeds it. */
  lemma MonthlyFiguresAgree(data: FinancialData, month: string)
    requires month != ""
    ensures MonthlyFigures(data, month).available == MonthlyFigures(data, month).savings
    ensures MonthlyFigures(data, month).available ==
            MonthlyFigures(data, month).totalIncome - MonthlyFigures(data, month).totalAllExpenses
    ensures MonthlyFigures(data, month).totalFixed == TotalFixedExpenses(data.fixedExpenses, month)
    ensures MonthlyFigures(data, month).totalFixed ==
            MonthlyFigures(data, month).totalFixedPaid + UnpaidFixedTotal(data.fixedExpenses, month)
    ensures (forall f :: f in data.fixedExpenses ==> f.value >= 0.0) ==>
            MonthlyFigures(data, month).totalFixedPaid <= MonthlyFigures(data, month).totalFixed
  {
    FixedTotalSplitsByPaid(data.fixedExpenses, month);
    if forall f :: f in data.fixedExpenses ==> f.value >= 0.0 {
      SumNonNegative(Filter(data.fixedExpenses, (f: FixedExpense) => f.month == month && !f.isPaid), FixedValue);
    }
  }

  function PendingValue(p: PendingIncome): real
  {
    p.value
  }

  function NotConverted(p: PendingIncome): bool
  {
    !p.converted
  }

  /** Lines 57-61, `monthlyPendingIncome`: the unconverted pending incomes,
      whatever month they are expected in. */
  function PendingToReceive(pending: seq<PendingIncome>): real
  {
    SumBy(Filter(pending, NotConverted), PendingValue)
  }

  /** A record counts exactly when it is not converted, wherever it stands
      and whatever its date. */
  lemma PendingToReceiveAdds(before: seq<PendingIncome>, p: PendingIncome, after: seq<PendingIncome>)
    ensures PendingToReceive(before + [p] + after) ==
            PendingToReceive(before + after) + (if p.converted then 0.0 else p.value)
  {
    FilterAppend(before + [p], after, NotConverted);
    FilterAppend(before, [p], NotConverted);
    FilterAppend(before, after, NotConverted);
    assert [p][1..] == [];
    var a := Filter(before, NotConverted);
    var b := Filter(after, NotConverted);
    var mid := Filter([p], NotConverted);
    SumAppend(a + mid, b, PendingValue);
    SumAppend(a, mid, PendingValue);
    SumAppend(a, b, PendingValue);
  }

  /** A JavaScript number that may be infinite or NaN, as `x / 0` gives. */
  datatype Number = Finite(value: real) | PosInfinity | NegInfinity | NaN

  /** `(saved / target) * 100` in JavaScript arithmetic. */
  function PercentOf(saved: real, target: real): (r: Number)
    ensures target != 0.0 ==> r.Finite? && r.value * target == saved * 100.0
    ensures target == 0.0 ==> (r == PosInfinity <==> saved > 0.0) && (r == NegInfinity <==> saved < 0.0) && (r == NaN <==> saved == 0.0)
  {
    if target != 0.0 then
      var q := saved / target;
      assert q * target == saved;
      Finite(q * 100.0)
    else if saved > 0.0 then PosInfinity
    else if saved < 0.0 then NegInfinity
    else NaN
  }

  /** `progress >= x` with JavaScript's rules for infinities and NaN. */
  predicate AtLeast(n: Number, x: real)
  {
    match n
    case Finite(v) => v >= x
    case PosInfinity => true
    case NegInfinity => false
    case NaN => false
  }

  datatype Band = Emerald | Amber | Red

  /** Lines 69-84. */
  function BandOf(progress: Number): (r: Band)
    ensures r == Emerald <==> AtLeast(progress, 99.0)
    ensures r == Amber <==> !AtLeast(progress, 99.0) && AtLeast(progress, 71.0)
    ensures r == Red <==> !AtLeast(progress, 71.0)
  {
    if AtLeast(progress, 99.0) then Emerald
    else if AtLeast(progress, 71.0) then Amber
    else Red
  }

  datatype GoalCard = GoalCard(goal: real, progress: Number, band: Band)

  /** Lines 64-87, `savingsData`: nothing without a goal for the month;
      otherwise the progress, not clamped, and its band. */
  function SavingsCard(goals: seq<SavingsGoal>, month: string, savings: real): (r: Option<GoalCard>)
    ensures r.None? <==> forall g :: g in goals ==> g.month != month
    ensures r.Some? ==> r.value.goal == FindGoal(goals, month).value.target
    ensures r.Some? && r.value.goal != 0.0 ==>
      r.value.progress.Finite? && r.value.progress.value * r.value.goal == savings * 100.0
    ensures r.Some? ==> r.value.band == BandOf(r.value.progress)
  {
    match FindGoal(goals, month)
    case None => None
    case Some(g) =>
      var progress := PercentOf(savings, g.target);
      Some(GoalCard(g.target, progress, BandOf(progress)))
  }

  /** Unlike `calculateSavingsProgress`, the card does not stop at 100:
      savings above a positive goal show more than 100%, and the band is
      emerald. */
  lemma SavingsCardNotClamped(goals: seq<SavingsGoal>, month: string, savings: real)
    requires FindGoal(goals, month).Some? && 0.0 < FindGoal(goals, month).value.target < savings
    ensures SavingsCard(goals, month, savings).value.progress.value > 100.0
    ensures SavingsCard(goals, month, savings).value.band == Emerald
  {
    var t := FindGoal(goals, month).value.target;
    PercentAboveHundred(savings, t);
  }

  /** Savings above a positive target are more than 100% of it. */
  lemma PercentAboveHundred(saved: real, target: real)
    requires 0.0 < target < saved
    ensures PercentOf(saved, target).Finite? && PercentOf(saved, target).value > 100.0
  {
    var v := PercentOf(saved, target).value;
    assert (v - 100.0) * target == (saved - target) * 100.0;
    PositiveFactor(v - 100.0, target);
  }

  lemma PositiveFactor(x: real, t: real)
    requires t > 0.0 && x * t > 0.0
    ensures x > 0.0
  {
  }

  function NegTotal(t: CategoryTotal): real
  {
    -t.total
  }

  /** Lines 90-96, `categoryData`: the month's category totals sorted by
      value, largest first, cut to five. */
  function TopCategories(totals: seq<CategoryTotal>): (r: seq<CategoryTotal>)
    ensures |r| == if |totals| < 5 then |totals| else 5
    ensures forall i, j :: 0 <= i < j < |r| ==> r[i].total >= r[j].total
    ensures multiset(r) <= multiset(totals)
  {
    var sorted := SortByKey(totals, NegTotal);
    var n := if |sorted| < 5 then |sorted| else 5;
    TakeSorted(sorted, NegTotal, n);
    var r := sorted[..n];
    assert forall i, j :: 0 <= i < j < |r| ==> r[i].total >= r[j].total by {
      forall i, j | 0 <= i < j < |r| ensures r[i].total >= r[j].total {
        assert NegTotal(r[i]) <= NegTotal(r[j]);
      }
    }
    r
  }

  /** The five shown are the largest: no category left out has a larger
      total than any that is shown. */
  lemma TopCategoriesAreLargest(totals: seq<CategoryTotal>)
    ensures forall x, y :: x in TopCategories(totals) && y in multiset(totals) - multiset(TopCategories(totals)) ==>
      x.total >= y.total
  {
    var sorted := SortByKey(totals, NegTotal);
    var n := if |sorted| < 5 then |sorted| else 5;
    var top := sorted[..n];
    assert sorted == top + sorted[n..];
    assert multiset(sorted) == multiset(top) + multiset(sorted[n..]);
    forall x, y | x in top && y in multiset(totals) - multiset(top) ensures x.total >= y.total {
      assert y in multiset(sorted[n..]);
      var j :| 0 <= j < |sorted[n..]| && sorted[n..][j] == y;
      var i :| 0 <= i < n && top[i] == x;
      assert NegTotal(sorted[i]) <= NegTotal(sorted[n + j]);
    }
  }

  /** Lines 211-212: `(value / (totalExpenses || 1)) * 100`; a zero total
      is replaced by 1, so the share is always a finite number. */
  function CategoryShare(value: real, totalExpenses: real): (r: real)
    ensures totalExpenses != 0.0 ==> r * totalExpenses == value * 100.0
    ensures totalExpenses == 0.0 ==> r == value * 100.0
  {
    var d := if totalExpenses == 0.0 then 1.0 else totalExpenses;
    var q := value / d;
    assert q * d == value;
    q * 100.0
  }
}
