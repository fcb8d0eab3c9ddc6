/** The derived metrics of src/utils/calculations.ts: month filtering,
    totals, savings, savings progress, category breakdown and averages.
    An omitted optional `month` argument is passed as the empty string,
    which the source treats as omitted too (it tests the argument's
    truthiness). */
module Calculations {

  import opened Base
  import opened Text
  import opened Dates
  import opened FinanceTypes

  function EntryValue(e: Entry): real { e.value }
  function FixedValue(f: FixedExpense): real { f.value }

  /** `${year}-${String(month).padStart(2, '0')}` for the injected local year and month. */
  function CurrentMonth(year: nat, month: nat): (r: string)
    requires 1 <= month <= 12
    ensures 1000 <= year <= 9999 ==> |r| == 7
    ensures |r| >= 3 && r[|r| - 3] == '-'
    ensures ParseNat(r[..|r| - 3]) == Some(year)
    ensures ParseNat(r[|r| - 2..]) == Some(month)
  {
    var y := NatToString(year);
    var m := PadStart2(NatToString(month));
    var r := y + "-" + m;
    assert r[..|r| - 3] == y;
    assert r[|r| - 2..] == m;
    ParseNatToString(year);
    PaddedParses(month);
    r
  }

  /** `items.filter(item => item.date.startsWith(month))`. */
  function FilterByMonth(items: seq<Entry>, month: string): (r: seq<Entry>)
    ensures |r| <= |items|
    ensures forall x :: x in r <==> x in items && StartsWith(x.date, month)
  {
    Filter(items, (e: Entry) => StartsWith(e.date, month))
  }

  /** The filter keeps the input order: it distributes over concatenation
      and keeps or drops each single record by its date prefix. */
  lemma FilterByMonthOrder(a: seq<Entry>, b: seq<Entry>, x: Entry, month: string)
    ensures FilterByMonth(a + b, month) == FilterByMonth(a, month) + FilterByMonth(b, month)
    ensures FilterByMonth([x], month) == if StartsWith(x.date, month) then [x] else []
  {
    FilterAppend(a, b, (e: Entry) => StartsWith(e.date, month));
    assert [x][1..] == [];
  }

  /** `new Date(a) < new Date(b)`; false when either does not parse. */
  predicate DateBefore(a: string, b: string)
  {
    match (ParseDate(a), ParseDate(b))
    case (Some(x), Some(y)) => x < y
    case _ => false
  }

  /** The test `filterByDate` applies to each item: not before a given
      start and not after a given end. */
  predicate WithinDates(e: Entry, startDate: string, endDate: string)
  {
    !(startDate != "" && DateBefore(e.date, startDate)) && !(endDate != "" && DateBefore(endDate, e.date))
  }

  /** `filterByDate`: drops items before a given start or after a given end;
      an empty bound is no bound, and an unparseable date drops nothing. */
  function FilterByDate(items: seq<Entry>, startDate: string, endDate: string): (r: seq<Entry>)
    ensures |r| <= |items|
    ensures forall x :: x in r <==>
      x in items && !(startDate != "" && DateBefore(x.date, startDate))
                 && !(endDate != "" && DateBefore(endDate, x.date))
    ensures startDate == "" && endDate == "" ==> r == items
  {
    var keep := (e: Entry) => WithinDates(e, startDate, endDate);
    var r := Filter(items, keep);
    if startDate == "" && endDate == "" then
      FilterAll(items, keep);
      r
    else r
  }

  /** The date filter keeps the input order and every copy of a kept
      record: it distributes over concatenation and keeps or drops each
      single record by its date. */
  lemma FilterByDateOrder(a: seq<Entry>, b: seq<Entry>, x: Entry, startDate: string, endDate: string)
    ensures FilterByDate(a + b, startDate, endDate) == FilterByDate(a, startDate, endDate) + FilterByDate(b, startDate, endDate)
    ensures FilterByDate([x], startDate, endDate) == if WithinDates(x, startDate, endDate) then [x] else []
  {
    FilterAppend(a, b, (e: Entry) => WithinDates(e, startDate, endDate));
    assert [x][1..] == [];
  }

  lemma {:induction false} FilterAll<T(!new)>(xs: seq<T>, p: T -> bool)
    requires forall x :: p(x)
    ensures Filter(xs, p) == xs
  {
    if xs != [] {
      FilterAll(xs[1..], p);
    }
  }

  /** The records an optional month selects: all of them when it is omitted. */
  function ScopeByMonth(items: seq<Entry>, month: string): seq<Entry>
  {
    if month == "" then items else FilterByMonth(items, month)
  }

  /** `calculateTotalIncome`. */
  function TotalIncome(incomes: seq<Income>, month: string): real
  {
    SumBy(ScopeByMonth(incomes, month), EntryValue)
  }

  /** `calculateTotalExpenses`, the same fold over expenses. */
  function TotalExpenses(expenses: seq<Expense>, month: string): real
  {
    SumBy(ScopeByMonth(expenses, month), EntryValue)
  }

  /** Adding one record grows a total by its value exactly when the month
      selects it; the empty list totals 0. This is the fold the source's
      `reduce` performs, stated one record at a time. */
  lemma TotalGrows(entries: seq<Entry>, x: Entry, month: string)
    ensures TotalIncome([], month) == 0.0
    ensures TotalIncome(entries + [x], month) ==
      TotalIncome(entries, month) + (if month == "" || StartsWith(x.date, month) then x.value else 0.0)
    ensures TotalExpenses(entries + [x], month) == TotalIncome(entries + [x], month)
  {
    if month == "" {
      SumAppend(entries, [x], EntryValue);
    } else {
      FilterByMonthOrder(entries, [x], x, month);
      SumAppend(FilterByMonth(entries, month), FilterByMonth([x], month), EntryValue);
    }
  }

  /** With non-negative values a month's total never exceeds the all-time total. */
  lemma MonthTotalAtMostAllTime(entries: seq<Entry>, month: string)
    requires forall e :: e in entries ==> e.value >= 0.0
    ensures 0.0 <= TotalIncome(entries, month) <= TotalIncome(entries, "")
  {
    if month != "" {
      SumFilterAtMost(entries, (e: Entry) => StartsWith(e.date, month), EntryValue);
      SumNonNegative(FilterByMonth(entries, month), EntryValue);
    } else {
      SumNonNegative(entries, EntryValue);
    }
  }

  /** Fixed expenses are scoped by their `month` field, not by a date. */
  function FixedOfMonth(fixed: seq<FixedExpense>, month: string): (r: seq<FixedExpense>)
    ensures forall f :: f in r <==> f in fixed && f.month == month
  {
    Filter(fixed, (f: FixedExpense) => f.month == month)
  }

  /** `calculateTotalFixedExpenses`: paid and unpaid alike. */
  function TotalFixedExpenses(fixed: seq<FixedExpense>, month: string): real
  {
    if month == "" then SumBy(fixed, FixedValue) else SumBy(FixedOfMonth(fixed, month), FixedValue)
  }

  /** The fixed expenses of a month that are marked paid. */
  function PaidFixedOfMonth(fixed: seq<FixedExpense>, month: string): (r: seq<FixedExpense>)
    ensures forall f :: f in r <==> f in fixed && f.month == month && f.isPaid
  {
    Filter(fixed, (f: FixedExpense) => f.month == month && f.isPaid)
  }

  /** `fixed.filter(f => f.month === month && f.isPaid).reduce(...)`. */
  function PaidFixedTotal(fixed: seq<FixedExpense>, month: string): real
  {
    SumBy(PaidFixedOfMonth(fixed, month), FixedValue)
  }

  function UnpaidFixedTotal(fixed: seq<FixedExpense>, month: string): real
  {
    SumBy(Filter(fixed, (f: FixedExpense) => f.month == month && !f.isPaid), FixedValue)
  }

  /** A month's fixed total is its paid part plus its unpaid part. */
  lemma {:induction false} FixedTotalSplitsByPaid(fixed: seq<FixedExpense>, month: string)
    requires month != ""
    ensures TotalFixedExpenses(fixed, month) == PaidFixedTotal(fixed, month) + UnpaidFixedTotal(fixed, month)
  {
    if fixed != [] {
      FixedTotalSplitsByPaid(fixed[1..], month);
      var f := fixed[0];
      var inMonth := (g: FixedExpense) => g.month == month;
      var paid := (g: FixedExpense) => g.month == month && g.isPaid;
      var unpaid := (g: FixedExpense) => g.month == month && !g.isPaid;
      SumAppend(if inMonth(f) then [f] else [], Filter(fixed[1..], inMonth), FixedValue);
      SumAppend(if paid(f) then [f] else [], Filter(fixed[1..], paid), FixedValue);
      SumAppend(if unpaid(f) then [f] else [], Filter(fixed[1..], unpaid), FixedValue);
    }
  }

  /** `calculateSavings`: income minus expenses minus the PAID fixed expenses of the month. */
  function Savings(incomes: seq<Income>, expenses: seq<Expense>, fixed: seq<FixedExpense>, month: string): real
  {
    TotalIncome(incomes, month) - TotalExpenses(expenses, month) - PaidFixedTotal(fixed, month)
  }

  /** An unpaid (or other-month) fixed expense does not take part in the
      savings of the month: replacing it by another such record, or removing
      it, leaves the savings unchanged. */
  lemma SavingsIgnoresUnpaid(incomes: seq<Income>, expenses: seq<Expense>, fixed: seq<FixedExpense>,
                             month: string, i: nat, g: FixedExpense)
    requires i < |fixed|
    requires !(fixed[i].month == month && fixed[i].isPaid)
    requires !(g.month == month && g.isPaid)
    ensures Savings(incomes, expenses, fixed[i := g], month) == Savings(incomes, expenses, fixed, month)
    ensures Savings(incomes, expenses, fixed[..i] + fixed[i + 1..], month) == Savings(incomes, expenses, fixed, month)
  {
    var paid := (f: FixedExpense) => f.month == month && f.isPaid;
    var before, after := fixed[..i], fixed[i + 1..];
    assert fixed == before + [fixed[i]] + after;
    assert fixed[i := g] == before + [g] + after;
    FilterSkip(before, fixed[i], after, paid);
    FilterSkip(before, g, after, paid);
    assert PaidFixedOfMonth(fixed, month) == Filter(before + after, paid);
    assert PaidFixedOfMonth(fixed[i := g], month) == Filter(before + after, paid);
  }

  /** `calculateSavingsProgress`: 0 for a zero goal, otherwise the
      percentage of the goal reached, clamped from above at 100 only. */
  function SavingsProgress(saved: real, goal: real): (r: real)
    ensures goal == 0.0 ==> r == 0.0
    ensures r <= 100.0
    ensures goal > 0.0 && saved >= goal ==> r == 100.0
  {
    if goal == 0.0 then 0.0
    else
      var p := saved / goal * 100.0;
      if p < 100.0 then p else 100.0
  }

  /** Below a positive goal the progress is the exact percentage, and a
      negative saving gives a negative progress. */
  lemma SavingsProgressBelowGoal(saved: real, goal: real)
    requires goal > 0.0 && saved < goal
    ensures SavingsProgress(saved, goal) * goal == saved * 100.0
    ensures saved < 0.0 ==> SavingsProgress(saved, goal) < 0.0
  {
    var p := saved / goal * 100.0;
    assert p * goal == saved * 100.0;
  }

  /** One category's running total, as an own property of the object the
      source builds (`Record<string, number>`), in insertion order. */
  datatype CategoryTotal = CategoryTotal(category: string, total: real)

  /** Some entry of `totals` is for category `c`. */
  predicate HasCategory(totals: seq<CategoryTotal>, c: string)
  {
    totals != [] && (totals[0].category == c || HasCategory(totals[1..], c))
  }

  /** No category has two entries: the keys of an object are unique. */
  predicate DistinctCategories(totals: seq<CategoryTotal>)
  {
    totals == [] || (!HasCategory(totals[1..], totals[0].category) && DistinctCategories(totals[1..]))
  }

  /** The total recorded for `c`, or 0 when `c` has no entry. */
  function TotalFor(totals: seq<CategoryTotal>, c: string): real
  {
    if totals == [] then 0.0
    else if totals[0].category == c then totals[0].total
    else TotalFor(totals[1..], c)
  }

  function SumTotals(totals: seq<CategoryTotal>): real
  {
    if totals == [] then 0.0 else totals[0].total + SumTotals(totals[1..])
  }

  /** `acc[c] = (acc[c] || 0) + v`: adds to the existing entry, or appends a new one. */
  function Bump(totals: seq<CategoryTotal>, c: string, v: real): (r: seq<CategoryTotal>)
    ensures forall d :: HasCategory(r, d) <==> HasCategory(totals, d) || d == c
    ensures DistinctCategories(totals) ==> DistinctCategories(r)
    ensures DistinctCategories(totals) ==>
      forall d :: TotalFor(r, d) == TotalFor(totals, d) + (if d == c then v else 0.0)
    ensures SumTotals(r) == SumTotals(totals) + v
  {
    if totals == [] then
      var r := [CategoryTotal(c, v)];
      assert r[1..] == [];
      r
    else if totals[0].category == c then
      var r := [CategoryTotal(c, totals[0].total + v)] + totals[1..];
      assert r[1..] == totals[1..];
      r
    else
      var r := [totals[0]] + Bump(totals[1..], c, v);
      assert r[1..] == Bump(totals[1..], c, v);
      r
  }

  /** Some expense of `xs` has category `c`. */
  predicate Mentions(xs: seq<Entry>, c: string)
  {
    exists e :: e in xs && e.category == c
  }

  lemma MentionsSnoc(init: seq<Entry>, x: Entry)
    ensures forall c :: Mentions(init + [x], c) <==> Mentions(init, c) || x.category == c
  {
    forall c ensures Mentions(init + [x], c) <==> Mentions(init, c) || x.category == c {
      if Mentions(init + [x], c) {
        var e :| e in init + [x] && e.category == c;
        if e != x { assert e in init; }
      }
      if Mentions(init, c) {
        var e :| e in init && e.category == c;
        assert e in init + [x];
      }
      assert x in init + [x];
    }
  }

  /** The `reduce` of `getExpensesByCategory`, one expense after another. */
  function CategoryTotals(xs: seq<Expense>): (r: seq<CategoryTotal>)
    ensures DistinctCategories(r)
    ensures forall c :: HasCategory(r, c) <==> Mentions(xs, c)
    ensures forall c :: TotalFor(r, c) == SumBy(Filter(xs, (e: Entry) => e.category == c), EntryValue)
    ensures SumTotals(r) == SumBy(xs, EntryValue)
    decreases |xs|
  {
    if xs == [] then []
    else
      var init := xs[..|xs| - 1];
      var x := xs[|xs| - 1];
      assert xs == init + [x];
      SumAppend(init, [x], EntryValue);
      MentionsSnoc(init, x);
      CategoryTotalsSnoc(init, x, CategoryTotals(init));
      Bump(CategoryTotals(init), x.category, x.value)
  }

  /** Each category's sum grows by the new expense's value exactly when it has that category. */
  lemma CategoryTotalsSnoc(init: seq<Expense>, x: Expense, prev: seq<CategoryTotal>)
    requires DistinctCategories(prev)
    requires forall c :: TotalFor(prev, c) == SumBy(Filter(init, (e: Entry) => e.category == c), EntryValue)
    ensures forall c :: TotalFor(Bump(prev, x.category, x.value), c) ==
                        SumBy(Filter(init + [x], (e: Entry) => e.category == c), EntryValue)
  {
    forall c ensures TotalFor(Bump(prev, x.category, x.value), c) ==
                     SumBy(Filter(init + [x], (e: Entry) => e.category == c), EntryValue)
    {
      var p := (e: Entry) => e.category == c;
      FilterAppend(init, [x], p);
      assert [x][1..] == [];
      SumAppend(Filter(init, p), Filter([x], p), EntryValue);
    }
  }

  /** `getExpensesByCategory`: per-category sums of the month's expenses.
      The result partitions the month's expense total: a category has an
      entry iff some selected expense has it, each entry holds that
      category's sum, and the entries add up to `calculateTotalExpenses`. */
  function ExpensesByCategory(expenses: seq<Expense>, month: string): (r: seq<CategoryTotal>)
    ensures DistinctCategories(r)
    ensures forall c :: HasCategory(r, c) <==>
      exists e :: e in expenses && (month == "" || StartsWith(e.date, month)) && e.category == c
    ensures forall c ::
              TotalFor(r, c) == SumBy(Filter(ScopeByMonth(expenses, month), (e: Entry) => e.category == c), EntryValue)
    ensures SumTotals(r) == TotalExpenses(expenses, month)
  {
    CategoryTotals(ScopeByMonth(expenses, month))
  }

  /** `getWeeklyAverage`: the total of the expenses dated at or after
      `now - weeks * 7 days`, divided by `weeks` (a flat average). */
  function WeeklyAverage(expenses: seq<Expense>, weeks: nat, nowMs: int): real
    requires weeks > 0
  {
    RecentTotal(expenses, WeeksBefore(nowMs, weeks)) / (weeks as real)
  }

  /** The instant `weeks` whole weeks before `nowMs`. */
  function WeeksBefore(nowMs: int, weeks: nat): int
  {
    nowMs - weeks * 7 * MsPerDay
  }

  function RecentTotal(expenses: seq<Expense>, sinceMs: int): real
  {
    SumBy(Filter(expenses, (e: Entry) => DateAtOrAfter(e.date, sinceMs)), EntryValue)
  }

  /** The average times the number of weeks is the trailing-window total. */
  lemma WeeklyAverageTimes(expenses: seq<Expense>, weeks: nat, nowMs: int)
    requires weeks > 0
    ensures WeeklyAverage(expenses, weeks, nowMs) * (weeks as real) == RecentTotal(expenses, WeeksBefore(nowMs, weeks))
  {
    DivTimes(RecentTotal(expenses, WeeksBefore(nowMs, weeks)), weeks as real);
  }

  /** With non-negative values the weekly average is never negative and
      never above the trailing-window total, nor the all-time total. */
  lemma WeeklyAverageBounds(expenses: seq<Expense>, weeks: nat, nowMs: int)
    requires weeks > 0
    requires forall e :: e in expenses ==> e.value >= 0.0
    ensures 0.0 <= WeeklyAverage(expenses, weeks, nowMs) <= RecentTotal(expenses, WeeksBefore(nowMs, weeks))
    ensures WeeklyAverage(expenses, weeks, nowMs) <= TotalExpenses(expenses, "")
  {
    var since := WeeksBefore(nowMs, weeks);
    RecentBounds(expenses, since);
    AverageBounds(RecentTotal(expenses, since), weeks);
  }

  lemma AverageBounds(total: real, weeks: nat)
    requires weeks > 0 && total >= 0.0
    ensures 0.0 <= total / (weeks as real) <= total
  {
    DivTimes(total, weeks as real);
  }

  /** With non-negative values the trailing-window total lies between 0
      and the all-time total. */
  lemma RecentBounds(expenses: seq<Expense>, since: int)
    requires forall e :: e in expenses ==> e.value >= 0.0
    ensures 0.0 <= RecentTotal(expenses, since) <= TotalExpenses(expenses, "")
  {
    var recent := (e: Entry) => DateAtOrAfter(e.date, since);
    SumFilterAtMost(expenses, recent, EntryValue);
    SumNonNegative(Filter(expenses, recent), EntryValue);
  }

  lemma DivTimes(x: real, w: real)
    requires w > 0.0
    ensures x / w * w == x
  {
  }

  /** `getSavingsPercentage`: 0 without income, otherwise saved as a share of income. */
  function SavingsPercentage(saved: real, totalIncome: real): (r: real)
    ensures totalIncome == 0.0 ==> r == 0.0
    ensures totalIncome != 0.0 ==> r * totalIncome == saved * 100.0
  {
    if totalIncome == 0.0 then 0.0 else saved / totalIncome * 100.0
  }
}
