/** The derivations of src/views/History.tsx for a selected month: the
    summary figures, the merged list of movements under a type filter,
    newest first, and the expenses per user. */
module History {

  import opened Base
  import opened Text
  import opened Dates
  import opened FinanceTypes
  import opened Calculations
  import Dashboard

  datatype Summary = Summary(
    totalIncome: real,
    totalExpenses: real,
    totalFixed: real,
    totalAllExpenses: real,
    totalFixedPaid: real,
    balance: real,
    savings: real,
    goal: real,
    savingsProgress: real,
    totalPending: real)

  /** Lines 37-57. */
  function SummaryOf(data: FinancialData, month: string): Summary
  {
    Assemble(TotalIncome(data.incomes, month), TotalExpenses(data.expenses, month),
             SumBy(FixedOfMonth(data.fixedExpenses, month), FixedValue),
             SumBy(PaidFixedOfMonth(data.fixedExpenses, month), FixedValue),
             FindGoal(data.savingsGoals, month), Dashboard.PendingToReceive(data.pendingIncomes))
  }

  /** The summary object built from the month's totals. */
  function Assemble(totalIncome: real, totalExpenses: real, totalFixed: real, totalFixedPaid: real,
                    goal: Option<SavingsGoal>, totalPending: real): (r: Summary)
    ensures r.balance == r.savings == totalIncome - totalExpenses - totalFixedPaid
    ensures r.totalAllExpenses == r.totalExpenses + r.totalFixedPaid && r.balance == r.totalIncome - r.totalAllExpenses
    ensures r.goal == if goal.Some? then goal.value.target else 0.0
    ensures r.savingsProgress == if goal.Some? then SavingsProgress(r.savings, goal.value.target) else 0.0
    ensures r.totalPending == totalPending
  {
    var balance := totalIncome - totalExpenses - totalFixedPaid;
    var savings := totalIncome - totalExpenses - totalFixedPaid;
    Summary(totalIncome, totalExpenses, totalFixed, totalExpenses + totalFixedPaid, totalFixedPaid,
            balance, savings,
            if goal.Some? then goal.value.target else 0.0,
            if goal.Some? then SavingsProgress(savings, goal.value.target) else 0.0,
            totalPending)
  }

  /** Balance and savings are the same figure, the month's savings as
      `calculateSavings` has it, and the pending total is the dashboard's,
      over every unconverted pending income. */
  lemma SummaryFacts(data: FinancialData, month: string)
    ensures SummaryOf(data, month).balance == SummaryOf(data, month).savings
    ensures SummaryOf(data, month).savings == Savings(data.incomes, data.expenses, data.fixedExpenses, month)
    ensures SummaryOf(data, month).totalPending == Dashboard.PendingToReceive(data.pendingIncomes)
  {
  }

  /** The progress is 0 for a month without a goal and the clamped
      progress of the month's savings towards the goal otherwise. */
  lemma SummaryProgress(data: FinancialData, month: string)
    ensures FindGoal(data.savingsGoals, month).None? ==> SummaryOf(data, month).savingsProgress == 0.0
    ensures FindGoal(data.savingsGoals, month).Some? ==>
      SummaryOf(data, month).savingsProgress <= 100.0 &&
      SummaryOf(data, month).savingsProgress ==
        SavingsProgress(Savings(data.incomes, data.expenses, data.fixedExpenses, month),
                        FindGoal(data.savingsGoals, month).value.target)
  {
    SummaryFacts(data, month);
  }

  // ---- The merged movement list -------------------------------------------

  datatype ItemKind = IncomeItem | ExpenseItem | FixedItem | PendingItem

  /** `filterType`. */
  datatype Show = All | Only(kind: ItemKind)

  predicate Allows(show: Show, kind: ItemKind)
  {
    show.All? || show.kind == kind
  }

  /** `HistoryItem`. */
  datatype Item = Item(
    id: string,
    kind: ItemKind,
    date: string,
    value: real,
    category: string,
    description: string,
    userName: Option<string>)

  function EntryItem(kind: ItemKind, e: Entry): Item
  {
    Item(e.id, kind, e.date, e.value, e.category, e.description, e.userName)
  }

  function IncomeToItem(e: Income): Item
  {
    EntryItem(IncomeItem, e)
  }

  function ExpenseToItem(e: Expense): Item
  {
    EntryItem(ExpenseItem, e)
  }

  /** Lines 97-106: dated by the payment (empty when there is none), with
      the payer's name in a template string. The remote store loads a bill
      without a payer with a null name, which the template prints as `null`. */
  function FixedToItem(f: FixedExpense): Item
  {
    var payer := match f.paidByUserName case Some(n) => n case None => "null";
    Item(f.id, FixedItem, match f.paymentDate case Some(d) => d case None => "",
         f.value, f.name, "Pago por: " + payer, f.paidByUserName)
  }

  function PendingToItem(p: PendingIncome): Item
  {
    Item(p.id, PendingItem, p.expectedDate, p.value, p.category, p.description, Some(p.userName))
  }

  function EntryInMonth(month: string): Entry -> bool
  {
    (e: Entry) => StartsWith(e.date, month)
  }

  function PaidInMonth(month: string): FixedExpense -> bool
  {
    (f: FixedExpense) => f.month == month && f.isPaid
  }

  function ConvertedInMonth(month: string): PendingIncome -> bool
  {
    (p: PendingIncome) => p.converted && StartsWith(p.expectedDate, month)
  }

  function IncomeItems(data: FinancialData, month: string): seq<Item>
  {
    Map(Filter(data.incomes, EntryInMonth(month)), IncomeToItem)
  }

  function ExpenseItems(data: FinancialData, month: string): seq<Item>
  {
    Map(Filter(data.expenses, EntryInMonth(month)), ExpenseToItem)
  }

  function FixedItems(data: FinancialData, month: string): seq<Item>
  {
    Map(Filter(data.fixedExpenses, PaidInMonth(month)), FixedToItem)
  }

  function PendingItems(data: FinancialData, month: string): seq<Item>
  {
    Map(Filter(data.pendingIncomes, ConvertedInMonth(month)), PendingToItem)
  }

  /** What one source contributes under the filter. */
  function Part(show: Show, kind: ItemKind, items: seq<Item>): seq<Item>
  {
    if Allows(show, kind) then items else []
  }

  /** The items pushed before sorting, in push order. */
  function Collected(data: FinancialData, month: string, show: Show): seq<Item>
  {
    Part(show, IncomeItem, IncomeItems(data, month))
    + Part(show, ExpenseItem, ExpenseItems(data, month))
    + Part(show, FixedItem, FixedItems(data, month))
    + Part(show, PendingItem, PendingItems(data, month))
  }

  /** `new Date(date).getTime()` in days; a date that does not parse gives
      NaN in the source, placed at day 0 here. */
  function DayOf(it: Item): int
  {
    match ParseDate(it.date)
    case Some(d) => d
    case None => 0
  }

  function NewestFirst(it: Item): real
  {
    -(DayOf(it) as real)
  }

  /** Lines 59-127, `transactions`. */
  method Transactions(data: FinancialData, month: string, show: Show) returns (items: seq<Item>)
    ensures items == SortByKey(Collected(data, month, show), NewestFirst)
  {
    items := [];
    if Allows(show, IncomeItem) {
      items := PushAll(items, Filter(data.incomes, EntryInMonth(month)), IncomeToItem);
    }
    ghost var a := items;
    assert a == Part(show, IncomeItem, IncomeItems(data, month));
    if Allows(show, ExpenseItem) {
      items := PushAll(items, Filter(data.expenses, EntryInMonth(month)), ExpenseToItem);
    }
    assert items == a + Part(show, ExpenseItem, ExpenseItems(data, month));
    ghost var b := items;
    if Allows(show, FixedItem) {
      items := PushAll(items, Filter(data.fixedExpenses, PaidInMonth(month)), FixedToItem);
    }
    assert items == b + Part(show, FixedItem, FixedItems(data, month));
    ghost var c := items;
    if Allows(show, PendingItem) {
      items := PushAll(items, Filter(data.pendingIncomes, ConvertedInMonth(month)), PendingToItem);
    }
    assert items == c + Part(show, PendingItem, PendingItems(data, month));
    items := SortByKey(items, NewestFirst);
  }

  /** The list is newest first, and holds exactly what was collected. */
  lemma TransactionsOrdered(data: FinancialData, month: string, show: Show)
    ensures forall i, j :: 0 <= i < j < |SortByKey(Collected(data, month, show), NewestFirst)| ==>
      DayOf(SortByKey(Collected(data, month, show), NewestFirst)[i]) >= DayOf(SortByKey(Collected(data, month, show), NewestFirst)[j])
    ensures forall it :: it in SortByKey(Collected(data, month, show), NewestFirst) <==> it in Collected(data, month, show)
  {
    var c := Collected(data, month, show);
    var r := SortByKey(c, NewestFirst);
    NewestFirstOrder(r);
    SameMembers(r, c);
  }

  /** Items of the same day (the same sort key `k`, a negated day number)
      keep the order in which they were collected: incomes, then expenses,
      bills and credited pending incomes, each in list order, because the
      sort is stable. */
  lemma SameDayKeepsCollectedOrder(collected: seq<Item>, k: real)
    ensures Filter(SortByKey(collected, NewestFirst), KeyIs(NewestFirst, k)) ==
      Filter(collected, KeyIs(NewestFirst, k))
  {
    SortStable(collected, NewestFirst, k);
  }

  lemma NewestFirstOrder(r: seq<Item>)
    requires SortedByKey(r, NewestFirst)
    ensures forall i, j :: 0 <= i < j < |r| ==> DayOf(r[i]) >= DayOf(r[j])
  {
    forall i, j | 0 <= i < j < |r| ensures DayOf(r[i]) >= DayOf(r[j]) {
      assert NewestFirst(r[i]) <= NewestFirst(r[j]);
    }
  }

  lemma SameMembers<T>(r: seq<T>, c: seq<T>)
    requires multiset(r) == multiset(c)
    ensures forall x :: x in r <==> x in c
  {
    forall x ensures x in r <==> x in c {
      assert x in r <==> x in multiset(r);
      assert x in c <==> x in multiset(c);
    }
  }

  lemma MapMember<T, U>(xs: seq<T>, f: T -> U, y: U)
    requires y in Map(xs, f)
    ensures exists x :: x in xs && y == f(x)
  {
    var i :| 0 <= i < |xs| && Map(xs, f)[i] == y;
    assert xs[i] in xs;
  }

  lemma MapHas<T, U>(xs: seq<T>, f: T -> U, x: T)
    requires x in xs
    ensures f(x) in Map(xs, f)
  {
    var i :| 0 <= i < |xs| && xs[i] == x;
    assert Map(xs, f)[i] == f(x);
  }

  /** Lines 62-124: every item is of a type the filter allows; fixed items
      come only from paid fixed expenses of the month, pending items only
      from converted pending incomes expected in the month, and incomes and
      expenses only from records dated in the month. */
  lemma CollectedSources(data: FinancialData, month: string, show: Show, it: Item)
    requires it in Collected(data, month, show)
    ensures Allows(show, it.kind)
    ensures it.kind == IncomeItem ==> exists e :: e in data.incomes && StartsWith(e.date, month) && it == IncomeToItem(e)
    ensures it.kind == ExpenseItem ==> exists e :: e in data.expenses && StartsWith(e.date, month) && it == ExpenseToItem(e)
    ensures it.kind == FixedItem ==> exists f :: f in data.fixedExpenses && f.month == month && f.isPaid && it == FixedToItem(f)
    ensures it.kind == PendingItem ==>
      exists p :: p in data.pendingIncomes && p.converted && StartsWith(p.expectedDate, month) && it == PendingToItem(p)
  {
    if Allows(show, IncomeItem) && it in IncomeItems(data, month) {
      MapMember(Filter(data.incomes, EntryInMonth(month)), IncomeToItem, it);
    } else if Allows(show, ExpenseItem) && it in ExpenseItems(data, month) {
      MapMember(Filter(data.expenses, EntryInMonth(month)), ExpenseToItem, it);
    } else if Allows(show, FixedItem) && it in FixedItems(data, month) {
      MapMember(Filter(data.fixedExpenses, PaidInMonth(month)), FixedToItem, it);
    } else {
      MapMember(Filter(data.pendingIncomes, ConvertedInMonth(month)), PendingToItem, it);
    }
  }

  /** With the filter at `all`, all four sources contribute every record
      that qualifies. */
  lemma CollectedComplete(data: FinancialData, month: string)
    ensures forall e :: e in data.incomes && StartsWith(e.date, month) ==> IncomeToItem(e) in Collected(data, month, All)
    ensures forall e :: e in data.expenses && StartsWith(e.date, month) ==> ExpenseToItem(e) in Collected(data, month, All)
    ensures forall f :: f in data.fixedExpenses && f.month == month && f.isPaid ==> FixedToItem(f) in Collected(data, month, All)
    ensures forall p :: p in data.pendingIncomes && p.converted && StartsWith(p.expectedDate, month) ==>
      PendingToItem(p) in Collected(data, month, All)
    ensures |Collected(data, month, All)| ==
      |Filter(data.incomes, EntryInMonth(month))| + |Filter(data.expenses, EntryInMonth(month))| +
      |Filter(data.fixedExpenses, PaidInMonth(month))| + |Filter(data.pendingIncomes, ConvertedInMonth(month))|
  {
    forall e | e in data.incomes && StartsWith(e.date, month) ensures IncomeToItem(e) in Collected(data, month, All) {
      MapHas(Filter(data.incomes, EntryInMonth(month)), IncomeToItem, e);
    }
    forall e | e in data.expenses && StartsWith(e.date, month) ensures ExpenseToItem(e) in Collected(data, month, All) {
      MapHas(Filter(data.expenses, EntryInMonth(month)), ExpenseToItem, e);
    }
    forall f | f in data.fixedExpenses && f.month == month && f.isPaid ensures FixedToItem(f) in Collected(data, month, All) {
      MapHas(Filter(data.fixedExpenses, PaidInMonth(month)), FixedToItem, f);
    }
    forall p | p in data.pendingIncomes && p.converted && StartsWith(p.expectedDate, month)
      ensures PendingToItem(p) in Collected(data, month, All)
    {
      MapHas(Filter(data.pendingIncomes, ConvertedInMonth(month)), PendingToItem, p);
    }
  }

  // ---- Expenses per user ----------------------------------------------------

  function ByUser(u: string): Expense -> bool
  {
    (e: Expense) => e.userName == Some(u)
  }

  /** Some expense of the list was entered by `u`. */
  predicate SpentBy(es: seq<Expense>, u: string)
  {
    exists e :: e in es && e.userName == Some(u)
  }

  /** The map holds one entry per non-empty user name of the list, with the
      sum of that user's expenses. */
  ghost predicate Tallies(totals: map<string, real>, es: seq<Expense>)
  {
    (forall u :: u in totals <==> u != "" && SpentBy(es, u)) &&
    (forall u :: u in totals ==> totals[u] == SumBy(Filter(es, ByUser(u)), EntryValue))
  }

  /** Lines 134-138: one expense added to the running map; an expense
      without a user name, or with an empty one, is skipped. */
  function Tally(totals: map<string, real>, e: Expense): map<string, real>
  {
    if e.userName.Some? && e.userName.value != "" then
      var u := e.userName.value;
      totals[u := (if u in totals then totals[u] else 0.0) + e.value]
    else totals
  }

  /** Lines 129-141, `userExpenses`: the month's expenses tallied per user. */
  method UserExpenses(expenses: seq<Expense>, month: string) returns (totals: map<string, real>)
    ensures Tallies(totals, Filter(expenses, EntryInMonth(month)))
  {
    var es := Filter(expenses, EntryInMonth(month));
    totals := map[];
    var i := 0;
    while i < |es|
      invariant 0 <= i <= |es|
      invariant Tallies(totals, es[..i])
    {
      TallyPrefix(totals, es, i);
      totals := Tally(totals, es[i]);
      i := i + 1;
    }
    assert es[..|es|] == es;
  }

  /** The tally of the first `i + 1` expenses. */
  lemma TallyPrefix(totals: map<string, real>, es: seq<Expense>, i: nat)
    requires i < |es| && Tallies(totals, es[..i])
    ensures Tallies(Tally(totals, es[i]), es[..i + 1])
  {
    assert es[..i + 1] == es[..i] + [es[i]];
    TallyStep(totals, es[..i], es[i]);
  }

  lemma TallyStep(totals: map<string, real>, es: seq<Expense>, e: Expense)
    requires Tallies(totals, es)
    ensures Tallies(Tally(totals, e), es + [e])
  {
    TallyKeys(totals, es, e);
    TallySums(totals, es, e);
  }

  lemma TallyKeys(totals: map<string, real>, es: seq<Expense>, e: Expense)
    requires forall u :: u in totals <==> u != "" && SpentBy(es, u)
    ensures forall u :: u in Tally(totals, e) <==> u != "" && SpentBy(es + [e], u)
  {
    forall u ensures u in Tally(totals, e) <==> u != "" && SpentBy(es + [e], u) {
      SpentStep(es, e, u);
    }
  }

  lemma TallySums(totals: map<string, real>, es: seq<Expense>, e: Expense)
    requires Tallies(totals, es)
    ensures forall u :: u in Tally(totals, e) ==> Tally(totals, e)[u] == SumBy(Filter(es + [e], ByUser(u)), EntryValue)
  {
    var t := Tally(totals, e);
    forall u | u in t ensures t[u] == SumBy(Filter(es + [e], ByUser(u)), EntryValue) {
      SumStep(es, e, u);
      if e.userName == Some(u) && !SpentBy(es, u) {
        NoneByUser(es, u);
      }
    }
  }

  lemma {:induction false} NoneByUser(es: seq<Expense>, u: string)
    requires !SpentBy(es, u)
    ensures Filter(es, ByUser(u)) == []
  {
    if es != [] {
      assert es[0] in es;
      assert forall x :: x in es[1..] ==> x in es;
      NoneByUser(es[1..], u);
    }
  }

  /** Appending one expense adds its own user, and no other. */
  lemma SpentStep(es: seq<Expense>, e: Expense, u: string)
    ensures SpentBy(es + [e], u) <==> SpentBy(es, u) || e.userName == Some(u)
  {
    if SpentBy(es + [e], u) {
      var x :| x in es + [e] && x.userName == Some(u);
      if x != e {
        assert x in es;
      }
    }
    if SpentBy(es, u) {
      var x :| x in es && x.userName == Some(u);
      assert x in es + [e];
    }
    if e.userName == Some(u) {
      assert e in es + [e];
    }
  }

  /** Appending one expense adds its value to its own user's sum only. */
  lemma SumStep(es: seq<Expense>, e: Expense, u: string)
    ensures SumBy(Filter(es + [e], ByUser(u)), EntryValue) ==
      SumBy(Filter(es, ByUser(u)), EntryValue) + (if e.userName == Some(u) then e.value else 0.0)
  {
    FilterAppend(es, [e], ByUser(u));
    FilterSingle(e, ByUser(u));
    SumAppend(Filter(es, ByUser(u)), Filter([e], ByUser(u)), EntryValue);
  }
}
