/** The records of the finance dashboard (src/types/finance.ts) and the
    injected clock that replaces every wall-clock read of the source. */
module FinanceTypes {

  import opened Base

  /** Income and Expense have the same shape; only their category
      vocabularies differ, and those arrive from the store as plain strings. */
  datatype Entry = Entry(
    id: string,
    value: real,
    date: string,
    category: string,
    description: string,
    createdAt: string,
    userId: Option<string>,
    userName: Option<string>)

  type Income = Entry
  type Expense = Entry

  /** One month's occurrence of a recurring bill, scoped by its `month` key. */
  datatype FixedExpense = FixedExpense(
    id: string,
    name: string,
    value: real,
    dueDay: int,
    isPaid: bool,
    month: string,
    createdAt: string,
    paidByUserId: Option<string>,
    paidByUserName: Option<string>,
    paymentDate: Option<string>)

  datatype SavingsGoal = SavingsGoal(id: string, month: string, target: real, createdAt: string)

  datatype PendingIncome = PendingIncome(
    id: string,
    value: real,
    description: string,
    category: string,
    expectedDate: string,
    createdDate: string,
    userId: string,
    userName: string,
    converted: bool,
    createdAt: string)

  datatype FinancialData = FinancialData(
    incomes: seq<Income>,
    expenses: seq<Expense>,
    fixedExpenses: seq<FixedExpense>,
    savingsGoals: seq<SavingsGoal>,
    pendingIncomes: seq<PendingIncome>)

  const EmptyData: FinancialData := FinancialData([], [], [], [], [])

  datatype NoticeKind = Warning | Success | Info

  datatype Notification = Notification(
    id: string,
    kind: NoticeKind,
    message: string,
    timestamp: string,
    read: bool)

  datatype User = User(id: string, phone: string, name: string)

  /** Everything the source reads from `new Date()` / `Date.now()`:
      the local month key `YYYY-MM`, today's date as `toISOString` prints it,
      today's day number (see Dates), today's day of the month, and now in ms. */
  datatype Clock = Clock(month: string, today: string, todayDay: int, dayOfMonth: int, nowMs: int)

  /** `goals.find(g => g.month === month)`: the first goal of that month. */
  function FindGoal(goals: seq<SavingsGoal>, month: string): (r: Option<SavingsGoal>)
    ensures r.None? <==> forall g :: g in goals ==> g.month != month
    ensures r.Some? ==> exists k :: 0 <= k < |goals| && goals[k] == r.value && r.value.month == month
                          && forall j :: 0 <= j < k ==> goals[j].month != month
  {
    if goals == [] then None
    else if goals[0].month == month then Some(goals[0])
    else
      var r := FindGoal(goals[1..], month);
      assert goals == [goals[0]] + goals[1..];
      if r.Some? then
        var k :| 0 <= k < |goals[1..]| && goals[1..][k] == r.value && r.value.month == month
                 && forall j :: 0 <= j < k ==> goals[1..][j].month != month;
        assert goals[k + 1] == r.value;
        r
      else r
  }
}
