/** The remote-backed store of src/context/FinanceContextSupabase.tsx.
    Every read and write of the database becomes data: the rows a load
    receives are parameters, and each write the store would send is
    returned as a value (`NewTransaction`, a field map for an update, a
    `GoalWrite`, a `RemoteWrite`). Whether a write succeeded is a parameter
    too. What stays is the logic around those calls: how rows are sorted
    into collections, which keys an update carries, the upsert and
    conversion decisions, the user guards and the optimistic prepend. */
module RemoteStore {

  import opened Base
  import opened FinanceTypes
  import opened Notices
  import FinanceContext

  /** One row of the `transactions` table as the store reads it. */
  datatype TransactionRow = TransactionRow(
    id: string,
    kind: string,
    status: string,
    value: real,
    transactionDate: string,
    expectedDate: string,
    category: string,
    description: string,
    userId: string,
    userName: string,
    createdAt: string)

  predicate IsIncomeRow(t: TransactionRow) { t.kind == "income" && t.status == "completed" }
  predicate IsExpenseRow(t: TransactionRow) { t.kind == "expense" && t.status == "completed" }
  predicate IsPendingRow(t: TransactionRow) { t.kind == "pending_income" && t.status != "converted" }

  function RowToEntry(t: TransactionRow): Entry
  {
    Entry(t.id, t.value, t.transactionDate, t.category, t.description, t.createdAt, Some(t.userId), Some(t.userName))
  }

  function RowToPending(t: TransactionRow): PendingIncome
  {
    PendingIncome(t.id, t.value, t.description, t.category, t.expectedDate, t.transactionDate,
                  t.userId, t.userName, t.status == "converted", t.createdAt)
  }

  /** The three lists a load produces, as a specification: each is the
      rows of its class, converted, in the order the rows arrived. */
  function LoadedIncomes(rows: seq<TransactionRow>): seq<Income> { Map(Filter(rows, IsIncomeRow), RowToEntry) }
  function LoadedExpenses(rows: seq<TransactionRow>): seq<Expense> { Map(Filter(rows, IsExpenseRow), RowToEntry) }
  function LoadedPending(rows: seq<TransactionRow>): seq<PendingIncome> { Map(Filter(rows, IsPendingRow), RowToPending) }

  /** The `forEach` of `loadFinancialData`: one pass that pushes each row
      onto the list its type and status select, and drops every other row. */
  method Classify(rows: seq<TransactionRow>) returns (incomes: seq<Income>, expenses: seq<Expense>, pending: seq<PendingIncome>)
    ensures incomes == LoadedIncomes(rows)
    ensures expenses == LoadedExpenses(rows)
    ensures pending == LoadedPending(rows)
    ensures forall p :: p in pending ==> !p.converted
    ensures |incomes| + |expenses| + |pending| <= |rows|
  {
    incomes, expenses, pending := [], [], [];
    var i := 0;
    while i < |rows|
      invariant 0 <= i <= |rows|
      invariant incomes == LoadedIncomes(rows[..i])
      invariant expenses == LoadedExpenses(rows[..i])
      invariant pending == LoadedPending(rows[..i])
    {
      var t := rows[i];
      ClassifyPrefix(rows, i);
      if IsIncomeRow(t) {
        incomes := incomes + [RowToEntry(t)];
      } else if IsExpenseRow(t) {
        expenses := expenses + [RowToEntry(t)];
      } else if IsPendingRow(t) {
        pending := pending + [RowToPending(t)];
      }
      i := i + 1;
    }
    assert rows[..|rows|] == rows;
    LoadedPendingUnconverted(rows);
    ClassifyCount(rows);
  }

  /** Every row lands in at most one list. */
  lemma {:induction false} ClassifyCount(rows: seq<TransactionRow>)
    ensures |LoadedIncomes(rows)| + |LoadedExpenses(rows)| + |LoadedPending(rows)| <= |rows|
  {
    if rows != [] {
      var init, t := rows[..|rows| - 1], rows[|rows| - 1];
      ClassifyCount(init);
      assert rows == init + [t];
      ClassifyStep(init, t);
      ClassesDisjoint(t);
    }
  }

  /** The lists of the first `i + 1` rows. */
  lemma ClassifyPrefix(rows: seq<TransactionRow>, i: nat)
    requires i < |rows|
    ensures IsIncomeRow(rows[i]) ==> LoadedIncomes(rows[..i + 1]) == LoadedIncomes(rows[..i]) + [RowToEntry(rows[i])]
    ensures !IsIncomeRow(rows[i]) ==> LoadedIncomes(rows[..i + 1]) == LoadedIncomes(rows[..i])
    ensures IsExpenseRow(rows[i]) ==> LoadedExpenses(rows[..i + 1]) == LoadedExpenses(rows[..i]) + [RowToEntry(rows[i])]
    ensures !IsExpenseRow(rows[i]) ==> LoadedExpenses(rows[..i + 1]) == LoadedExpenses(rows[..i])
    ensures IsPendingRow(rows[i]) ==> LoadedPending(rows[..i + 1]) == LoadedPending(rows[..i]) + [RowToPending(rows[i])]
    ensures !IsPendingRow(rows[i]) ==> LoadedPending(rows[..i + 1]) == LoadedPending(rows[..i])
    ensures !(IsIncomeRow(rows[i]) && IsExpenseRow(rows[i]))
    ensures !(IsIncomeRow(rows[i]) && IsPendingRow(rows[i]))
    ensures !(IsExpenseRow(rows[i]) && IsPendingRow(rows[i]))
  {
    assert rows[..i + 1] == rows[..i] + [rows[i]];
    ClassifyStep(rows[..i], rows[i]);
    ClassesDisjoint(rows[i]);
  }

  /** One more row extends the list of its class by its conversion and
      leaves the other two lists as they were. */
  lemma ClassifyStep(prefix: seq<TransactionRow>, t: TransactionRow)
    ensures LoadedIncomes(prefix + [t]) == LoadedIncomes(prefix) + (if IsIncomeRow(t) then [RowToEntry(t)] else [])
    ensures LoadedExpenses(prefix + [t]) == LoadedExpenses(prefix) + (if IsExpenseRow(t) then [RowToEntry(t)] else [])
    ensures LoadedPending(prefix + [t]) == LoadedPending(prefix) + (if IsPendingRow(t) then [RowToPending(t)] else [])
  {
    FilterMapSnoc(prefix, t, IsIncomeRow, RowToEntry);
    FilterMapSnoc(prefix, t, IsExpenseRow, RowToEntry);
    FilterMapSnoc(prefix, t, IsPendingRow, RowToPending);
  }

  /** Every loaded pending income is unconverted: converted rows are
      dropped before the flag is computed. */
  lemma LoadedPendingUnconverted(rows: seq<TransactionRow>)
    ensures forall p :: p in LoadedPending(rows) ==> !p.converted
  {
    var f := Filter(rows, IsPendingRow);
    forall p | p in LoadedPending(rows) ensures !p.converted {
      var j :| 0 <= j < |f| && LoadedPending(rows)[j] == p;
      assert f[j] in f;
    }
  }

  /** A row lands in at most one list: the three classes are disjoint. */
  lemma ClassesDisjoint(t: TransactionRow)
    ensures !(IsIncomeRow(t) && IsExpenseRow(t))
    ensures !(IsIncomeRow(t) && IsPendingRow(t))
    ensures !(IsExpenseRow(t) && IsPendingRow(t))
  {
  }

  /** The columns a write carries, by type. */
  datatype Field = Num(real) | Whole(int) | Text(string) | Flag(bool)

  /** A row sent by `insert` into `transactions`. */
  datatype NewTransaction = NewTransaction(
    kind: string,
    value: real,
    transactionDate: string,
    category: string,
    description: string,
    status: string,
    userId: string,
    userName: string,
    expectedDate: Option<string>,
    convertedFrom: Option<string>)

  /** JavaScript `a || b` on an optional string: the empty string is falsy. */
  function OrElse(a: Option<string>, b: string): (r: string)
    ensures a.Some? && a.value != "" ==> r == a.value
    ensures !(a.Some? && a.value != "") ==> r == b
  {
    if a.Some? && a.value != "" then a.value else b
  }

  /** The insert `addIncome` / `addExpense` sends for a logged-in user: a
      completed transaction owned by the record's user, or by the current
      user when the record names none. Without a user nothing is sent. */
  function EntryInsert(kind: string, draft: Entry, user: Option<User>): (r: Option<NewTransaction>)
    ensures r.None? <==> user.None?
    ensures r.Some? ==> r.value.kind == kind && r.value.status == "completed"
    ensures r.Some? ==> r.value.value == draft.value && r.value.transactionDate == draft.date
    ensures r.Some? ==> r.value.category == draft.category && r.value.description == draft.description
    ensures r.Some? ==> r.value.userId == OrElse(draft.userId, user.value.id)
    ensures r.Some? ==> r.value.userName == OrElse(draft.userName, user.value.name)
    ensures r.Some? ==> r.value.expectedDate.None? && r.value.convertedFrom.None?
  {
    match user
    case None => None
    case Some(u) =>
      Some(NewTransaction(kind, draft.value, draft.date, draft.category, draft.description, "completed",
                          OrElse(draft.userId, u.id), OrElse(draft.userName, u.name), None, None))
  }

  /** The insert `addPendingIncome` sends: status `pending`, the record's
      own user, and its expected date. Without a user nothing is sent. */
  function PendingInsert(draft: PendingIncome, user: Option<User>): (r: Option<NewTransaction>)
    ensures r.None? <==> user.None?
    ensures r.Some? ==> r.value.kind == "pending_income" && r.value.status == "pending"
    ensures r.Some? ==> r.value.transactionDate == draft.createdDate && r.value.expectedDate == Some(draft.expectedDate)
    ensures r.Some? ==> r.value.userId == draft.userId && r.value.value == draft.value
  {
    if user.None? then None
    else Some(NewTransaction("pending_income", draft.value, draft.createdDate, draft.category, draft.description,
                             "pending", draft.userId, draft.userName, Some(draft.expectedDate), None))
  }

  /** A pending record once stored reads back as a pending income: the
      row built from the insert is classified as pending, unconverted,
      with the same value, dates and user. */
  lemma PendingInsertReadsBack(draft: PendingIncome, u: User, rowId: string, createdAt: string)
    ensures var t := RowFromInsert(PendingInsert(draft, Some(u)).value, rowId, createdAt);
      IsPendingRow(t) && !RowToPending(t).converted &&
      RowToPending(t) == draft.(id := rowId, converted := false, createdAt := createdAt)
  {
  }

  /** The row the table holds after an insert, with the id and creation
      time the database assigns. */
  function RowFromInsert(n: NewTransaction, rowId: string, createdAt: string): TransactionRow
  {
    TransactionRow(rowId, n.kind, n.status, n.value, n.transactionDate,
                   if n.expectedDate.Some? then n.expectedDate.value else "",
                   n.category, n.description, n.userId, n.userName, createdAt)
  }

  /** The `updateData` object of `updateIncome` / `updateExpense`, built key by key. */
  method TransactionUpdate(p: FinanceContext.EntryPatch) returns (u: map<string, Field>)
    ensures u.Keys <= {"value", "transaction_date", "category", "description"}
    ensures "value" in u <==> p.value.Some?
    ensures "transaction_date" in u <==> p.date.Some?
    ensures "category" in u <==> p.category.Some?
    ensures "description" in u <==> p.description.Some?
    ensures p.value.Some? ==> u["value"] == Num(p.value.value)
    ensures p.date.Some? ==> u["transaction_date"] == Text(p.date.value)
    ensures p.category.Some? ==> u["category"] == Text(p.category.value)
    ensures p.description.Some? ==> u["description"] == Text(p.description.value)
  {
    u := map[];
    if p.value.Some? {
      u := u["value" := Num(p.value.value)];
    }
    if p.date.Some? {
      u := u["transaction_date" := Text(p.date.value)];
    }
    if p.category.Some? {
      u := u["category" := Text(p.category.value)];
    }
    if p.description.Some? {
      u := u["description" := Text(p.description.value)];
    }
  }

  /** The `updateData` object of `updateFixedExpense`: only the keys the
      patch carries, plus the payer and payment date when the patch marks
      the bill paid while someone is logged in. No expense is recorded
      here, unlike the in-browser store. */
  method FixedExpenseUpdate(p: FinanceContext.FixedPatch, user: Option<User>, today: string)
    returns (u: map<string, Field>)
    ensures u.Keys <= {"name", "value", "due_day", "is_paid", "paid_by_user_id", "paid_by_user_name", "payment_date"}
    ensures "name" in u <==> p.name.Some?
    ensures "value" in u <==> p.value.Some?
    ensures "due_day" in u <==> p.dueDay.Some?
    ensures "is_paid" in u <==> p.isPaid.Some?
    ensures "paid_by_user_id" in u <==> p.isPaid == Some(true) && user.Some?
    ensures "paid_by_user_name" in u <==> p.isPaid == Some(true) && user.Some?
    ensures "payment_date" in u <==> p.isPaid == Some(true) && user.Some?
    ensures p.name.Some? ==> u["name"] == Text(p.name.value)
    ensures p.value.Some? ==> u["value"] == Num(p.value.value)
    ensures p.dueDay.Some? ==> u["due_day"] == Whole(p.dueDay.value)
    ensures p.isPaid.Some? ==> u["is_paid"] == Flag(p.isPaid.value)
    ensures p.isPaid == Some(true) && user.Some? ==>
      u["paid_by_user_id"] == Text(user.value.id) && u["paid_by_user_name"] == Text(user.value.name)
      && u["payment_date"] == Text(today)
  {
    u := map[];
    if p.name.Some? {
      u := u["name" := Text(p.name.value)];
    }
    if p.value.Some? {
      u := u["value" := Num(p.value.value)];
    }
    if p.dueDay.Some? {
      u := u["due_day" := Whole(p.dueDay.value)];
    }
    if p.isPaid.Some? {
      u := u["is_paid" := Flag(p.isPaid.value)];
      if p.isPaid.value && user.Some? {
        u := u["paid_by_user_id" := Text(user.value.id)];
        u := u["paid_by_user_name" := Text(user.value.name)];
        u := u["payment_date" := Text(today)];
      }
    }
  }

  /** The write `setSavingsGoal` sends. */
  datatype GoalWrite = UpdateTarget(goalId: string, target: real) | InsertGoal(month: string, target: real)

  /** Update the target of the month's goal when the snapshot has one,
      insert `{ month, target }` otherwise. */
  function GoalCommand(goals: seq<SavingsGoal>, month: string, target: real): (r: GoalWrite)
    ensures r.UpdateTarget? <==> exists g :: g in goals && g.month == month
    ensures r.UpdateTarget? ==> r.goalId == FindGoal(goals, month).value.id && r.target == target
    ensures r.InsertGoal? ==> r == InsertGoal(month, target)
  {
    match FindGoal(goals, month)
    case Some(g) => UpdateTarget(g.id, target)
    case None => InsertGoal(month, target)
  }

  /** What the table holds after the write succeeds. */
  function ApplyGoalWrite(goals: seq<SavingsGoal>, w: GoalWrite, newId: string, now: string): seq<SavingsGoal>
  {
    match w
    case UpdateTarget(gid, t) => ReplaceWhere(goals, (g: SavingsGoal) => g.id == gid, (g: SavingsGoal) => g.(target := t))
    case InsertGoal(m, t) => goals + [SavingsGoal(newId, m, t, now)]
  }

  predicate UniqueGoalIds(goals: seq<SavingsGoal>)
  {
    forall i, j :: 0 <= i < j < |goals| ==> goals[i].id != goals[j].id
  }

  /** Both stores agree: with unique ids and one goal per month, the
      remote write leaves the table as the in-browser upsert leaves its list. */
  lemma GoalWriteMatchesLocalUpsert(goals: seq<SavingsGoal>, month: string, target: real, newId: string, now: string)
    requires UniqueGoalIds(goals) && FinanceContext.OneGoalPerMonth(goals)
    ensures ApplyGoalWrite(goals, GoalCommand(goals, month, target), newId, now)
         == FinanceContext.UpsertGoal(goals, month, target, newId, now)
  {
    var found := FindGoal(goals, month);
    if found.Some? {
      var k :| 0 <= k < |goals| && goals[k] == found.value && found.value.month == month
               && forall j :: 0 <= j < k ==> goals[j].month != month;
      SameIdSameMonth(goals, k);
      ReplaceSamePick(goals, (g: SavingsGoal) => g.id == goals[k].id, (g: SavingsGoal) => g.month == month,
                      (g: SavingsGoal) => g.(target := target));
    }
  }

  /** In a list with unique ids and one goal per month, the goal at `k` is
      the only one with its id and the only one of its month. */
  lemma SameIdSameMonth(goals: seq<SavingsGoal>, k: nat)
    requires k < |goals| && UniqueGoalIds(goals) && FinanceContext.OneGoalPerMonth(goals)
    ensures forall i :: 0 <= i < |goals| ==> (goals[i].id == goals[k].id <==> goals[i].month == goals[k].month)
  {
    forall i | 0 <= i < |goals| ensures goals[i].id == goals[k].id <==> goals[i].month == goals[k].month {
      if i < k {
        assert goals[i].id != goals[k].id && goals[i].month != goals[k].month;
      } else if i > k {
        assert goals[k].id != goals[i].id && goals[k].month != goals[i].month;
      }
    }
  }

  lemma ReplaceSamePick<T>(xs: seq<T>, p: T -> bool, q: T -> bool, f: T -> T)
    requires forall i :: 0 <= i < |xs| ==> (p(xs[i]) <==> q(xs[i]))
    ensures ReplaceWhere(xs, p, f) == ReplaceWhere(xs, q, f)
  {
    var a := ReplaceWhere(xs, p, f);
    var b := ReplaceWhere(xs, q, f);
    assert forall i :: 0 <= i < |xs| ==> a[i] == b[i];
  }

  /** The writes one conversion sends. */
  datatype RemoteWrite = InsertTransaction(row: NewTransaction) | MarkConverted(id: string)

  /** `data.pendingIncomes.find(p => p.id === id)`. */
  function FindPending(pending: seq<PendingIncome>, id: string): (r: Option<PendingIncome>)
    ensures r.None? <==> forall p :: p in pending ==> p.id != id
    ensures r.Some? ==> r.value in pending && r.value.id == id
  {
    if pending == [] then None
    else if pending[0].id == id then Some(pending[0])
    else FindPending(pending[1..], id)
  }

  /** The income a conversion inserts: the pending record's value,
      category and user, dated today, its description marked as credited. */
  function ConvertedIncome(p: PendingIncome, today: string): (r: NewTransaction)
    ensures r.kind == "income" && r.status == "completed" && r.transactionDate == today
    ensures r.value == p.value && r.category == p.category && r.userId == p.userId && r.userName == p.userName
    ensures r.description == p.description + " (Creditado)" && r.convertedFrom == Some(p.id)
  {
    NewTransaction("income", p.value, today, p.category, p.description + " (Creditado)", "completed",
                   p.userId, p.userName, None, Some(p.id))
  }

  /** `convertPendingToIncome`: nothing for an unknown or converted record;
      otherwise the income insert, followed by the status update only when
      the insert succeeded. */
  function ConvertWrites(pending: seq<PendingIncome>, id: string, today: string, insertOk: bool): (r: seq<RemoteWrite>)
    ensures r == [] <==> FindPending(pending, id).None? || FindPending(pending, id).value.converted
    ensures r != [] ==> r[0] == InsertTransaction(ConvertedIncome(FindPending(pending, id).value, today))
    ensures MarkConverted(id) in r <==> r != [] && insertOk
    ensures |r| <= 2
  {
    match FindPending(pending, id)
    case None => []
    case Some(p) =>
      if p.converted then []
      else if insertOk then [InsertTransaction(ConvertedIncome(p, today)), MarkConverted(id)]
      else [InsertTransaction(ConvertedIncome(p, today))]
  }

  /** `.update({ status: 'converted' }).eq('id', id)`: the rows it selects. */
  function HasId(id: string): TransactionRow -> bool
  {
    (t: TransactionRow) => t.id == id
  }

  function MarkedConverted(t: TransactionRow): TransactionRow
  {
    t.(status := "converted")
  }

  /** What the `transactions` table holds after the writes. */
  function ApplyWrites(rows: seq<TransactionRow>, ws: seq<RemoteWrite>, newRowId: string, now: string): seq<TransactionRow>
    decreases |ws|
  {
    if ws == [] then rows
    else
      var next := match ws[0]
        case InsertTransaction(n) => rows + [RowFromInsert(n, newRowId, now)]
        case MarkConverted(id) => ReplaceWhere(rows, HasId(id), MarkedConverted);
      ApplyWrites(next, ws[1..], newRowId, now)
  }

  /** A successful conversion is not repeated: once both writes have gone
      through and the data is reloaded, the record is no longer among the
      pending incomes, so converting it again sends nothing; and the
      reloaded incomes hold the credited copy. */
  lemma ConvertOnce(rows: seq<TransactionRow>, id: string, today: string, newRowId: string, now: string)
    requires FindPending(LoadedPending(rows), id).Some?
    requires newRowId != id
    ensures var after := ApplyWrites(rows, ConvertWrites(LoadedPending(rows), id, today, true), newRowId, now);
      FindPending(LoadedPending(after), id).None? &&
      ConvertWrites(LoadedPending(after), id, today, true) == [] &&
      RowToEntry(RowFromInsert(ConvertedIncome(FindPending(LoadedPending(rows), id).value, today), newRowId, now))
        in LoadedIncomes(after)
  {
    var inserted := RowFromInsert(ConvertedIncome(FindPending(LoadedPending(rows), id).value, today), newRowId, now);
    var rows1 := rows + [inserted];
    ConvertApplied(rows, id, today, newRowId, now);
    MarkedNotPending(rows1, id);
    IncomeSurvivesMark(rows1, id, |rows1| - 1);
  }

  /** Both writes of a conversion: the credited row appended, then every
      row with the record's id marked converted. */
  lemma ConvertApplied(rows: seq<TransactionRow>, id: string, today: string, newRowId: string, now: string)
    requires FindPending(LoadedPending(rows), id).Some?
    ensures ApplyWrites(rows, ConvertWrites(LoadedPending(rows), id, today, true), newRowId, now) ==
      ReplaceWhere(rows + [RowFromInsert(ConvertedIncome(FindPending(LoadedPending(rows), id).value, today), newRowId, now)],
                   HasId(id), MarkedConverted)
  {
    var n := ConvertedIncome(FindPending(LoadedPending(rows), id).value, today);
    var ws := ConvertWrites(LoadedPending(rows), id, today, true);
    LoadedPendingUnconverted(rows);
    assert ws == [InsertTransaction(n), MarkConverted(id)];
    var rows1 := rows + [RowFromInsert(n, newRowId, now)];
    var tail := [MarkConverted(id)];
    assert ws[1..] == tail && tail[1..] == [];
    var after := ReplaceWhere(rows1, HasId(id), MarkedConverted);
    assert ApplyWrites(rows, ws, newRowId, now) == ApplyWrites(rows1, tail, newRowId, now);
    assert ApplyWrites(rows1, tail, newRowId, now) == ApplyWrites(after, [], newRowId, now);
  }

  /** After the status update no row with the id is a pending row. */
  lemma MarkedNotPending(rows: seq<TransactionRow>, id: string)
    ensures forall q :: q in LoadedPending(ReplaceWhere(rows, HasId(id), MarkedConverted)) ==> q.id != id
  {
    var after := ReplaceWhere(rows, HasId(id), MarkedConverted);
    forall q | q in LoadedPending(after) ensures q.id != id {
      var f := Filter(after, IsPendingRow);
      var j :| 0 <= j < |f| && LoadedPending(after)[j] == q;
      assert f[j] in after;
      var i :| 0 <= i < |after| && after[i] == f[j];
    }
  }

  /** Marking rows converted leaves a completed income row with a different id in place. */
  lemma IncomeSurvivesMark(rows: seq<TransactionRow>, id: string, idx: nat)
    requires idx < |rows| && IsIncomeRow(rows[idx]) && rows[idx].id != id
    ensures RowToEntry(rows[idx]) in LoadedIncomes(ReplaceWhere(rows, HasId(id), MarkedConverted))
  {
    var after := ReplaceWhere(rows, HasId(id), MarkedConverted);
    assert after[idx] == rows[idx];
    assert rows[idx] in Filter(after, IsIncomeRow);
    MapMember(Filter(after, IsIncomeRow), RowToEntry, rows[idx]);
  }

  lemma MapMember<T, U>(xs: seq<T>, f: T -> U, x: T)
    requires x in xs
    ensures f(x) in Map(xs, f)
  {
    var i :| 0 <= i < |xs| && xs[i] == x;
    assert Map(xs, f)[i] == f(x);
  }

  /** The store's state: the collections, notifications, theme and the logged-in user. */
  class Store {
    var data: FinancialData
    var notifications: seq<Notification>
    var theme: string
    var currentUser: Option<User>

    /** Empty collections (loaded later), stored notifications and theme, no user. */
    constructor(storedNotes: Option<seq<Notification>>, storedTheme: Option<string>)
      ensures data == EmptyData && currentUser.None?
      ensures notifications == (if storedNotes.Some? then storedNotes.value else [])
      ensures theme == FinanceContext.InitialTheme(storedTheme)
    {
      data := EmptyData;
      notifications := if storedNotes.Some? then storedNotes.value else [];
      theme := FinanceContext.InitialTheme(storedTheme);
      currentUser := None;
    }

    method SetCurrentUser(user: Option<User>)
      modifies this
      ensures currentUser == user
      ensures data == old(data) && notifications == old(notifications) && theme == old(theme)
    {
      currentUser := user;
    }

    /** `loadFinancialData`: nothing without a user; otherwise the data is
        replaced by the classified rows and the given tables. */
    method LoadFinancialData(rows: seq<TransactionRow>, fixed: seq<FixedExpense>, goals: seq<SavingsGoal>)
      modifies this
      ensures old(currentUser).None? ==> data == old(data)
      ensures old(currentUser).Some? ==>
        data == FinancialData(LoadedIncomes(rows), LoadedExpenses(rows), fixed, goals, LoadedPending(rows))
      ensures forall p :: p in data.pendingIncomes && old(currentUser).Some? ==> !p.converted
      ensures currentUser == old(currentUser) && notifications == old(notifications) && theme == old(theme)
    {
      if currentUser.None? {
        return;
      }
      var incomes, expenses, pending := Classify(rows);
      data := FinancialData(incomes, expenses, fixed, goals, pending);
    }

    /** `addIncome`: sends the insert (if a user is logged in) and, when the
        database returns the inserted row, puts it in front of the incomes. */
    method AddIncome(draft: Income, inserted: Option<TransactionRow>) returns (sent: Option<NewTransaction>)
      modifies this
      ensures sent == EntryInsert("income", draft, old(currentUser))
      ensures sent.Some? && inserted.Some? ==>
        data == old(data).(incomes := [RowToEntry(inserted.value)] + old(data).incomes)
      ensures sent.None? || inserted.None? ==> data == old(data)
      ensures currentUser == old(currentUser) && notifications == old(notifications) && theme == old(theme)
    {
      sent := EntryInsert("income", draft, currentUser);
      if sent.Some? && inserted.Some? {
        data := data.(incomes := [RowToEntry(inserted.value)] + data.incomes);
      }
    }

    method AddNotification(kind: NoticeKind, message: string, newId: string, now: string)
      modifies this
      ensures notifications == AddNotice(old(notifications), newId, kind, message, now)
      ensures data == old(data) && theme == old(theme) && currentUser == old(currentUser)
    {
      notifications := AddNotice(notifications, newId, kind, message, now);
    }

    method MarkNotificationAsRead(id: string)
      modifies this
      ensures notifications == MarkRead(old(notifications), id)
      ensures data == old(data) && theme == old(theme) && currentUser == old(currentUser)
    {
      notifications := MarkRead(notifications, id);
    }

    method ClearNotifications()
      modifies this
      ensures notifications == []
      ensures data == old(data) && theme == old(theme) && currentUser == old(currentUser)
    {
      notifications := [];
    }

    method ToggleTheme()
      modifies this
      ensures theme == FinanceContext.Toggled(old(theme))
      ensures data == old(data) && notifications == old(notifications) && currentUser == old(currentUser)
    {
      theme := FinanceContext.Toggled(theme);
    }
  }
}
