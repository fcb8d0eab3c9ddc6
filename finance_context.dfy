/** The in-browser store of src/context/FinanceContext.tsx: one object
    holding the financial data, the notification list and the theme, whose
    operations replace those fields with new values built by `map`,
    `filter` and spread. Fresh ids and timestamps (`generateId()`,
    `new Date().toISOString()`) are passed in. */
module FinanceContext {

  import opened Base
  import opened FinanceTypes
  import opened Notices

  /** `Partial<Income>` / `Partial<Expense>`: `Some` marks a key present in the patch. */
  datatype EntryPatch = EntryPatch(
    id: Option<string>,
    value: Option<real>,
    date: Option<string>,
    category: Option<string>,
    description: Option<string>,
    createdAt: Option<string>,
    userId: Option<string>,
    userName: Option<string>)

  const NoEntryChange: EntryPatch := EntryPatch(None, None, None, None, None, None, None, None)

  function Pick<T>(patched: Option<T>, current: T): T
  {
    if patched.Some? then patched.value else current
  }

  function PickOpt<T>(patched: Option<T>, current: Option<T>): Option<T>
  {
    if patched.Some? then patched else current
  }

  /** `{ ...e, ...patch }`. */
  function MergeEntry(e: Entry, p: EntryPatch): Entry
  {
    Entry(Pick(p.id, e.id), Pick(p.value, e.value), Pick(p.date, e.date),
          Pick(p.category, e.category), Pick(p.description, e.description),
          Pick(p.createdAt, e.createdAt), PickOpt(p.userId, e.userId), PickOpt(p.userName, e.userName))
  }

  /** Merging is idempotent, the empty patch changes nothing, and for
      every key a key present in the patch wins while an absent key keeps
      the record's value. */
  lemma MergeEntryLaws(e: Entry, p: EntryPatch)
    ensures MergeEntry(MergeEntry(e, p), p) == MergeEntry(e, p)
    ensures MergeEntry(e, NoEntryChange) == e
    ensures p.id.Some? ==> MergeEntry(e, p).id == p.id.value
    ensures p.id.None? ==> MergeEntry(e, p).id == e.id
    ensures p.value.Some? ==> MergeEntry(e, p).value == p.value.value
    ensures p.value.None? ==> MergeEntry(e, p).value == e.value
    ensures p.date.Some? ==> MergeEntry(e, p).date == p.date.value
    ensures p.date.None? ==> MergeEntry(e, p).date == e.date
    ensures p.category.Some? ==> MergeEntry(e, p).category == p.category.value
    ensures p.category.None? ==> MergeEntry(e, p).category == e.category
    ensures p.description.Some? ==> MergeEntry(e, p).description == p.description.value
    ensures p.description.None? ==> MergeEntry(e, p).description == e.description
    ensures p.createdAt.Some? ==> MergeEntry(e, p).createdAt == p.createdAt.value
    ensures p.createdAt.None? ==> MergeEntry(e, p).createdAt == e.createdAt
    ensures p.userId.Some? ==> MergeEntry(e, p).userId == p.userId
    ensures p.userId.None? ==> MergeEntry(e, p).userId == e.userId
    ensures p.userName.Some? ==> MergeEntry(e, p).userName == p.userName
    ensures p.userName.None? ==> MergeEntry(e, p).userName == e.userName
  {
  }

  /** `Partial<FixedExpense>`. */
  datatype FixedPatch = FixedPatch(
    id: Option<string>,
    name: Option<string>,
    value: Option<real>,
    dueDay: Option<int>,
    isPaid: Option<bool>,
    month: Option<string>,
    createdAt: Option<string>,
    paidByUserId: Option<string>,
    paidByUserName: Option<string>,
    paymentDate: Option<string>)

  function MergeFixed(f: FixedExpense, p: FixedPatch): FixedExpense
  {
    FixedExpense(Pick(p.id, f.id), Pick(p.name, f.name), Pick(p.value, f.value),
                 Pick(p.dueDay, f.dueDay), Pick(p.isPaid, f.isPaid), Pick(p.month, f.month),
                 Pick(p.createdAt, f.createdAt), PickOpt(p.paidByUserId, f.paidByUserId),
                 PickOpt(p.paidByUserName, f.paidByUserName), PickOpt(p.paymentDate, f.paymentDate))
  }

  /** The guard on lines 135-139: the patch carries `isPaid`, the merged
      record is paid, and the record was not paid before. */
  predicate PaidTransition(f: FixedExpense, p: FixedPatch)
  {
    p.isPaid.Some? && MergeFixed(f, p).isPaid && !f.isPaid
  }

  /** The guard holds exactly when the patch sets `isPaid` to true on an unpaid record. */
  lemma PaidTransitionIff(f: FixedExpense, p: FixedPatch)
    ensures PaidTransition(f, p) <==> p.isPaid == Some(true) && !f.isPaid
  {
  }

  /** The history entry `addExpense` receives for a bill just paid. */
  function PaymentExpense(merged: FixedExpense, newId: string, today: string, now: string): (r: Expense)
    ensures r.value == merged.value && r.date == today
    ensures r.category == "contas" && r.description == "Pagamento: " + merged.name
    ensures r.id == newId && r.createdAt == now && r.userId.None? && r.userName.None?
  {
    Entry(newId, merged.value, today, "contas", "Pagamento: " + merged.name, now, None, None)
  }

  /** The expenses the update appends: one for each record with the id whose
      update passes the guard, in list order. */
  function PaymentExpenses(fixed: seq<FixedExpense>, id: string, p: FixedPatch,
                           newId: string, today: string, now: string): (r: seq<Expense>)
    ensures |r| == Count(fixed, (f: FixedExpense) => f.id == id && PaidTransition(f, p))
    ensures forall e :: e in r ==> e.category == "contas" && e.date == today
  {
    if fixed == [] then []
    else
      var f := fixed[0];
      (if f.id == id && PaidTransition(f, p) then [PaymentExpense(MergeFixed(f, p), newId, today, now)] else [])
      + PaymentExpenses(fixed[1..], id, p, newId, today, now)
  }

  /** Ids are unique within a collection. */
  predicate UniqueFixedIds(fixed: seq<FixedExpense>)
  {
    forall i, j :: 0 <= i < j < |fixed| ==> fixed[i].id != fixed[j].id
  }

  /** With unique ids, the update appends exactly one expense iff the record
      with that id passes the guard, and none otherwise; the one appended
      carries the merged value and the payment description. */
  lemma {:induction false} PaymentExpensesExactlyOne(fixed: seq<FixedExpense>, id: string, p: FixedPatch,
                                                     newId: string, today: string, now: string)
    requires UniqueFixedIds(fixed)
    ensures |PaymentExpenses(fixed, id, p, newId, today, now)| <= 1
    ensures |PaymentExpenses(fixed, id, p, newId, today, now)| == 1 <==>
      exists k :: 0 <= k < |fixed| && fixed[k].id == id && PaidTransition(fixed[k], p)
    ensures forall k :: 0 <= k < |fixed| && fixed[k].id == id && PaidTransition(fixed[k], p) ==>
      PaymentExpenses(fixed, id, p, newId, today, now) ==
        [PaymentExpense(MergeFixed(fixed[k], p), newId, today, now)]
  {
    if fixed != [] {
      var rest := fixed[1..];
      assert UniqueFixedIds(rest) by {
        forall i, j | 0 <= i < j < |rest| ensures rest[i].id != rest[j].id {
          assert rest[i] == fixed[i + 1] && rest[j] == fixed[j + 1];
        }
      }
      PaymentExpensesExactlyOne(rest, id, p, newId, today, now);
      if fixed[0].id == id {
        assert forall k :: 0 <= k < |rest| ==> rest[k].id != id by {
          forall k | 0 <= k < |rest| ensures rest[k].id != id {
            assert rest[k] == fixed[k + 1];
          }
        }
        NoMatchNoPayments(rest, id, p, newId, today, now);
      }
      forall k | 0 <= k < |fixed| && fixed[k].id == id && PaidTransition(fixed[k], p)
        ensures exists j :: 0 <= j < |fixed| && fixed[j].id == id && PaidTransition(fixed[j], p)
      {
      }
      if exists k :: 0 <= k < |fixed| && fixed[k].id == id && PaidTransition(fixed[k], p) {
        var k :| 0 <= k < |fixed| && fixed[k].id == id && PaidTransition(fixed[k], p);
        if k > 0 {
          assert rest[k - 1] == fixed[k];
        }
      } else {
        assert !(exists k :: 0 <= k < |rest| && rest[k].id == id && PaidTransition(rest[k], p)) by {
          forall k | 0 <= k < |rest| ensures !(rest[k].id == id && PaidTransition(rest[k], p)) {
            assert rest[k] == fixed[k + 1];
          }
        }
      }
    }
  }

  lemma {:induction false} NoMatchNoPayments(fixed: seq<FixedExpense>, id: string, p: FixedPatch,
                                             newId: string, today: string, now: string)
    requires forall k :: 0 <= k < |fixed| ==> fixed[k].id != id
    ensures PaymentExpenses(fixed, id, p, newId, today, now) == []
  {
    if fixed != [] {
      NoMatchNoPayments(fixed[1..], id, p, newId, today, now);
    }
  }

  /** At most one savings goal per month. */
  predicate OneGoalPerMonth(goals: seq<SavingsGoal>)
  {
    forall i, j :: 0 <= i < j < |goals| ==> goals[i].month != goals[j].month
  }

  /** `setSavingsGoal`: retargets the goals of an existing month in place,
      or appends a new goal for a month that has none. */
  function UpsertGoal(goals: seq<SavingsGoal>, month: string, target: real,
                      newId: string, now: string): (r: seq<SavingsGoal>)
    ensures FindGoal(goals, month).Some? ==>
              |r| == |goals| &&
              forall i :: 0 <= i < |goals| ==>
                r[i] == (if goals[i].month == month then goals[i].(target := target) else goals[i])
    ensures FindGoal(goals, month).None? ==> r == goals + [SavingsGoal(newId, month, target, now)]
  {
    if FindGoal(goals, month).Some? then
      ReplaceWhere(goals, (g: SavingsGoal) => g.month == month, (g: SavingsGoal) => g.(target := target))
    else goals + [SavingsGoal(newId, month, target, now)]
  }

  /** The upsert keeps "one goal per month", and afterwards the month's goal
      carries the new target while every other month's goal is untouched. */
  lemma UpsertGoalLaws(goals: seq<SavingsGoal>, month: string, target: real, newId: string, now: string)
    requires OneGoalPerMonth(goals)
    ensures OneGoalPerMonth(UpsertGoal(goals, month, target, newId, now))
    ensures FindGoal(UpsertGoal(goals, month, target, newId, now), month).Some?
    ensures FindGoal(UpsertGoal(goals, month, target, newId, now), month).value.target == target
    ensures forall m :: m != month ==> FindGoal(UpsertGoal(goals, month, target, newId, now), m) == FindGoal(goals, m)
  {
    var r := UpsertGoal(goals, month, target, newId, now);
    var found := FindGoal(goals, month);
    if found.Some? {
      assert OneGoalPerMonth(r) by {
        forall i, j | 0 <= i < j < |r| ensures r[i].month != r[j].month {
          assert r[i].month == goals[i].month && r[j].month == goals[j].month;
        }
      }
      FindGoalReplace(goals, month, target);
    } else {
      assert OneGoalPerMonth(r) by {
        forall i, j | 0 <= i < j < |r| ensures r[i].month != r[j].month {
          if j == |goals| {
            assert goals[i] in goals;
          }
        }
      }
      FindGoalAppend(goals, SavingsGoal(newId, month, target, now));
    }
  }

  lemma {:induction false} FindGoalReplace(goals: seq<SavingsGoal>, month: string, target: real)
    requires FindGoal(goals, month).Some?
    ensures var r := ReplaceWhere(goals, (g: SavingsGoal) => g.month == month, (g: SavingsGoal) => g.(target := target));
      FindGoal(r, month) == Some(FindGoal(goals, month).value.(target := target)) &&
      forall m :: m != month ==> FindGoal(r, m) == FindGoal(goals, m)
  {
    var r := ReplaceWhere(goals, (g: SavingsGoal) => g.month == month, (g: SavingsGoal) => g.(target := target));
    if goals[0].month != month {
      FindGoalReplace(goals[1..], month, target);
      assert r[1..] == ReplaceWhere(goals[1..], (g: SavingsGoal) => g.month == month, (g: SavingsGoal) => g.(target := target));
    }
    forall m | m != month ensures FindGoal(r, m) == FindGoal(goals, m) {
      FindGoalReplaceOther(goals, month, target, m);
    }
  }

  lemma {:induction false} FindGoalReplaceOther(goals: seq<SavingsGoal>, month: string, target: real, m: string)
    requires m != month
    ensures FindGoal(ReplaceWhere(goals, (g: SavingsGoal) => g.month == month, (g: SavingsGoal) => g.(target := target)), m)
         == FindGoal(goals, m)
  {
    var r := ReplaceWhere(goals, (g: SavingsGoal) => g.month == month, (g: SavingsGoal) => g.(target := target));
    if goals != [] {
      FindGoalReplaceOther(goals[1..], month, target, m);
      assert r[1..] == ReplaceWhere(goals[1..], (g: SavingsGoal) => g.month == month, (g: SavingsGoal) => g.(target := target));
    }
  }

  lemma {:induction false} FindGoalAppend(goals: seq<SavingsGoal>, g: SavingsGoal)
    requires FindGoal(goals, g.month).None?
    ensures FindGoal(goals + [g], g.month) == Some(g)
    ensures forall m :: m != g.month ==> FindGoal(goals + [g], m) == FindGoal(goals, m)
  {
    if goals != [] {
      assert (goals + [g])[1..] == goals[1..] + [g];
      FindGoalAppend(goals[1..], g);
    } else {
      assert ([] + [g])[1..] == [];
    }
  }

  /** `prev === 'light' ? 'dark' : 'light'`. */
  function Toggled(theme: string): (r: string)
    ensures r == "light" || r == "dark"
    ensures r != theme || (theme != "light" && theme != "dark")
  {
    if theme == "light" then "dark" else "light"
  }

  /** Toggling twice restores exactly the two named themes; any other stored
      value (`getTheme` keeps whatever non-empty string it finds) comes back as light. */
  lemma ToggleTwice(theme: string)
    ensures Toggled(Toggled(theme)) == theme <==> theme == "light" || theme == "dark"
  {
  }

  /** `getFinancialData` when nothing (or an empty string) is stored; the
      default has no pending incomes, which the model holds as an empty list. */
  function InitialData(stored: Option<FinancialData>): (r: FinancialData)
    ensures stored.None? ==>
              r.incomes == [] && r.expenses == [] && r.fixedExpenses == [] &&
              r.savingsGoals == [] && r.pendingIncomes == []
    ensures stored.Some? ==> r == stored.value
  {
    if stored.Some? then stored.value else EmptyData
  }

  /** `getTheme`: the stored value when it is a non-empty string, otherwise light. */
  function InitialTheme(stored: Option<string>): (r: string)
    ensures r != ""
    ensures stored.Some? && stored.value != "" ==> r == stored.value
    ensures stored.None? || stored.value == "" ==> r == "light"
  {
    if stored.Some? && stored.value != "" then stored.value else "light"
  }

  class LocalStore {
    var data: FinancialData
    var notifications: seq<Notification>
    var theme: string

    /** The state the provider starts from: what storage holds, or the defaults. */
    constructor(storedData: Option<FinancialData>, storedNotes: Option<seq<Notification>>, storedTheme: Option<string>)
      ensures data == InitialData(storedData)
      ensures notifications == (if storedNotes.Some? then storedNotes.value else [])
      ensures theme == InitialTheme(storedTheme)
    {
      data := InitialData(storedData);
      notifications := if storedNotes.Some? then storedNotes.value else [];
      theme := InitialTheme(storedTheme);
    }

    method AddIncome(draft: Income, newId: string, now: string)
      modifies this
      ensures data == old(data).(incomes := old(data).incomes + [draft.(id := newId, createdAt := now)])
      ensures notifications == old(notifications) && theme == old(theme)
    {
      data := data.(incomes := data.incomes + [draft.(id := newId, createdAt := now)]);
    }

    method UpdateIncome(id: string, p: EntryPatch)
      modifies this
      ensures data == old(data).(incomes := ReplaceWhere(old(data).incomes, (e: Entry) => e.id == id, (e: Entry) => MergeEntry(e, p)))
      ensures notifications == old(notifications) && theme == old(theme)
    {
      data := data.(incomes := ReplaceWhere(data.incomes, (e: Entry) => e.id == id, (e: Entry) => MergeEntry(e, p)));
    }

    method DeleteIncome(id: string)
      modifies this
      ensures data == old(data).(incomes := Filter(old(data).incomes, (e: Entry) => e.id != id))
      ensures notifications == old(notifications) && theme == old(theme)
    {
      data := data.(incomes := Filter(data.incomes, (e: Entry) => e.id != id));
    }

    method AddExpense(draft: Expense, newId: string, now: string)
      modifies this
      ensures data == old(data).(expenses := old(data).expenses + [draft.(id := newId, createdAt := now)])
      ensures notifications == old(notifications) && theme == old(theme)
    {
      data := data.(expenses := data.expenses + [draft.(id := newId, createdAt := now)]);
    }

    method UpdateExpense(id: string, p: EntryPatch)
      modifies this
      ensures data == old(data).(expenses := ReplaceWhere(old(data).expenses, (e: Entry) => e.id == id, (e: Entry) => MergeEntry(e, p)))
      ensures notifications == old(notifications) && theme == old(theme)
    {
      data := data.(expenses := ReplaceWhere(data.expenses, (e: Entry) => e.id == id, (e: Entry) => MergeEntry(e, p)));
    }

    method DeleteExpense(id: string)
      modifies this
      ensures data == old(data).(expenses := Filter(old(data).expenses, (e: Entry) => e.id != id))
      ensures notifications == old(notifications) && theme == old(theme)
    {
      data := data.(expenses := Filter(data.expenses, (e: Entry) => e.id != id));
    }

    method AddFixedExpense(draft: FixedExpense, newId: string, now: string)
      modifies this
      ensures data == old(data).(fixedExpenses := old(data).fixedExpenses + [draft.(id := newId, createdAt := now)])
      ensures notifications == old(notifications) && theme == old(theme)
    {
      data := data.(fixedExpenses := data.fixedExpenses + [draft.(id := newId, createdAt := now)]);
    }

    /** Merges the patch into the record with the id and, for each record
        whose update passes the paid guard, appends its payment expense. */
    method UpdateFixedExpense(id: string, p: FixedPatch, newId: string, today: string, now: string)
      modifies this
      ensures data.fixedExpenses == ReplaceWhere(old(data).fixedExpenses, (f: FixedExpense) => f.id == id,
                                                 (f: FixedExpense) => MergeFixed(f, p))
      ensures data.expenses == old(data).expenses + PaymentExpenses(old(data).fixedExpenses, id, p, newId, today, now)
      ensures data.incomes == old(data).incomes && data.savingsGoals == old(data).savingsGoals
      ensures data.pendingIncomes == old(data).pendingIncomes
      ensures notifications == old(notifications) && theme == old(theme)
    {
      var payments := PaymentExpenses(data.fixedExpenses, id, p, newId, today, now);
      data := data.(fixedExpenses := ReplaceWhere(data.fixedExpenses, (f: FixedExpense) => f.id == id,
                                                  (f: FixedExpense) => MergeFixed(f, p)),
                    expenses := data.expenses + payments);
    }

    method DeleteFixedExpense(id: string)
      modifies this
      ensures data == old(data).(fixedExpenses := Filter(old(data).fixedExpenses, (f: FixedExpense) => f.id != id))
      ensures notifications == old(notifications) && theme == old(theme)
    {
      data := data.(fixedExpenses := Filter(data.fixedExpenses, (f: FixedExpense) => f.id != id));
    }

    method SetSavingsGoal(month: string, target: real, newId: string, now: string)
      modifies this
      ensures data == old(data).(savingsGoals := UpsertGoal(old(data).savingsGoals, month, target, newId, now))
      ensures OneGoalPerMonth(old(data).savingsGoals) ==> OneGoalPerMonth(data.savingsGoals)
      ensures notifications == old(notifications) && theme == old(theme)
    {
      if OneGoalPerMonth(data.savingsGoals) {
        UpsertGoalLaws(data.savingsGoals, month, target, newId, now);
      }
      data := data.(savingsGoals := UpsertGoal(data.savingsGoals, month, target, newId, now));
    }

    method AddNotification(kind: NoticeKind, message: string, newId: string, now: string)
      modifies this
      ensures notifications == AddNotice(old(notifications), newId, kind, message, now)
      ensures data == old(data) && theme == old(theme)
    {
      notifications := AddNotice(notifications, newId, kind, message, now);
    }

    method MarkNotificationAsRead(id: string)
      modifies this
      ensures notifications == MarkRead(old(notifications), id)
      ensures data == old(data) && theme == old(theme)
    {
      notifications := MarkRead(notifications, id);
    }

    method ClearNotifications()
      modifies this
      ensures notifications == []
      ensures data == old(data) && theme == old(theme)
    {
      notifications := [];
    }

    method ToggleTheme()
      modifies this
      ensures theme == Toggled(old(theme))
      ensures data == old(data) && notifications == old(notifications)
    {
      theme := Toggled(theme);
    }
  }
}
