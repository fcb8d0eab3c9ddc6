# Household finance dashboard: a Dafny model

This project models the bookkeeping logic of a small household-finance
dashboard written in TypeScript and React. A household records incomes,
expenses, monthly fixed bills (with a paid flag), savings goals per month and
"pending incomes" expected on a future date. The dashboard derives monthly
figures from these records, raises de-duplicated alerts and converts pending
incomes into incomes once they fall due.

What is modelled, module by module:

- `Calculations` (src/utils/calculations.ts): month filtering by date prefix,
  date-range filtering, totals, savings, the savings progress clamped at 100,
  the category breakdown, the weekly average, the savings percentage and the
  month key. `Text` and `Dates` hold the string and date helpers these use:
  digit extraction, `padStart`, `trim`, decimal text, and `YYYY-MM-DD` dates
  as day numbers.
- `FinanceContext` (src/context/FinanceContext.tsx): the in-browser store as a
  class `LocalStore`. It covers add, update and delete for incomes, expenses
  and fixed bills. Marking a bill paid appends one derived expense. It also
  covers the savings-goal upsert, the notification operations (module
  `Notices`) and the theme toggle. `getFinancialData` and `getTheme` from
  src/utils/storage.ts give the initial state.
- `RemoteStore` (src/context/FinanceContextSupabase.tsx): the database-backed
  store. Every database call is turned into data: rows read are parameters,
  and each write is a returned value. What remains is:
  - the classification of rows into the three lists (a loop);
  - the update objects built key by key;
  - the goal upsert decision;
  - the conversion guard and the converted row;
  - the optimistic prepend of `addIncome`;
  - the notification and theme state.
  Lemmas also replay the writes on a table of rows and state what a reload
  then reads.
- `SmartAlerts` (src/hooks/useSmartAlerts.ts): the six alert rules and their
  key-to-period ledger. `Candidates` lists the alerts whose thresholds hold,
  and `Fire` passes them through the ledger. `CheckAlerts` is the source's
  own pass with its loops, proved equal to the two composed. Each rule is
  proved as an if-and-only-if, and every alert fires at most once per period.
- `AutoConvert` (src/hooks/useAutoConvertPending.ts): the selection of due
  pending incomes and the sequential conversion loop.
- View logic: `Dashboard`, `History`, `Settings`, `QuickAdd`, `Login`,
  `NotificationsView` (src/views/*.tsx). These are the derived figures, the
  merged and sorted history, the per-user totals, the form guards and
  dispatch, the phone mask with its round trip, the remember-me session and
  the relative-time buckets.
- `Storage` (src/utils/storage.ts): the rows of the CSV export, and how the
  export reads back when split at line breaks.

Conventions used throughout:

- Money is `real`.
- Dates are `YYYY-MM-DD` strings; comparisons use day numbers.
- A JavaScript `NaN` (an unparseable number or date) is `None`.
- The clock, fresh ids, the outcome of each database write and the text
  JavaScript prints for a number are all parameters.

## Model

| member | source | states |
|---|---|---|
| Text.Digits | src/views/Login.tsx:22-24 | `replace(/\D/g, '')`: the result is all digits, no longer than the input, and holds exactly the input's digit characters |
| Text.DigitsAppend | src/views/Login.tsx:22-24 | digit extraction distributes over concatenation, so it keeps the input order |
| Text.DigitsOfDigits | src/views/Login.tsx:22-24 | a string of digits only is returned unchanged, which makes normalisation idempotent |
| Text.PadStart2 | src/utils/calculations.ts:26 | `padStart(2, '0')`: a string of two or more characters is unchanged; a shorter one is left-filled with `0` up to length 2 and ends with the original |
| Text.ParseNatToString | src/views/Login.tsx:39 | reading back the decimal text of a natural number, as `parseInt` reads the saved login time, gives the number |
| Text.Trim | src/views/QuickAdd.tsx:38 | `trim()`: the result is a slice of the input with only whitespace before and after it, starts and ends with a non-whitespace character or is empty, and is empty exactly when the input is all whitespace |
| Text.TrimStart | src/views/QuickAdd.tsx:38 | the result is a suffix of the input, everything dropped is whitespace, and it does not start with whitespace |
| Text.TrimEnd | src/views/QuickAdd.tsx:38 | the result is a prefix of the input, everything dropped is whitespace, and it does not end with whitespace |
| FinanceTypes.FindGoal | src/views/History.tsx:49 | `savingsGoals.find(g => g.month === month)`: none exactly when no goal has the month; otherwise the first goal with that month |
| Calculations.CurrentMonth | src/utils/calculations.ts:24-27 | the month key is `year-MM`: 7 characters for a four-digit year, a dash third from the end, and both parts read back as the given year and month |
| Calculations.FilterByMonth | src/utils/calculations.ts:48-53 | keeps exactly the records whose date starts with the month key |
| Calculations.FilterByMonthOrder | src/utils/calculations.ts:48-53 | the filter distributes over concatenation and keeps or drops each record alone, so the input order is preserved |
| Calculations.FilterByDate | src/utils/calculations.ts:35-46 | keeps exactly the records not before a given start and not after a given end; with neither bound the list is unchanged |
| Calculations.FilterByDateOrder | src/utils/calculations.ts:35-46 | the date filter keeps order and repeated records: it distributes over concatenation, and a single record is kept or dropped by the date test alone |
| Calculations.TotalGrows | src/utils/calculations.ts:69-77 | the empty list totals 0; appending a record adds its value exactly when no month is given or its date has the month prefix; incomes and expenses use the same fold |
| Calculations.MonthTotalAtMostAllTime | src/utils/calculations.ts:69-77 | with non-negative values a month's total lies between 0 and the total without a month |
| Calculations.FixedOfMonth | src/utils/calculations.ts:79-87 | fixed expenses are scoped by equality of their `month` field, paid and unpaid alike |
| Calculations.PaidFixedOfMonth | src/utils/calculations.ts:97-99 | keeps exactly the fixed expenses of the month that are paid |
| Calculations.FixedTotalSplitsByPaid | src/utils/calculations.ts:79-99 | a month's fixed total is its paid part plus its unpaid part |
| Calculations.SavingsIgnoresUnpaid | src/utils/calculations.ts:89-101 | replacing or removing an unpaid or other-month fixed expense leaves the month's savings unchanged |
| Calculations.SavingsProgress | src/utils/calculations.ts:103-109 | 0 for a zero goal, never above 100, and exactly 100 once a positive goal is reached |
| Calculations.SavingsProgressBelowGoal | src/utils/calculations.ts:103-109 | below a positive goal the progress times the goal is the saving times 100, and a negative saving gives a negative progress, as there is no lower clamp |
| Calculations.Bump | src/utils/calculations.ts:117 | `acc[c] = (acc[c] \|\| 0) + v`: the key set gains `c`, keys stay distinct, only `c`'s total grows by `v`, and the sum of totals grows by `v` |
| Calculations.CategoryTotals | src/utils/calculations.ts:116-119 | the fold's keys are distinct and are exactly the categories present; each total is the sum of that category's values; the totals sum to the overall sum |
| Calculations.CategoryTotalsSnoc | src/utils/calculations.ts:116-119 | one more expense adds its value to its own category's total and to no other |
| Calculations.ExpensesByCategory | src/utils/calculations.ts:111-120 | a key is present iff some expense in the month scope has that category, each value is that category's sum, and the values add up to the month's total expenses |
| Calculations.WeeklyAverageTimes | src/utils/calculations.ts:122-128 | the average times the number of weeks is the total of the expenses dated at or after `weeks * 7` days before now |
| Calculations.WeeklyAverageBounds | src/utils/calculations.ts:122-128 | with non-negative values the average is at least 0, at most the window total and at most the all-time total |
| Calculations.RecentBounds | src/utils/calculations.ts:124-126 | with non-negative values the window total lies between 0 and the all-time total |
| Calculations.SavingsPercentage | src/utils/calculations.ts:130-133 | 0 without income; otherwise the result times the income is the saving times 100 |
| Dates.ParseDate | src/hooks/useAutoConvertPending.ts:15 | only a string of ten characters, with dashes at positions 4 and 7 and digits elsewhere, gives a day number; any other string gives none, standing for an invalid date |
| Dates.ParseDateText | src/hooks/useAutoConvertPending.ts:15 | every `YYYY-MM-DD` text with a four-digit year, a month from 1 to 12 and a day from 1 to 31 parses, to the day number of that date |
| Dates.MarchYearStep | src/hooks/useAutoConvertPending.ts:15 | a year counted from March has 366 days exactly when the February at its end is a Gregorian leap February |
| Dates.CalendarSteps | src/hooks/useAutoConvertPending.ts:15 | day numbers count from 1970-01-01; the next day adds one, the first of the next month adds the month's length, and New Year comes 31 days after the first of December |
| Dates.DateOrder | src/hooks/useAutoConvertPending.ts:18 | on valid dates, one day number is smaller than another exactly when the date is earlier by year, then month, then day, and equal only for the same date, so comparing day numbers compares calendar dates |
| Dates.LocalDay | src/hooks/useAutoConvertPending.ts:15-16 | a date read as midnight UTC and then set to local midnight lands on the day before when the zone is west of UTC, and on the same day at UTC or east of it |
| Notices.AddNotice | src/context/FinanceContext.tsx:190-200 | one unread item with the given id, kind, message and timestamp goes in front of the unchanged list, and the unread count grows by one |
| Notices.MarkRead | src/context/FinanceContext.tsx:202-206 | same length; each item with the id becomes read and every other item is unchanged |
| Notices.MarkReadLaws | src/context/FinanceContext.tsx:202-206 | marking read is idempotent, leaves no unread item with that id, and never raises the unread count |
| FinanceContext.MergeEntryLaws | src/context/FinanceContext.tsx:79-84 | `{ ...e, ...patch }`: merging twice equals merging once, the empty patch changes nothing, for each of the eight keys, a key present in the patch wins and an absent key keeps the record's value |
| FinanceContext.PaidTransitionIff | src/context/FinanceContext.tsx:135-139 | the guard holds exactly when the patch sets `isPaid` to true on a record that was unpaid |
| FinanceContext.PaymentExpense | src/context/FinanceContext.tsx:140-145 | the derived expense has the merged record's value, today's date, category `contas` and description `Pagamento: ` plus the name |
| FinanceContext.PaymentExpenses | src/context/FinanceContext.tsx:128-151 | one derived expense per record with the id that passes the guard, each under `contas` and dated today |
| FinanceContext.PaymentExpensesExactlyOne | src/context/FinanceContext.tsx:128-151 | with unique ids, at most one expense is appended, and one is appended iff the record with the id passes the guard |
| FinanceContext.NoMatchNoPayments | src/context/FinanceContext.tsx:128-151 | an id no record has appends no expense |
| FinanceContext.UpsertGoal | src/context/FinanceContext.tsx:167-188 | an existing month has its goals retargeted in place, same length; otherwise one new goal is appended |
| FinanceContext.UpsertGoalLaws | src/context/FinanceContext.tsx:167-188 | at most one goal per month is preserved, the month's goal afterwards has the new target, and other months' goals are unchanged |
| FinanceContext.FindGoalReplace | src/context/FinanceContext.tsx:172-174 | after retargeting, the month's goal is found with the new target |
| FinanceContext.FindGoalReplaceOther | src/context/FinanceContext.tsx:172-174 | retargeting one month leaves the goal found for any other month unchanged |
| FinanceContext.FindGoalAppend | src/context/FinanceContext.tsx:177-186 | an appended goal for a month without one is what is found for that month; other months are unchanged |
| FinanceContext.Toggled | src/context/FinanceContext.tsx:212-214 | the result is always light or dark, and it differs from a light or dark input |
| FinanceContext.ToggleTwice | src/context/FinanceContext.tsx:212-214 | toggling twice is the identity exactly on light and dark |
| FinanceContext.InitialData | src/utils/storage.ts:7-18 | with nothing stored every collection is empty; otherwise the stored data is used |
| FinanceContext.InitialTheme | src/utils/storage.ts:33-36 | the stored theme when it is non-empty, light otherwise |
| FinanceContext.LocalStore.constructor | src/context/FinanceContext.tsx:43-45 | the store starts from the stored data, notifications and theme, or their defaults |
| FinanceContext.LocalStore.AddIncome | src/context/FinanceContext.tsx:64-76 | appends the income with its new id and time; the other collections, notifications and theme are unchanged |
| FinanceContext.LocalStore.UpdateIncome | src/context/FinanceContext.tsx:79-84 | merges the patch into the incomes with the id only; everything else is unchanged |
| FinanceContext.LocalStore.DeleteIncome | src/context/FinanceContext.tsx:86-91 | removes exactly the incomes with the id, keeping the rest in order |
| FinanceContext.LocalStore.AddExpense | src/context/FinanceContext.tsx:93-100 | appends the expense with its new id and time; nothing else changes |
| FinanceContext.LocalStore.UpdateExpense | src/context/FinanceContext.tsx:102-107 | merges the patch into the expenses with the id only |
| FinanceContext.LocalStore.DeleteExpense | src/context/FinanceContext.tsx:109-114 | removes exactly the expenses with the id, keeping the rest in order |
| FinanceContext.LocalStore.AddFixedExpense | src/context/FinanceContext.tsx:116-126 | appends the fixed expense with its new id and time; nothing else changes |
| FinanceContext.LocalStore.UpdateFixedExpense | src/context/FinanceContext.tsx:128-158 | merges the patch into the fixed expenses with the id and appends the payment expenses of the records that pass the guard; incomes, goals, pending incomes, notifications and theme are unchanged |
| FinanceContext.LocalStore.DeleteFixedExpense | src/context/FinanceContext.tsx:160-165 | removes exactly the fixed expenses with the id |
| FinanceContext.LocalStore.SetSavingsGoal | src/context/FinanceContext.tsx:167-188 | the goals become the upsert of the old goals, and at most one goal per month is kept |
| FinanceContext.LocalStore.AddNotification | src/context/FinanceContext.tsx:190-200 | the notifications become the old list with the new unread item in front; data and theme are unchanged |
| FinanceContext.LocalStore.MarkNotificationAsRead | src/context/FinanceContext.tsx:202-206 | the notifications become the old list with the id's items marked read |
| FinanceContext.LocalStore.ClearNotifications | src/context/FinanceContext.tsx:208-210 | the notification list is empty and nothing else changes |
| FinanceContext.LocalStore.ToggleTheme | src/context/FinanceContext.tsx:212-214 | the theme is toggled and nothing else changes |
| RemoteStore.Classify | src/context/FinanceContextSupabase.tsx:121-158 | the three lists are exactly the completed income rows, the completed expense rows and the unconverted pending rows, converted and in arrival order; no loaded pending income is converted, and no row lands in two lists |
| RemoteStore.ClassifyCount | src/context/FinanceContextSupabase.tsx:121-158 | the three lists together hold at most as many records as there are rows |
| RemoteStore.ClassifyStep | src/context/FinanceContextSupabase.tsx:121-158 | one more row extends only the list of its own class, by its converted record |
| RemoteStore.LoadedPendingUnconverted | src/context/FinanceContextSupabase.tsx:145-154 | every loaded pending income has `converted` false, since converted rows never reach the flag |
| RemoteStore.ClassesDisjoint | src/context/FinanceContextSupabase.tsx:121-145 | the income, expense and pending conditions exclude one another |
| RemoteStore.OrElse | src/context/FinanceContextSupabase.tsx:237-238 | `a \|\| b`: the first value when it is a non-empty string, the fallback otherwise |
| RemoteStore.EntryInsert | src/context/FinanceContextSupabase.tsx:225-239 | nothing is sent exactly when no user is logged in; otherwise a completed row of the given type with the record's value, date, category and description, owned by the record's user or else the current one |
| RemoteStore.PendingInsert | src/context/FinanceContextSupabase.tsx:448-463 | nothing is sent exactly when no user is logged in; otherwise a `pending` row with the expected date, dated on the creation date, owned by the record's user |
| RemoteStore.PendingInsertReadsBack | src/context/FinanceContextSupabase.tsx:145-154 | a stored pending insert loads back as the same pending income, unconverted, with the database's id and time |
| RemoteStore.TransactionUpdate | src/context/FinanceContextSupabase.tsx:268-275 | the update carries a column exactly for each field the patch sets, with that field's value, and no other column |
| RemoteStore.FixedExpenseUpdate | src/context/FinanceContextSupabase.tsx:364-380 | the update carries exactly the patch's columns, and the payer and payment date exactly when the patch marks the bill paid while a user is logged in |
| RemoteStore.GoalCommand | src/context/FinanceContextSupabase.tsx:399-416 | an update of the found goal's target exactly when the snapshot has a goal for the month, an insert of month and target otherwise |
| RemoteStore.GoalWriteMatchesLocalUpsert | src/context/FinanceContextSupabase.tsx:399-416 | with unique ids and one goal per month, the table after the write equals the in-browser store's upsert of the same goals |
| RemoteStore.SameIdSameMonth | src/context/FinanceContextSupabase.tsx:401-406 | under those conditions, selecting the goal by id selects exactly the goals of its month |
| RemoteStore.FindPending | src/context/FinanceContextSupabase.tsx:473 | nothing exactly when no pending income has the id; otherwise a member of the list with that id |
| RemoteStore.ConvertedIncome | src/context/FinanceContextSupabase.tsx:476-489 | a completed income dated today with the pending record's value, category and user, its description marked ` (Creditado)`, pointing back to the pending id |
| RemoteStore.ConvertWrites | src/context/FinanceContextSupabase.tsx:471-497 | no write for an unknown or converted record; otherwise the income insert first, and the status update exactly when the insert succeeded |
| RemoteStore.ConvertOnce | src/context/FinanceContextSupabase.tsx:471-497 | after both writes succeed and the data is reloaded, the record is no longer pending, converting it again sends nothing, and the credited income is among the incomes |
| RemoteStore.ConvertApplied | src/context/FinanceContextSupabase.tsx:476-495 | the table after a conversion is the old rows plus the credited row, with every row of the pending id marked converted |
| RemoteStore.MarkedNotPending | src/context/FinanceContextSupabase.tsx:491-495 | after the status update no loaded pending income has the id |
| RemoteStore.IncomeSurvivesMark | src/context/FinanceContextSupabase.tsx:491-495 | the status update keeps every completed income row with another id among the incomes |
| RemoteStore.Store.constructor | src/context/FinanceContextSupabase.tsx:53-63 | empty collections, the stored notifications or none, the stored theme or light, and no user |
| RemoteStore.Store.LoadFinancialData | src/context/FinanceContextSupabase.tsx:107-184 | without a user nothing changes; otherwise the data becomes the classified rows with the given bills and goals, and no loaded pending income is converted |
| RemoteStore.Store.AddIncome | src/context/FinanceContextSupabase.tsx:225-265 | sends the insert only for a logged-in user, and puts the returned row in front of the incomes only when one came back; nothing else changes |
| RemoteStore.Store.AddNotification | src/context/FinanceContextSupabase.tsx:422-432 | the new unread notification goes in front; data, theme and user are unchanged |
| RemoteStore.Store.MarkNotificationAsRead | src/context/FinanceContextSupabase.tsx:434-438 | the id's notifications become read; nothing else changes |
| RemoteStore.Store.ClearNotifications | src/context/FinanceContextSupabase.tsx:440-442 | the notification list is empty and nothing else changes |
| RemoteStore.Store.ToggleTheme | src/context/FinanceContextSupabase.tsx:444-446 | the theme is toggled and nothing else changes |
| RemoteStore.Store.SetCurrentUser | src/context/FinanceContextSupabase.tsx:62 | `setCurrentUser`: only the user changes |
| SmartAlerts.DaysText | src/hooks/useSmartAlerts.ts:107 | `hoje` for 0 days, `amanhã` for 1, `em n dias` otherwise |
| SmartAlerts.DaysTextInjective | src/hooks/useSmartAlerts.ts:107 | different day counts are never worded alike |
| SmartAlerts.OverShareWhenPositive | src/hooks/useSmartAlerts.ts:58-59 | for a positive month total, a share over 40% means the value times 100 exceeds 40 times the total |
| SmartAlerts.Upcoming | src/hooks/useSmartAlerts.ts:97-99 | exactly the unpaid bills of the current month |
| SmartAlerts.FireFromFired | src/hooks/useSmartAlerts.ts:29-125 | a pass only appends alerts, and only alerts that were offered |
| SmartAlerts.FireFromLedger | src/hooks/useSmartAlerts.ts:30-38 | after a pass every offered alert is recorded for its period, and keys no alert carried are untouched |
| SmartAlerts.FireFromQuiet | src/hooks/useSmartAlerts.ts:30-38 | a pass where every alert was already sent for its period sends nothing and changes nothing |
| SmartAlerts.FireIdempotent | src/hooks/useSmartAlerts.ts:29-125 | a second pass over the same alerts, on the ledger the first left, sends nothing and leaves the ledger as it was |
| SmartAlerts.FiresUnderKey | src/hooks/useSmartAlerts.ts:30-38 | for a key at most one alert carries, an alert goes out under it exactly when one is offered that the ledger does not hold for its period |
| SmartAlerts.CandidatesConsistent | src/hooks/useSmartAlerts.ts:30-123 | the alerts of one pass never disagree about the period of a key: the month for the savings and category keys, today's date for the weekly and bill keys |
| SmartAlerts.AlertsOncePerPeriod | src/hooks/useSmartAlerts.ts:15-130 | after a pass every alert whose threshold holds is recorded for its period, and a second pass with the same data and clock sends nothing |
| SmartAlerts.NearGoalRule | src/hooks/useSmartAlerts.ts:19-40 | the 80% alert is sent exactly when the month has a goal, progress is at least 80 and below 100, and the ledger does not hold this month under its key |
| SmartAlerts.GoalReachedRule | src/hooks/useSmartAlerts.ts:42-51 | the goal-reached alert is sent exactly when the month has a goal, progress is at least 100, and the ledger does not hold this month under its key |
| SmartAlerts.SavingsAlertsExclusive | src/hooks/useSmartAlerts.ts:19-52 | the two savings alerts never go out together, and neither goes out for a month without a goal |
| SmartAlerts.CategoryRule | src/hooks/useSmartAlerts.ts:54-71 | a category's warning is sent exactly when it has expenses this month, its share of the month's total is over 40%, and the ledger does not hold this month under its key |
| SmartAlerts.WeeklyRule | src/hooks/useSmartAlerts.ts:73-92 | the weekly warning is sent exactly when the last seven days exceed 1.5 times the four-week average and the ledger does not hold today under its key |
| SmartAlerts.DueForAtMostOne | src/hooks/useSmartAlerts.ts:102-125 | one bill yields at most one alert, due-soon or overdue, under its own key |
| SmartAlerts.DueSoonRule | src/hooks/useSmartAlerts.ts:101-114 | with ids unique, a bill's due-soon warning is sent exactly when it is an unpaid bill of this month due in 0 to 5 days and the ledger does not hold today under its key |
| SmartAlerts.OverdueRule | src/hooks/useSmartAlerts.ts:116-125 | with ids unique, a bill's overdue warning is sent exactly when it is an unpaid bill of this month whose due day has passed and the ledger does not hold today under its key |
| SmartAlerts.Send | src/hooks/useSmartAlerts.ts:30-38 | one guarded send: nothing when the ledger holds the period under the key, otherwise the alert is sent and the period recorded |
| SmartAlerts.CheckSavings | src/hooks/useSmartAlerts.ts:19-52 | the savings checks send what the ledger lets through of the savings rules' alerts, in order |
| SmartAlerts.CheckCategories | src/hooks/useSmartAlerts.ts:54-71 | the loop over the breakdown sends what the ledger lets through of the category warnings, in breakdown order |
| SmartAlerts.CheckWeekly | src/hooks/useSmartAlerts.ts:73-92 | the weekly check sends what the ledger lets through of the weekly rule |
| SmartAlerts.CheckDue | src/hooks/useSmartAlerts.ts:94-126 | the loop over this month's unpaid bills sends what the ledger lets through of their due-soon and overdue warnings, in list order |
| SmartAlerts.CheckAlerts | src/hooks/useSmartAlerts.ts:16-127 | the whole pass equals offering every alert whose threshold holds, in the source's order, to the ledger |
| AutoConvert.SelectDue | src/hooks/useAutoConvertPending.ts:12-19 | exactly the records not yet converted whose expected day, moved to local midnight, is on or before today; west of UTC that is one day before the expected date, at UTC or east of it the expected date itself; a date that does not parse is never due |
| AutoConvert.SelectDueOrder | src/hooks/useAutoConvertPending.ts:12-19 | the selection keeps list order |
| AutoConvert.CheckAndConvert | src/hooks/useAutoConvertPending.ts:8-33 | nothing happens for an empty list; otherwise one conversion call per due record, in list order, with the writes those calls send |
| AutoConvert.ConvertEach | src/hooks/useAutoConvertPending.ts:21-27 | the loop calls the conversion once per record in order and collects exactly the writes of those calls; a failed insert does not stop it |
| AutoConvert.OneConversion | src/hooks/useAutoConvertPending.ts:23 | under unique ids, converting a present unconverted record sends its income insert and, when the insert succeeds, its status update |
| AutoConvert.EveryDueRecordInserted | src/hooks/useAutoConvertPending.ts:21-27 | under unique ids, each selected record gets exactly one insert of its own income and no other insert is sent |
| AutoConvert.MarksOnlyInserted | src/hooks/useAutoConvertPending.ts:21-27 | a record is marked converted only if it was selected and its own insert went through |
| AutoConvert.InsertedAreMarked | src/hooks/useAutoConvertPending.ts:21-27 | every selected record whose insert went through is marked converted |
| AutoConvert.DueRecordsConverted | src/hooks/useAutoConvertPending.ts:12-27 | under unique ids: one insert per due record carrying its income, and the records marked converted are exactly the due ones whose insert succeeded |
| Dashboard.MonthlyFiguresAgree | src/views/Dashboard.tsx:27-54 | the available figure is the month's savings, income less every paid expense; the fixed total is paid plus unpaid bills, and with non-negative values the paid part never exceeds it |
| Dashboard.PendingToReceiveAdds | src/views/Dashboard.tsx:57-61 | a pending income counts toward what is to be received exactly when it is not converted, wherever it stands in the list and whatever its date |
| Dashboard.PercentOf | src/views/Dashboard.tsx:68 | for a non-zero target the progress times the target is 100 times the savings; for a zero target it is plus or minus infinity or NaN according to the sign of the savings |
| Dashboard.BandOf | src/views/Dashboard.tsx:69-84 | emerald exactly from 99%, amber exactly from 71% below that, red otherwise, with JavaScript's comparisons on infinities and NaN |
| Dashboard.SavingsCard | src/views/Dashboard.tsx:64-87 | no card exactly when the month has no goal; otherwise the goal's target, the unclamped progress of the savings toward it and its band |
| Dashboard.SavingsCardNotClamped | src/views/Dashboard.tsx:64-87 | savings above a positive goal show more than 100% in the emerald band |
| Dashboard.PercentAboveHundred | src/views/Dashboard.tsx:68 | savings above a positive target are more than 100% of it |
| Dashboard.TopCategories | src/views/Dashboard.tsx:90-96 | at most five categories, all five when there are that many, largest total first, drawn from the given totals |
| Dashboard.TopCategoriesAreLargest | src/views/Dashboard.tsx:90-96 | no category that is cut has a larger total than one that is shown |
| Dashboard.CategoryShare | src/views/Dashboard.tsx:211-212 | the share times the total is 100 times the category's value, and a zero total is read as 1 |
| History.Assemble | src/views/History.tsx:37-57 | balance and savings are income less all expenses, which are the variable expenses plus the paid bills; the goal shown is the target or 0 without one; the progress is the clamped progress toward the goal or 0 without one, and the pending figure is passed through |
| History.SummaryFacts | src/views/History.tsx:37-57 | the summary's balance equals its savings, which equal the month's savings as `calculateSavings` computes them, and the pending figure is the dashboard's |
| History.SummaryProgress | src/views/History.tsx:37-57 | progress is 0 for a month without a goal; otherwise at most 100 and the clamped progress of the month's savings toward the goal |
| History.Transactions | src/views/History.tsx:59-127 | the list is the items the type filter lets through, from the month's incomes and expenses, its paid bills and its converted pending incomes, sorted newest first |
| History.TransactionsOrdered | src/views/History.tsx:126 | the list is in non-increasing date order and holds exactly the collected items |
| History.SameDayKeepsCollectedOrder | src/views/History.tsx:126 | items of the same day stay in the order they were collected, because the sort is stable |
| Base.SortStable | src/views/History.tsx:126 | the sort is stable: for every key, the elements with that key come out in the order they went in |
| History.NewestFirstOrder | src/views/History.tsx:126 | a list sorted by the negated day is in non-increasing day order |
| History.CollectedSources | src/views/History.tsx:62-124 | every item is of a type the filter allows and comes from a record of the month that qualifies for its type |
| History.CollectedComplete | src/views/History.tsx:62-124 | with the filter at all, every qualifying record of each source is listed, and the list has one item per such record |
| History.UserExpenses | src/views/History.tsx:129-141 | the map has a key exactly for each non-empty user name among the month's expenses, holding the sum of that user's expenses |
| History.TallyStep | src/views/History.tsx:134-138 | adding one expense to the running map keeps it the per-user tally of the longer list |
| History.SpentStep | src/views/History.tsx:134-138 | one more expense adds its own user to those who spent, and no other |
| History.SumStep | src/views/History.tsx:134-138 | one more expense adds its value to its own user's sum only |
| Settings.EditRoundTrip | src/views/Settings.tsx:82-95 | the form `handleEdit` fills in gives the bill's own name back as the final name, and shows `Outros` exactly for names not on the predefined list |
| Settings.FixedSubmit | src/views/Settings.tsx:30-50 | an update of name, value and due day exactly when an edit is open; otherwise a new unpaid bill of the selected month under the final name |
| Settings.EditUnchangedIsIdentity | src/views/Settings.tsx:30-50 | opening a bill and saving the untouched form writes the record back unchanged and is not a payment |
| Settings.GoalSubmit | src/views/Settings.tsx:52-59 | a goal is saved exactly when the target parses to a number above zero, for the chosen month and that target |
| Settings.GoalSubmitKeepsPositive | src/views/Settings.tsx:52-59 | saving through the form keeps every stored goal target above zero |
| Settings.MonthExpenses | src/views/Settings.tsx:106-108 | the selected month's bills, the same records as the month filter, earliest due day first |
| Settings.MonthTotalsAgree | src/views/Settings.tsx:110-113 | the totals over the sorted list equal the month's fixed total and paid total, and with non-negative values the paid part is at most the total |
| Settings.PaidOfMonth | src/views/Settings.tsx:111-113 | filtering the month's bills by paid gives the month's paid bills |
| Settings.ToggleLaws | src/views/Settings.tsx:102-104 | the toggle flips the paid flag and nothing else, toggling twice restores the bill, and it is a payment exactly when the bill was unpaid |
| QuickAdd.DescriptionOptions | src/views/QuickAdd.tsx:83-90 | incomes and pending incomes share one list, expenses have their own, no type offers nothing, and every chosen type offers `Outros` |
| QuickAdd.OfferedDescriptionsUsable | src/views/QuickAdd.tsx:36-38 | any offered description other than `Outros` is used as chosen and passes the non-blank check |
| QuickAdd.QuickAddAccepts | src/views/QuickAdd.tsx:34-81 | a store call is made exactly when the value is positive, the description is not blank, a type is chosen, a user is logged in and a pending income has a date; the type decides which of the three calls |
| QuickAdd.QuickAddPayload | src/views/QuickAdd.tsx:39-67 | every record sent is under `outros` with the trimmed non-empty description, the parsed value and the user; incomes and expenses are dated today, a pending income carries the chosen date |
| QuickAdd.QuickAddReachesStore | src/views/QuickAdd.tsx:53-67 | the remote store turns an accepted submission into a completed income or expense row dated today, or a pending row expected on the chosen date, owned by the user |
| QuickAdd.QuickForm.constructor | src/views/QuickAdd.tsx:28-32 | every field starts empty |
| QuickAdd.QuickForm.HandleQuickAdd | src/views/QuickAdd.tsx:34-81 | the call made is the decision above; the fields are cleared only after a call that completed, and stay as they were otherwise |
| QuickAdd.QuickForm.Reset | src/views/QuickAdd.tsx:70-74 | every field is empty again |
| NotificationsView.FormatTime | src/views/Notifications.tsx:36-49 | each bucket is chosen exactly for its range of elapsed time, and its number n satisfies n units at most the elapsed time and less than n+1 units; an invalid date falls to the date fallback |
| NotificationsView.FormatTimeMonotone | src/views/Notifications.tsx:36-49 | an older notification never gets a finer bucket, nor a smaller number in the same bucket, than a newer one |
| Storage.ExportToCsv | src/utils/storage.ts:56-79 | the rows are the header, then one row per income, expense and fixed expense in that order, and the text is them joined by line breaks |
| Storage.CsvRowsLayout | src/utils/storage.ts:59-77 | row count is one plus the number of records, row 0 is the header, and each record's row sits at its position in its group |
| Storage.FixedRowDate | src/utils/storage.ts:75 | the day part of a bill's date has at least two characters, and for a due day from 1 to 31 exactly two digits that read back as the due day |
| Storage.Lines | src/utils/storage.ts:79 | splitting text at line breaks gives at least one line |
| Storage.SplitJoin | src/utils/storage.ts:79 | splitting the joined rows at line breaks gives the rows back when no row holds a line break |
| Storage.CsvRowsSingleLine | src/utils/storage.ts:59-77 | while no field or printed number holds a line break, no row of the export does |
| Storage.CsvReadsBack | src/utils/storage.ts:56-79 | under the same condition, splitting the export at line breaks gives exactly its rows |
| Login.NormalizeLaws | src/views/Login.tsx:22-24 | normalising keeps exactly the digit characters of the input, and a second normalisation changes nothing |
| Login.FormatRoundTrip | src/views/Login.tsx:15-20 | the digits of the masked number are the digits of the input, cut to eleven |
| Login.FormatIdempotent | src/views/Login.tsx:15-20 | masking already-masked text changes nothing, so re-masking on every keystroke is stable |
| Login.MaskDigits | src/views/Login.tsx:18 | the digits of `(aa) bbbbb` are `aa` followed by `bbbbb` |
| Login.FullMaskDigits | src/views/Login.tsx:19 | the digits of `(aa) bbbbb-cccc` are `aa`, `bbbbb` and `cccc` in order |
| Login.RestoreDecision | src/views/Login.tsx:32-51 | a session is resumed only for a saved phone the table authorises, logging that user in with remember-me set |
| Login.RememberedLoginRestores | src/views/Login.tsx:32-51 | after a remembered login, the session is resumed for the same user and number while under 24 hours have passed, and expired from 24 hours on |
| Login.ClearedStaysCleared | src/views/Login.tsx:46-48 | once the three keys are removed, nothing is resumed and nothing is cleared again |
| Login.LoginScreen.constructor | src/views/Login.tsx:27-30 | empty phone and error, remember-me off, not loading, with the browser storage as found |
| Login.LoginScreen.PhoneChange | src/views/Login.tsx:54-58 | the field shows the masked input and the error is cleared; nothing else changes |
| Login.LoginScreen.HandleLogin | src/views/Login.tsx:60-95 | a number without eleven digits is refused with the length message, an unauthorised one with the authorisation message, both leaving storage alone; otherwise the user is logged in under the normalised number, and the session is saved with the current time when remember-me is on and its keys removed when it is off |
| Login.LoginScreen.RestoreRemembered | src/views/Login.tsx:32-52 | the remember-me effect logs in exactly when the decision resumes, removes the three keys exactly when it expires, and otherwise leaves storage alone |

## Left out

- Database I/O. The `supabase` queries, awaits, error logging and realtime channel subscriptions are not modelled. Rows read are parameters, and each write is a returned value whose success is a parameter.
- Database-side sorting. The `order(...)` clauses of `loadFinancialData` are not modelled: rows arrive in whatever order the parameter gives. The bill and goal rows are taken as already mapped to records.
- Remote store operations that only send one write and change no local state are modelled by the write they send:
  - `addExpense` (`EntryInsert`);
  - `addPendingIncome` (`PendingInsert`);
  - `updateIncome` and `updateExpense` (`TransactionUpdate`);
  - `updateFixedExpense` (`FixedExpenseUpdate`);
  - `setSavingsGoal` (`GoalCommand`);
  - `convertPendingToIncome` (`ConvertWrites`).
- Remote store operations with no model at all:
  - the deletes, whose whole effect is a `delete().eq('id', id)` on the database;
  - `addFixedExpense`, an insert of the given fields with `is_paid` defaulting to false.
- Browser storage and downloads. `localStorage` and JSON persistence, the `Blob` download and DOM class toggling are not modelled. Stored values are parameters. The alert ledger is an explicit map, and the login screen's storage is a map field.
- Clock reads. `new Date()`, `Date.now()` and `toISOString` are parameters: the month key, today's date string, the day of the month, today's day number and now in milliseconds. The due-date check of `AutoConvert` takes the local zone's offset from UTC as a parameter as well, one offset for both dates, so a daylight-saving change between them is not modelled. Elsewhere, the mismatch between the UTC date of `toISOString` and the local `getDate` is not modelled. The last-seven-days cut of the weekly rule is taken at `now - 7 days` in milliseconds, against dates read as midnight UTC.
- Number formatting. Floating point, locale formatting, `toFixed` text and `formatCurrency` are not modelled. The text a number prints as is a parameter of the CSV export, and alert messages are data (`AlertText`), not text. Money is an exact `real`.
- Number parsing. `parseFloat` and `parseInt` of form fields are parameters: the parsed number, or `None` for NaN.
- Login.RestoreDecision: the saved login time is read as a plain decimal number. `parseInt`'s acceptance of a leading sign, surrounding spaces or trailing junk is not modelled; such text counts as NaN, which expires the session.
- Dates.ParseDate: only the `YYYY-MM-DD` shape is read, and the contract states the shape of an accepted string; the value is stated by `ParseDateText` for years 1000 to 9999. A day from 1 to 31 is accepted in every month and counts on into the next month (`CalendarSteps` states the one-day step). This follows V8, which rolls `2024-02-31` over to 2 March. ECMA-262 leaves a date string with an out-of-range day to each engine's own fallback, and other engines give Invalid Date for it, which the model does not follow. Every other shape is an invalid date.
- Generated ids. `generateId` and `Math.random()` ids are parameters. So is the creation timestamp.
- `getWeekRange`, `formatCurrency`, `formatDate` and `getMonthName` are date or locale library behaviour and are not modelled.
- React scheduling. Effect re-runs, the 500 ms `setTimeout` before `onLogin`, stale closures over `data` and the side effect inside a `setData` updater are not modelled. Each operation acts on the current state in one step. The conversion loop reads one snapshot of the pending list for every call, as the source's closure does.
- Login authorisation table. The table of authorised numbers is a parameter of the login operations. Its two entries, personal phone numbers and names, are not reproduced. JavaScript prototype keys of that object (such as `constructor`) are not modelled.
- Patch semantics. Patches are records of optional fields: a field is either present with a value or absent. A key present with the value `undefined`, and the key order of spread objects, are not modelled.
- History.TransactionsOrdered: a date that does not parse is sorted as day 0. In the source, the comparator returns NaN for such a date, which leaves its position to the JavaScript engine.
- Dashboard.TopCategories: the contract states the size, the order and that the five come from the breakdown, and `TopCategoriesAreLargest` states that none cut is larger. Which of several equal totals is kept is not stated.
- Calculations.WeeklyAverage: requires `weeks > 0`. The source divides by `weeks`, so zero weeks gives NaN or an infinity, which the model does not represent. The only caller passes 4.
- FinanceContext.PaymentExpensesExactlyOne, RemoteStore.GoalWriteMatchesLocalUpsert, SmartAlerts.DueSoonRule, SmartAlerts.OverdueRule and AutoConvert.DueRecordsConverted assume record ids are unique. With repeated ids the source acts on every matching record, and the model computes that too, but these lemmas do not state it.
- FinanceContext.PaymentExpenses: every derived expense of one update gets the same new id. The source calls `generateId()` once per matching record, so with repeated bill ids its derived expenses get different ids.
- RemoteStore.RowToEntry: every loaded income and expense carries the row's user id and name. A row whose user columns are null loads them as null in the source; the model has no null user columns.
- Storage.CsvReadsBack: holds only when no field holds a line break. Quotes and line breaks inside descriptions are not escaped by the export.
- NotificationsView.FormatTime: the text of the locale-date fallback for notifications a week old or more is left to the caller.
- Views. UI components, JSX rendering, class names, icons and src/views/Transactions.tsx, a display-only merge and sort, are not modelled.

Facts about the code that are easy to miss:

- A paid bill's derived expense is described `Pagamento: ` plus the bill's name, under category `contas`.
- The remote `updateFixedExpense` appends no derived expense. Only `LocalStore.UpdateFixedExpense` does.
- Conversion sets the row's status to `converted` only after the income insert succeeds. A reload then drops the row from the pending list.
- Within one pass the 80% and 100% savings alerts exclude each other. Both can go out in the same month, in separate passes.
- The default data has no `pendingIncomes` key. The model starts from an empty list.
- A pending income's date is read as midnight UTC and then set to local midnight. West of UTC, as in Brazil, it therefore converts on the local day before its expected date (`Dates.LocalDay`, `AutoConvert.SelectDue`).
