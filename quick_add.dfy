/** The quick-entry form of src/views/QuickAdd.tsx: which description
    list it offers, when a submission is accepted, which store operation
    it calls with what record, and the reset of the form afterwards. */
module QuickAdd {

  import opened Base
  import opened Text
  import opened FinanceTypes
  import RemoteStore

  /** `quickType`; `NoType` is the empty choice the form starts with. */
  datatype QuickType = NoType | IncomeType | ExpenseType | PendingType

  const Other: string := "Outros"

  const IncomeDescriptions: seq<string> :=
    ["Faxina Galpão", "Faxina APTO", "Bolsa Família", "Entregas Food", "Entrega E-commerce", "Outros"]

  const ExpenseDescriptions: seq<string> :=
    ["Combustível", "Pão", "Ifood", "Manicure", "Cabeleireiro", "Outros"]

  /** Lines 83-90, `getDescriptionOptions`: incomes and pending incomes
      share one list, expenses have their own, and no type chosen offers
      nothing; every chosen type offers `Outros`. */
  function DescriptionOptions(t: QuickType): (r: seq<string>)
    ensures t == NoType <==> r == []
    ensures t != NoType ==> Other in r
    ensures t == IncomeType || t == PendingType ==> r == IncomeDescriptions
    ensures t == ExpenseType ==> r == ExpenseDescriptions
  {
    assert IncomeDescriptions[5] == Other && ExpenseDescriptions[5] == Other;
    match t
    case IncomeType => IncomeDescriptions
    case PendingType => IncomeDescriptions
    case ExpenseType => ExpenseDescriptions
    case NoType => []
  }

  /** Line 36: the typed description when `Outros` is chosen. */
  function FinalDescription(choice: string, custom: string): string
  {
    if choice == Other then custom else choice
  }

  /** Every offered description other than `Outros` is used as chosen,
      and it is never blank, so choosing it alone passes the description
      check. */
  lemma OfferedDescriptionsUsable(t: QuickType, choice: string, custom: string)
    requires choice in DescriptionOptions(t) && choice != Other
    ensures FinalDescription(choice, custom) == choice
    ensures HasContent(FinalDescription(choice, custom))
  {
    assert !IsSpace(choice[0]);
  }

  /** The store operation a submission calls, with the record it passes;
      ids and creation times are assigned by the store and left empty. */
  datatype Dispatch =
    | AddPending(pending: PendingIncome)
    | AddIncome(income: Income)
    | AddExpense(expense: Expense)

  /** Lines 34-81, the decision in `handleQuickAdd`. `value` is what
      `parseFloat` gave, `None` standing for NaN; `today` is the date part
      of the current ISO timestamp. */
  function QuickAddCall(value: Option<real>, choice: string, custom: string, t: QuickType,
                        expectedDate: string, user: Option<User>, today: string): Option<Dispatch>
  {
    var d := FinalDescription(choice, custom);
    if value.Some? && value.value > 0.0 && Trim(d) != [] && t != NoType && user.Some? then
      var u := user.value;
      if t == PendingType then
        if expectedDate == "" then None
        else Some(AddPending(PendingIncome("", value.value, Trim(d), "outros", expectedDate, today,
                                           u.id, u.name, false, "")))
      else if t == IncomeType then
        Some(AddIncome(Entry("", value.value, today, "outros", Trim(d), "", Some(u.id), Some(u.name))))
      else
        Some(AddExpense(Entry("", value.value, today, "outros", Trim(d), "", Some(u.id), Some(u.name))))
    else None
  }

  /** A submission goes through exactly when the value is positive, the
      description has a non-blank character, a type is chosen, a user is
      logged in and, for a pending income, an expected date is given; the
      type decides the one operation called. */
  lemma QuickAddAccepts(value: Option<real>, choice: string, custom: string, t: QuickType,
                        expectedDate: string, user: Option<User>, today: string)
    ensures QuickAddCall(value, choice, custom, t, expectedDate, user, today).Some? <==>
      value.Some? && value.value > 0.0 && HasContent(FinalDescription(choice, custom)) && t != NoType &&
      user.Some? && (t == PendingType ==> expectedDate != "")
    ensures var r := QuickAddCall(value, choice, custom, t, expectedDate, user, today);
      r.Some? ==> (r.value.AddPending? <==> t == PendingType) && (r.value.AddIncome? <==> t == IncomeType) &&
                  (r.value.AddExpense? <==> t == ExpenseType)
  {
  }

  /** Lines 39-45: every record sent is filed under `outros`, carries the
      trimmed description (non-empty, without whitespace at either end),
      the parsed value and the logged-in user; incomes and expenses are
      dated today and a pending income is expected on the chosen date. */
  lemma QuickAddPayload(value: Option<real>, choice: string, custom: string, t: QuickType,
                        expectedDate: string, user: Option<User>, today: string)
    requires QuickAddCall(value, choice, custom, t, expectedDate, user, today).Some?
    ensures var r := QuickAddCall(value, choice, custom, t, expectedDate, user, today).value;
      var d := Trim(FinalDescription(choice, custom));
      d != [] && !IsSpace(d[0]) && !IsSpace(d[|d| - 1]) &&
      match r
      case AddPending(p) =>
        p.category == "outros" && p.description == d && p.value == value.value &&
        p.userId == user.value.id && p.userName == user.value.name &&
        p.expectedDate == expectedDate && p.createdDate == today
      case AddIncome(e) =>
        e.category == "outros" && e.description == d && e.value == value.value &&
        e.userId == Some(user.value.id) && e.userName == Some(user.value.name) && e.date == today
      case AddExpense(e) =>
        e.category == "outros" && e.description == d && e.value == value.value &&
        e.userId == Some(user.value.id) && e.userName == Some(user.value.name) && e.date == today
  {
    var d := Trim(FinalDescription(choice, custom));
    assert d != [] && !IsSpace(d[0]) && !IsSpace(d[|d| - 1]);
  }

  /** What the store sends for an accepted submission: a completed income
      or expense row, or a pending row expected on the chosen date, in
      every case owned by the user who submitted it. */
  lemma QuickAddReachesStore(value: Option<real>, choice: string, custom: string, t: QuickType,
                             expectedDate: string, user: Option<User>, today: string)
    requires QuickAddCall(value, choice, custom, t, expectedDate, user, today).Some?
    ensures match QuickAddCall(value, choice, custom, t, expectedDate, user, today).value
      case AddPending(p) =>
        var n := RemoteStore.PendingInsert(p, user);
        n.Some? && n.value.kind == "pending_income" && n.value.status == "pending" &&
        n.value.expectedDate == Some(expectedDate) && n.value.userId == user.value.id && n.value.category == "outros"
      case AddIncome(e) =>
        var n := RemoteStore.EntryInsert("income", e, user);
        n.Some? && n.value.status == "completed" && n.value.transactionDate == today &&
        n.value.userId == user.value.id && n.value.category == "outros"
      case AddExpense(e) =>
        var n := RemoteStore.EntryInsert("expense", e, user);
        n.Some? && n.value.status == "completed" && n.value.transactionDate == today &&
        n.value.userId == user.value.id && n.value.category == "outros"
  {
  }

  /** The form's fields, kept between submissions. */
  class QuickForm {
    var quickValue: Option<real>
    var quickDescription: string
    var customDescription: string
    var quickType: QuickType
    var expectedDate: string

    constructor()
      ensures quickValue.None? && quickDescription == "" && customDescription == ""
      ensures quickType == NoType && expectedDate == ""
    {
      quickValue := None;
      quickDescription := "";
      customDescription := "";
      quickType := NoType;
      expectedDate := "";
    }

    /** `handleQuickAdd`: returns the store call made, if any. The form is
        cleared only after a call that completed (`completed` false stands
        for an operation that threw); a rejected submission, including a
        pending income without a date, leaves every field as it was. */
    method HandleQuickAdd(user: Option<User>, today: string, completed: bool) returns (call: Option<Dispatch>)
      modifies this
      ensures call == QuickAddCall(old(quickValue), old(quickDescription), old(customDescription),
                                   old(quickType), old(expectedDate), user, today)
      ensures call.Some? && completed ==>
        quickValue.None? && quickDescription == "" && customDescription == "" &&
        quickType == NoType && expectedDate == ""
      ensures call.None? || !completed ==>
        quickValue == old(quickValue) && quickDescription == old(quickDescription) &&
        customDescription == old(customDescription) && quickType == old(quickType) &&
        expectedDate == old(expectedDate)
    {
      call := QuickAddCall(quickValue, quickDescription, customDescription, quickType, expectedDate, user, today);
      if call.Some? && completed {
        Reset();
      }
    }

    /** The reset after a completed call: every field back to empty. */
    method Reset()
      modifies this
      ensures quickValue.None? && quickDescription == "" && customDescription == ""
      ensures quickType == NoType && expectedDate == ""
    {
      quickValue := None;
      quickDescription := "";
      customDescription := "";
      quickType := NoType;
      expectedDate := "";
    }
  }
}
