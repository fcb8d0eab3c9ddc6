/** The CSV export of src/utils/storage.ts: one header row, then one row
    per income, expense and fixed expense, joined by line breaks. The text
    JavaScript prints for a number is a parameter `show`. */
module Storage {

  import opened Base
  import opened Text
  import opened FinanceTypes

  /** Line 59. */
  const Header: string := "Tipo,Valor,Data,Categoria,Descrição"

  /** `String(n)` for a whole number, with the minus sign of a negative one. */
  function IntToString(n: int): string
  {
    if n < 0 then "-" + NatToString(-n) else NatToString(n)
  }

  /** Descriptions are put between double quotes as they are: a quote, a
      comma or a line break inside is not escaped. */
  function Quoted(s: string): string
  {
    "\"" + s + "\""
  }

  /** Line 63. */
  function IncomeRow(show: real -> string): Income -> string
  {
    (e: Income) => "Entrada," + show(e.value) + "," + e.date + "," + e.category + "," + Quoted(e.description)
  }

  /** Line 69. */
  function ExpenseRow(show: real -> string): Expense -> string
  {
    (e: Expense) => "Gasto," + show(e.value) + "," + e.date + "," + e.category + "," + Quoted(e.description)
  }

  /** Line 75: dated `month-dd`, the due day padded to two digits, under
      the category `Fixa`. */
  function FixedRow(show: real -> string): FixedExpense -> string
  {
    (f: FixedExpense) =>
      "Despesa Fixa," + show(f.value) + "," + f.month + "-" + PadStart2(IntToString(f.dueDay)) + ",Fixa," + Quoted(f.name)
  }

  /** The rows `exportToCSV` builds, in push order. */
  function CsvRows(data: FinancialData, show: real -> string): seq<string>
  {
    [Header] + Map(data.incomes, IncomeRow(show)) + Map(data.expenses, ExpenseRow(show))
      + Map(data.fixedExpenses, FixedRow(show))
  }

  /** Lines 56-79: the rows of `exportToCSV` and the text they join to. */
  method ExportToCsv(data: FinancialData, show: real -> string) returns (rows: seq<string>, csv: string)
    ensures rows == CsvRows(data, show)
    ensures csv == Join(rows, "\n")
  {
    rows := [Header];
    rows := PushAll(rows, data.incomes, IncomeRow(show));
    rows := PushAll(rows, data.expenses, ExpenseRow(show));
    rows := PushAll(rows, data.fixedExpenses, FixedRow(show));
    csv := Join(rows, "\n");
  }

  /** One row per record after the header: incomes first, then expenses,
      then fixed expenses, each in list order. */
  lemma CsvRowsLayout(data: FinancialData, show: real -> string)
    ensures |CsvRows(data, show)| == 1 + |data.incomes| + |data.expenses| + |data.fixedExpenses|
    ensures CsvRows(data, show)[0] == Header
    ensures forall i :: 0 <= i < |data.incomes| ==> CsvRows(data, show)[1 + i] == IncomeRow(show)(data.incomes[i])
    ensures forall i :: 0 <= i < |data.expenses| ==>
      CsvRows(data, show)[1 + |data.incomes| + i] == ExpenseRow(show)(data.expenses[i])
    ensures forall i :: 0 <= i < |data.fixedExpenses| ==>
      CsvRows(data, show)[1 + |data.incomes| + |data.expenses| + i] == FixedRow(show)(data.fixedExpenses[i])
  {
  }

  /** A fixed expense is dated inside its own month: the date column is
      the month key, a dash and the due day as at least two characters,
      and a due day from 1 to 31 gives exactly two digits. */
  lemma FixedRowDate(f: FixedExpense)
    ensures |PadStart2(IntToString(f.dueDay))| >= 2
    ensures 1 <= f.dueDay <= 31 ==>
      var dd := PadStart2(IntToString(f.dueDay));
      |dd| == 2 && AllDigits(dd) && ParseNat(dd) == Some(f.dueDay)
  {
    if 1 <= f.dueDay <= 31 {
      ParseNatToString(f.dueDay);
      PaddedParses(f.dueDay);
    }
  }

  // ---- Reading the rows back ------------------------------------------------

  /** `text.split('\n')`. */
  function Lines(s: string): (r: seq<string>)
    ensures |r| >= 1
  {
    if s == [] then [""]
    else
      var rest := Lines(s[1..]);
      if s[0] == '\n' then [""] + rest else [[s[0]] + rest[0]] + rest[1..]
  }

  lemma {:induction false} LinesOfLine(a: string, b: string)
    requires '\n' !in a
    ensures Lines(a + b) == [a + Lines(b)[0]] + Lines(b)[1..]
  {
    if a != [] {
      assert (a + b)[1..] == a[1..] + b;
      assert a[0] in a;
      assert forall c :: c in a[1..] ==> c in a;
      LinesOfLine(a[1..], b);
      assert [a[0]] + (a[1..] + Lines(b)[0]) == a + Lines(b)[0];
    } else {
      assert a + b == b;
      assert a + Lines(b)[0] == Lines(b)[0];
      assert Lines(b) == [Lines(b)[0]] + Lines(b)[1..];
    }
  }

  /** Splitting the joined text at line breaks gives back the rows, as
      long as no row holds a line break itself. */
  lemma {:induction false} SplitJoin(rows: seq<string>)
    requires |rows| >= 1
    requires forall r :: r in rows ==> '\n' !in r
    ensures Lines(Join(rows, "\n")) == rows
  {
    if |rows| == 1 {
      LinesOfLine(rows[0], "");
      assert Lines("") == [""];
      assert rows[0] + "" == rows[0];
      assert rows == [rows[0]];
    } else {
      var tail := Join(rows[1..], "\n");
      assert rows[0] in rows;
      assert forall r :: r in rows[1..] ==> r in rows;
      SplitJoin(rows[1..]);
      assert Join(rows, "\n") == rows[0] + ("\n" + tail);
      LinesOfLine(rows[0], "\n" + tail);
      assert ("\n" + tail)[1..] == tail;
      assert Lines("\n" + tail) == [""] + Lines(tail);
      assert ([""] + Lines(tail))[1..] == Lines(tail);
      assert rows[0] + "" == rows[0];
      assert rows == [rows[0]] + rows[1..];
    }
  }

  /** No text field of the data, and no printed number, holds a line break. */
  ghost predicate SingleLineFields(data: FinancialData, show: real -> string)
  {
    (forall v :: '\n' !in show(v)) &&
    (forall e :: e in data.incomes ==> '\n' !in e.date && '\n' !in e.category && '\n' !in e.description) &&
    (forall e :: e in data.expenses ==> '\n' !in e.date && '\n' !in e.category && '\n' !in e.description) &&
    (forall f :: f in data.fixedExpenses ==> '\n' !in f.month && '\n' !in f.name)
  }

  lemma NoBreakInNumber(n: int)
    ensures '\n' !in PadStart2(IntToString(n))
  {
    var m: nat := if n < 0 then -n else n;
    assert forall c :: c in NatToString(m) ==> IsDigit(c);
  }

  /** One income or expense row, from fields without line breaks. */
  lemma EntryRowSingleLine(e: Entry, shown: string, kind: string)
    requires '\n' !in shown && '\n' !in kind
    requires '\n' !in e.date && '\n' !in e.category && '\n' !in e.description
    ensures '\n' !in kind + "," + shown + "," + e.date + "," + e.category + "," + Quoted(e.description)
  {
  }

  lemma EntryRowsSingleLine(data: FinancialData, show: real -> string)
    requires SingleLineFields(data, show)
    ensures forall e :: e in data.incomes ==> '\n' !in IncomeRow(show)(e)
    ensures forall e :: e in data.expenses ==> '\n' !in ExpenseRow(show)(e)
  {
    forall e | e in data.incomes ensures '\n' !in IncomeRow(show)(e) {
      EntryRowSingleLine(e, show(e.value), "Entrada");
    }
    forall e | e in data.expenses ensures '\n' !in ExpenseRow(show)(e) {
      EntryRowSingleLine(e, show(e.value), "Gasto");
    }
  }

  /** One fixed-expense row, from fields without line breaks. */
  lemma FixedRowSingleLine(f: FixedExpense, shown: string)
    requires '\n' !in shown && '\n' !in f.month && '\n' !in f.name
    ensures '\n' !in "Despesa Fixa," + shown + "," + f.month + "-" + PadStart2(IntToString(f.dueDay)) + ",Fixa," + Quoted(f.name)
  {
    NoBreakInNumber(f.dueDay);
  }

  lemma FixedRowsSingleLine(data: FinancialData, show: real -> string)
    requires SingleLineFields(data, show)
    ensures forall f :: f in data.fixedExpenses ==> '\n' !in FixedRow(show)(f)
  {
    forall f | f in data.fixedExpenses ensures '\n' !in FixedRow(show)(f) {
      FixedRowSingleLine(f, show(f.value));
    }
  }

  lemma MapSingleLine<T>(xs: seq<T>, f: T -> string)
    requires forall x :: x in xs ==> '\n' !in f(x)
    ensures forall r :: r in Map(xs, f) ==> '\n' !in r
  {
    forall r | r in Map(xs, f) ensures '\n' !in r {
      var i :| 0 <= i < |xs| && Map(xs, f)[i] == r;
      assert xs[i] in xs;
    }
  }

  lemma SingleLineConcat(h: seq<string>, a: seq<string>, b: seq<string>, c: seq<string>)
    requires forall r :: r in h ==> '\n' !in r
    requires forall r :: r in a ==> '\n' !in r
    requires forall r :: r in b ==> '\n' !in r
    requires forall r :: r in c ==> '\n' !in r
    ensures forall r :: r in h + a + b + c ==> '\n' !in r
  {
  }

  /** The export reads back row by row: while no field holds a line
      break, splitting the CSV text at line breaks gives exactly the header
      and one row per record. A line break inside a description, which the
      quoting does not escape, would split its row in two. */
  lemma CsvReadsBack(data: FinancialData, show: real -> string)
    requires SingleLineFields(data, show)
    ensures Lines(Join(CsvRows(data, show), "\n")) == CsvRows(data, show)
  {
    CsvRowsSingleLine(data, show);
    SplitJoin(CsvRows(data, show));
  }

  lemma HeaderSingleLine()
    ensures '\n' !in Header
  {
    assert forall i :: 0 <= i < |Header| ==> Header[i] != '\n';
  }

  /** No row of the export holds a line break. */
  lemma CsvRowsSingleLine(data: FinancialData, show: real -> string)
    requires SingleLineFields(data, show)
    ensures forall r :: r in CsvRows(data, show) ==> '\n' !in r
  {
    var a := Map(data.incomes, IncomeRow(show));
    var b := Map(data.expenses, ExpenseRow(show));
    var c := Map(data.fixedExpenses, FixedRow(show));
    assert forall r :: r in a ==> '\n' !in r by {
      EntryRowsSingleLine(data, show);
      MapSingleLine(data.incomes, IncomeRow(show));
    }
    assert forall r :: r in b ==> '\n' !in r by {
      EntryRowsSingleLine(data, show);
      MapSingleLine(data.expenses, ExpenseRow(show));
    }
    assert forall r :: r in c ==> '\n' !in r by {
      FixedRowsSingleLine(data, show);
      MapSingleLine(data.fixedExpenses, FixedRow(show));
    }
    HeaderSingleLine();
    SingleLineConcat([Header], a, b, c);
  }
}
