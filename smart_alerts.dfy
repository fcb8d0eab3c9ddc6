/** The alert engine of src/hooks/useSmartAlerts.ts. Six threshold rules
    look at the current data; each alert is remembered in a ledger (the
    source keeps it in `localStorage`) under a key, together with the
    period it was sent for (the month, or today's date), and is not sent
    again while the ledger holds that period under its key.

    The model separates the two concerns: `Candidates` lists, in the order
    the source checks them, the alerts whose thresholds hold, and `Fire`
    runs them through the ledger. `CheckAlerts` is the source's own pass,
    with its loops over categories and upcoming bills, proved equal to
    `Fire(Candidates(..))`. */
module SmartAlerts {

  import opened Base
  import opened Text
  import opened Dates
  import opened FinanceTypes
  import opened Calculations

  /** Key -> period: what `localStorage` holds for the alert keys. */
  type Ledger = map<string, string>

  const Key80: string := "last_alert_80"
  const Key100: string := "last_alert_100"
  const KeyWeekly: string := "last_alert_weekly"
  const CategoryKeyPrefix: string := "last_alert_category_"
  const DueKeyPrefix: string := "last_alert_due_"
  const OverdueKeyPrefix: string := "last_alert_overdue_"

  /** What a notification says, before number formatting. */
  datatype AlertText =
    | NearGoal(remaining: real)
    | GoalReached
    | CategoryShare(category: string, spent: real, monthTotal: real)
    | WeeklySpike
    | DueSoon(name: string, days: nat, amount: real)
    | Overdue(name: string, daysLate: nat, amount: real)

  /** An alert whose threshold holds, with the ledger key and period that de-duplicate it. */
  datatype Candidate = Candidate(key: string, period: string, kind: NoticeKind, text: AlertText)

  /** `daysText` of the due-soon message. */
  function DaysText(days: nat): (r: string)
    ensures days == 0 ==> r == "hoje"
    ensures days == 1 ==> r == "amanhã"
    ensures days >= 2 ==> r == "em " + NatToString(days) + " dias"
  {
    if days == 0 then "hoje" else if days == 1 then "amanhã" else "em " + NatToString(days) + " dias"
  }

  /** Different day counts are never worded alike. */
  lemma DaysTextInjective(a: nat, b: nat)
    requires DaysText(a) == DaysText(b)
    ensures a == b
  {
    if a >= 2 && b >= 2 {
      var sa := NatToString(a);
      var sb := NatToString(b);
      var ta := "em " + sa + " dias";
      var tb := "em " + sb + " dias";
      assert |sa| == |sb|;
      assert ta[3..3 + |sa|] == sa;
      assert tb[3..3 + |sb|] == sb;
      ParseNatToString(a);
      ParseNatToString(b);
    }
  }

  // ---- The rules -------------------------------------------------------

  /** Lines 19-52: with a goal for the month, the 80% alert for progress in
      [80, 100) and the 100% alert from 100 on; nothing without a goal. */
  function SavingsCandidates(data: FinancialData, month: string): seq<Candidate>
  {
    match FindGoal(data.savingsGoals, month)
    case None => []
    case Some(g) => GoalCandidates(g.target, Savings(data.incomes, data.expenses, data.fixedExpenses, month), month)
  }

  /** The two savings rules for a goal `target` and the month's savings `saved`. */
  function GoalCandidates(target: real, saved: real, month: string): seq<Candidate>
  {
    var progress := SavingsProgress(saved, target);
    (if progress >= 80.0 && progress < 100.0 then [Candidate(Key80, month, Success, NearGoal(target - saved))] else [])
    + (if progress >= 100.0 then [Candidate(Key100, month, Success, GoalReached)] else [])
  }

  /** `(value / total) * 100 > 40` with JavaScript's division by zero:
      a positive value over a zero total is `Infinity`, which passes. */
  predicate OverShare(value: real, total: real)
  {
    if total == 0.0 then value > 0.0 else value / total * 100.0 > 40.0
  }

  /** For a positive month total the test is the multiplicative one. */
  lemma OverShareWhenPositive(value: real, total: real)
    requires total > 0.0
    ensures OverShare(value, total) <==> value * 100.0 > 40.0 * total
  {
    var q := value / total;
    assert q * total == value;
    assert q * 100.0 > 40.0 <==> q * 100.0 * total > 40.0 * total;
    assert q * 100.0 * total == value * 100.0;
  }

  function CategoryCandidate(t: CategoryTotal, total: real, month: string): Candidate
  {
    Candidate(CategoryKeyPrefix + t.category, month, Warning, CategoryShare(t.category, t.total, total))
  }

  /** Lines 54-71: one warning per category over 40% of the month, in the order of the breakdown. */
  function CategoryCandidates(totals: seq<CategoryTotal>, total: real, month: string): seq<Candidate>
  {
    Map(Filter(totals, OverShareOf(total)), CandidateOf(total, month))
  }

  lemma CategoryCandidatesSnoc(prefix: seq<CategoryTotal>, t: CategoryTotal, total: real, month: string)
    ensures CategoryCandidates(prefix + [t], total, month) ==
            CategoryCandidates(prefix, total, month) + (if OverShare(t.total, total) then [CategoryCandidate(t, total, month)] else [])
  {
    FilterMapSnoc(prefix, t, OverShareOf(total), CandidateOf(total, month));
  }

  function OverShareOf(total: real): CategoryTotal -> bool
  {
    (t: CategoryTotal) => OverShare(t.total, total)
  }

  function CandidateOf(total: real, month: string): CategoryTotal -> Candidate
  {
    (t: CategoryTotal) => CategoryCandidate(t, total, month)
  }

  /** The expenses dated within the last seven days. */
  function LastWeekTotal(expenses: seq<Expense>, nowMs: int): real
  {
    RecentTotal(expenses, nowMs - 7 * MsPerDay)
  }

  /** Lines 73-92: the last seven days exceed one and a half times the four-week average. */
  function WeeklyCandidates(expenses: seq<Expense>, clock: Clock): seq<Candidate>
  {
    if LastWeekTotal(expenses, clock.nowMs) > WeeklyAverage(expenses, 4, clock.nowMs) * 1.5
    then [Candidate(KeyWeekly, clock.today, Warning, WeeklySpike)]
    else []
  }

  /** Lines 97-99: the unpaid fixed expenses of the current month. */
  function Upcoming(fixed: seq<FixedExpense>, month: string): (r: seq<FixedExpense>)
    ensures forall f :: f in r <==> f in fixed && f.month == month && !f.isPaid
  {
    Filter(fixed, (f: FixedExpense) => f.month == month && !f.isPaid)
  }

  /** Lines 102-125 for one bill: due within five days, or overdue. */
  function DueFor(f: FixedExpense, dayOfMonth: int, today: string): seq<Candidate>
  {
    var d := f.dueDay - dayOfMonth;
    (if d <= 5 && d >= 0 then [SoonCandidate(f, dayOfMonth, today)] else [])
    + (if d < 0 then [LateCandidate(f, dayOfMonth, today)] else [])
  }

  function SoonCandidate(f: FixedExpense, dayOfMonth: int, today: string): Candidate
    requires 0 <= f.dueDay - dayOfMonth
  {
    Candidate(DueKeyPrefix + f.id, today, Warning, DueSoon(f.name, f.dueDay - dayOfMonth, f.value))
  }

  function LateCandidate(f: FixedExpense, dayOfMonth: int, today: string): Candidate
    requires f.dueDay - dayOfMonth < 0
  {
    Candidate(OverdueKeyPrefix + f.id, today, Warning, Overdue(f.name, dayOfMonth - f.dueDay, f.value))
  }

  function DueCandidates(upcoming: seq<FixedExpense>, dayOfMonth: int, today: string): seq<Candidate>
  {
    if upcoming == [] then [] else DueFor(upcoming[0], dayOfMonth, today) + DueCandidates(upcoming[1..], dayOfMonth, today)
  }

  lemma {:induction false} DueCandidatesSnoc(upcoming: seq<FixedExpense>, f: FixedExpense, dayOfMonth: int, today: string)
    ensures DueCandidates(upcoming + [f], dayOfMonth, today) ==
            DueCandidates(upcoming, dayOfMonth, today) + DueFor(f, dayOfMonth, today)
  {
    if upcoming == [] {
      assert upcoming + [f] == [f];
      assert [f][1..] == [];
    } else {
      assert (upcoming + [f])[1..] == upcoming[1..] + [f];
      DueCandidatesSnoc(upcoming[1..], f, dayOfMonth, today);
    }
  }

  /** Every alert whose threshold holds now, in the order the source checks them. */
  function Candidates(data: FinancialData, clock: Clock): seq<Candidate>
  {
    SavingsCandidates(data, clock.month)
    + CategoryCandidates(ExpensesByCategory(data.expenses, clock.month), TotalExpenses(data.expenses, clock.month), clock.month)
    + WeeklyCandidates(data.expenses, clock)
    + DueCandidates(Upcoming(data.fixedExpenses, clock.month), clock.dayOfMonth, clock.today)
  }

  // ---- The ledger ------------------------------------------------------

  /** The alerts sent so far in this pass, and the ledger as it stands. */
  datatype Outcome = Outcome(fired: seq<Candidate>, ledger: Ledger)

  /** `localStorage.getItem(key) === period`. */
  predicate AlreadySent(ledger: Ledger, c: Candidate)
  {
    c.key in ledger && ledger[c.key] == c.period
  }

  /** One guarded send: skipped when the ledger already holds the period,
      otherwise the alert is sent and the period recorded under its key. */
  function Offer(acc: Outcome, c: Candidate): Outcome
  {
    if AlreadySent(acc.ledger, c) then acc else Outcome(acc.fired + [c], acc.ledger[c.key := c.period])
  }

  function FireFrom(acc: Outcome, cs: seq<Candidate>): Outcome
    decreases |cs|
  {
    if cs == [] then acc else FireFrom(Offer(acc, cs[0]), cs[1..])
  }

  /** The candidates offered one after another to the ledger. */
  function Fire(cs: seq<Candidate>, ledger: Ledger): Outcome
  {
    FireFrom(Outcome([], ledger), cs)
  }

  lemma {:induction false} FireFromAppend(acc: Outcome, a: seq<Candidate>, b: seq<Candidate>)
    ensures FireFrom(acc, a + b) == FireFrom(FireFrom(acc, a), b)
    decreases |a|
  {
    if a == [] {
      assert a + b == b;
    } else {
      assert (a + b)[0] == a[0];
      assert (a + b)[1..] == a[1..] + b;
      FireFromAppend(Offer(acc, a[0]), a[1..], b);
    }
  }

  /** Alerts are only ever added, and only candidates are added. */
  lemma {:induction false} FireFromFired(acc: Outcome, cs: seq<Candidate>)
    ensures |FireFrom(acc, cs).fired| >= |acc.fired|
    ensures FireFrom(acc, cs).fired[..|acc.fired|] == acc.fired
    ensures forall c :: c in FireFrom(acc, cs).fired[|acc.fired|..] ==> c in cs
    decreases |cs|
  {
    if cs != [] {
      var next := Offer(acc, cs[0]);
      FireFromFired(next, cs[1..]);
      var r := FireFrom(next, cs[1..]).fired;
      assert r[..|acc.fired|] == next.fired[..|acc.fired|];
      forall c | c in r[|acc.fired|..] ensures c in cs {
        var i :| |acc.fired| <= i < |r| && r[i] == c;
        if i >= |next.fired| {
          assert c in r[|next.fired|..];
        } else {
          assert c == next.fired[i] == cs[0];
        }
      }
    }
  }

  predicate HasKey(cs: seq<Candidate>, k: string)
  {
    exists c :: c in cs && c.key == k
  }

  /** No two candidates share a key with different periods. */
  ghost predicate KeysConsistent(cs: seq<Candidate>)
  {
    forall c, d :: c in cs && d in cs && c.key == d.key ==> c.period == d.period
  }

  /** After a pass every candidate is recorded as sent for its period, and
      keys no candidate uses are left exactly as they were. */
  lemma {:induction false} FireFromLedger(acc: Outcome, cs: seq<Candidate>)
    requires KeysConsistent(cs)
    ensures forall c :: c in cs ==> AlreadySent(FireFrom(acc, cs).ledger, c)
    ensures forall k :: !HasKey(cs, k) ==>
      (k in FireFrom(acc, cs).ledger <==> k in acc.ledger) &&
      (k in acc.ledger ==> FireFrom(acc, cs).ledger[k] == acc.ledger[k])
    decreases |cs|
  {
    if cs != [] {
      var next := Offer(acc, cs[0]);
      var rest := cs[1..];
      assert KeysConsistent(rest) by {
        forall c, d | c in rest && d in rest && c.key == d.key ensures c.period == d.period {
          assert c in cs && d in cs;
        }
      }
      FireFromLedger(next, rest);
      var out := FireFrom(next, rest).ledger;
      assert AlreadySent(out, cs[0]) by {
        assert AlreadySent(next.ledger, cs[0]);
        if HasKey(rest, cs[0].key) {
          var d :| d in rest && d.key == cs[0].key;
          assert d in cs;
          assert AlreadySent(out, d);
        }
      }
      forall k | !HasKey(cs, k)
        ensures (k in out <==> k in acc.ledger) && (k in acc.ledger ==> out[k] == acc.ledger[k])
      {
        assert forall d :: d in rest ==> d in cs;
        assert cs[0] in cs;
      }
    }
  }

  /** A pass in which every candidate was already sent changes nothing. */
  lemma {:induction false} FireFromQuiet(acc: Outcome, cs: seq<Candidate>)
    requires forall c :: c in cs ==> AlreadySent(acc.ledger, c)
    ensures FireFrom(acc, cs) == acc
    decreases |cs|
  {
    if cs != [] {
      assert cs[0] in cs;
      assert forall c :: c in cs[1..] ==> c in cs;
      FireFromQuiet(acc, cs[1..]);
    }
  }

  /** "At most once per period": a second pass over the same candidates,
      on the ledger the first pass left, sends nothing and changes nothing. */
  lemma FireIdempotent(cs: seq<Candidate>, ledger: Ledger)
    requires KeysConsistent(cs)
    ensures Fire(cs, Fire(cs, ledger).ledger).fired == []
    ensures Fire(cs, Fire(cs, ledger).ledger).ledger == Fire(cs, ledger).ledger
  {
    FireFromLedger(Outcome([], ledger), cs);
    FireFromQuiet(Outcome([], Fire(cs, ledger).ledger), cs);
  }

  function HasKeyFn(k: string): Candidate -> bool
  {
    (c: Candidate) => c.key == k
  }

  /** For a key at most one candidate carries, an alert under that key is
      sent exactly when that candidate exists and the ledger does not
      already hold its period. */
  lemma {:induction false} FireFromKeyOnce(acc: Outcome, cs: seq<Candidate>, k: string)
    requires Count(cs, HasKeyFn(k)) <= 1
    requires forall c :: c in acc.fired ==> c.key != k
    ensures (exists c :: c in FireFrom(acc, cs).fired && c.key == k) <==>
            (exists c :: c in cs && c.key == k && !AlreadySent(acc.ledger, c))
    decreases |cs|
  {
    if cs == [] {
    } else {
      var c0 := cs[0];
      var rest := cs[1..];
      var next := Offer(acc, c0);
      if c0.key == k {
        CountZero(rest, HasKeyFn(k));
        if AlreadySent(acc.ledger, c0) {
          FireFromKeyOnce(next, rest, k);
        } else {
          FireFromFired(next, rest);
          assert c0 == next.fired[|acc.fired|];
          assert c0 in FireFrom(next, rest).fired[..|next.fired|];
        }
      } else {
        FireFromKeyOnce(next, rest, k);
        forall c | c in cs && c.key == k ensures c in rest && (AlreadySent(next.ledger, c) <==> AlreadySent(acc.ledger, c)) {
        }
        forall c | c in rest ensures c in cs {
        }
      }
    }
  }

  lemma {:induction false} CountZero<T>(xs: seq<T>, p: T -> bool)
    requires Count(xs, p) == 0
    ensures forall x :: x in xs ==> !p(x)
  {
    if xs != [] {
      CountZero(xs[1..], p);
    }
  }

  lemma {:induction false} CountNone<T>(xs: seq<T>, p: T -> bool)
    requires forall x :: x in xs ==> !p(x)
    ensures Count(xs, p) == 0
  {
    if xs != [] {
      assert xs[0] in xs;
      CountNone(xs[1..], p);
    }
  }

  /** The rule a single key obeys in a whole pass. */
  lemma FiresUnderKey(cs: seq<Candidate>, ledger: Ledger, k: string)
    requires Count(cs, HasKeyFn(k)) <= 1
    ensures (exists c :: c in Fire(cs, ledger).fired && c.key == k) <==>
            (exists c :: c in cs && c.key == k && !AlreadySent(ledger, c))
  {
    FireFromKeyOnce(Outcome([], ledger), cs, k);
  }

  // ---- What each rule does in a whole pass -------------------------------

  /** The character after `last_alert_` tells the six key families apart. */
  function Family(k: string): char
  {
    if |k| > 11 then k[11] else ' '
  }

  /** The period an alert key is de-duplicated over: today's date for the
      weekly, due-soon and overdue alerts, the month for the others. */
  function PeriodOf(k: string, clock: Clock): string
  {
    if Family(k) == 'w' || Family(k) == 'd' || Family(k) == 'o' then clock.today else clock.month
  }

  /** The families of the two due-date keys. */
  lemma DueKeyFamilies(id: string)
    ensures Family(DueKeyPrefix + id) == 'd' && Family(OverdueKeyPrefix + id) == 'o'
  {
    assert (DueKeyPrefix + id)[11] == DueKeyPrefix[11];
    assert (OverdueKeyPrefix + id)[11] == OverdueKeyPrefix[11];
  }

  lemma PrefixCancel(prefix: string, a: string, b: string)
    requires prefix + a == prefix + b
    ensures a == b
  {
    assert a == (prefix + a)[|prefix|..];
    assert b == (prefix + b)[|prefix|..];
  }

  lemma {:induction false} DueCandidatesFrom(upcoming: seq<FixedExpense>, dayOfMonth: int, today: string, c: Candidate)
    requires c in DueCandidates(upcoming, dayOfMonth, today)
    ensures exists f :: f in upcoming && c in DueFor(f, dayOfMonth, today)
  {
    if c !in DueFor(upcoming[0], dayOfMonth, today) {
      DueCandidatesFrom(upcoming[1..], dayOfMonth, today, c);
      var f :| f in upcoming[1..] && c in DueFor(f, dayOfMonth, today);
      assert f in upcoming;
    }
  }

  lemma CategoryFamily(totals: seq<CategoryTotal>, total: real, month: string)
    ensures forall c :: c in CategoryCandidates(totals, total, month) ==> Family(c.key) == 'c' && c.period == month
  {
    var cats := CategoryCandidates(totals, total, month);
    forall c | c in cats ensures Family(c.key) == 'c' && c.period == month {
      var i :| 0 <= i < |cats| && cats[i] == c;
    }
  }

  lemma DueFamily(upcoming: seq<FixedExpense>, dayOfMonth: int, today: string)
    ensures forall c :: c in DueCandidates(upcoming, dayOfMonth, today) ==>
      (Family(c.key) == 'd' || Family(c.key) == 'o') && c.period == today
  {
    forall c | c in DueCandidates(upcoming, dayOfMonth, today)
      ensures (Family(c.key) == 'd' || Family(c.key) == 'o') && c.period == today
    {
      DueCandidatesFrom(upcoming, dayOfMonth, today, c);
    }
  }

  /** Each part of the candidate list uses its own key families, and every
      key is de-duplicated over the period its family implies. */
  lemma WeeklyFamily(expenses: seq<Expense>, clock: Clock)
    ensures forall c :: c in WeeklyCandidates(expenses, clock) ==> c.key == KeyWeekly && c.period == clock.today
  {
  }

  lemma PartsPeriods(s: seq<Candidate>, cc: seq<Candidate>, w: seq<Candidate>, d: seq<Candidate>, clock: Clock)
    requires forall c :: c in s ==> (c.key == Key80 || c.key == Key100) && c.period == clock.month
    requires forall c :: c in cc ==> Family(c.key) == 'c' && c.period == clock.month
    requires forall c :: c in w ==> c.key == KeyWeekly && c.period == clock.today
    requires forall c :: c in d ==> (Family(c.key) == 'd' || Family(c.key) == 'o') && c.period == clock.today
    ensures forall c :: c in s + cc + w + d ==> c.period == PeriodOf(c.key, clock)
  {
  }

  lemma CandidateFamilies(data: FinancialData, clock: Clock)
    ensures forall c :: c in Candidates(data, clock) ==> c.period == PeriodOf(c.key, clock)
  {
    var month := clock.month;
    var s := SavingsCandidates(data, month);
    var cc := CategoryCandidates(ExpensesByCategory(data.expenses, month), TotalExpenses(data.expenses, month), month);
    var w := WeeklyCandidates(data.expenses, clock);
    var d := DueCandidates(Upcoming(data.fixedExpenses, month), clock.dayOfMonth, clock.today);
    SavingsPartKeys(data, month);
    CategoryFamily(ExpensesByCategory(data.expenses, month), TotalExpenses(data.expenses, month), month);
    WeeklyFamily(data.expenses, clock);
    DueFamily(Upcoming(data.fixedExpenses, month), clock.dayOfMonth, clock.today);
    PartsPeriods(s, cc, w, d, clock);
  }

  /** The candidates never disagree about the period of a key, so the
      generic laws of `Fire` apply to every pass. */
  lemma CandidatesConsistent(data: FinancialData, clock: Clock)
    ensures KeysConsistent(Candidates(data, clock))
  {
    CandidateFamilies(data, clock);
  }

  /** Every alert fires at most once per period: running the pass again on
      the ledger it left, with the same data and clock, sends nothing. */
  lemma AlertsOncePerPeriod(data: FinancialData, clock: Clock, ledger: Ledger)
    ensures Fire(Candidates(data, clock), Fire(Candidates(data, clock), ledger).ledger).fired == []
    ensures forall c :: c in Candidates(data, clock) ==> AlreadySent(Fire(Candidates(data, clock), ledger).ledger, c)
  {
    CandidatesConsistent(data, clock);
    FireIdempotent(Candidates(data, clock), ledger);
    FireFromLedger(Outcome([], ledger), Candidates(data, clock));
  }

  /** A key only one part of the candidate list can produce, with one
      period, fires by that part's rule alone. */
  lemma FiresFromPart(pre: seq<Candidate>, part: seq<Candidate>, post: seq<Candidate>, ledger: Ledger, k: string, period: string)
    requires forall c :: c in pre ==> c.key != k
    requires forall c :: c in post ==> c.key != k
    requires Count(part, HasKeyFn(k)) <= 1
    requires forall c :: c in part && c.key == k ==> c.period == period
    ensures (exists c :: c in Fire(pre + part + post, ledger).fired && c.key == k) <==>
            (exists c :: c in part && c.key == k) && !(k in ledger && ledger[k] == period)
  {
    CountNone(pre, HasKeyFn(k));
    CountNone(post, HasKeyFn(k));
    CountAppend(pre, part, HasKeyFn(k));
    CountAppend(pre + part, post, HasKeyFn(k));
    FiresUnderKey(pre + part + post, ledger, k);
  }

  /** The four parts of the candidate list, as `Candidates` assembles them. */
  predicate PartsOf(data: FinancialData, clock: Clock, s: seq<Candidate>, cc: seq<Candidate>, w: seq<Candidate>, d: seq<Candidate>)
  {
    s == SavingsCandidates(data, clock.month) &&
    cc == CategoryCandidates(ExpensesByCategory(data.expenses, clock.month), TotalExpenses(data.expenses, clock.month), clock.month) &&
    w == WeeklyCandidates(data.expenses, clock) &&
    d == DueCandidates(Upcoming(data.fixedExpenses, clock.month), clock.dayOfMonth, clock.today)
  }

  lemma Regroup(s: seq<Candidate>, cc: seq<Candidate>, w: seq<Candidate>, d: seq<Candidate>)
    ensures s + cc + w + d == [] + s + (cc + w + d)
    ensures s + cc + w + d == s + cc + (w + d)
    ensures s + cc + w + d == (s + cc + w) + d + []
  {
  }

  /** Which part can hold which key. */
  lemma FamiliesApart(s: seq<Candidate>, cc: seq<Candidate>, w: seq<Candidate>, d: seq<Candidate>, clock: Clock)
    requires forall c :: c in s ==> (c.key == Key80 || c.key == Key100) && c.period == clock.month
    requires forall c :: c in cc ==> Family(c.key) == 'c' && c.period == clock.month
    requires forall c :: c in w ==> c.key == KeyWeekly && c.period == clock.today
    requires forall c :: c in d ==> (Family(c.key) == 'd' || Family(c.key) == 'o') && c.period == clock.today
    ensures forall c :: c in cc + w + d ==> c.key != Key80 && c.key != Key100
    ensures forall c :: c in s ==> Family(c.key) != 'c'
    ensures forall c :: c in w + d ==> Family(c.key) != 'c'
    ensures forall c :: c in s + cc ==> c.key != KeyWeekly
    ensures forall c :: c in d ==> c.key != KeyWeekly
    ensures forall c :: c in s + cc + w ==> Family(c.key) != 'd' && Family(c.key) != 'o'
  {
  }

  lemma PartsFacts(data: FinancialData, clock: Clock) returns (s: seq<Candidate>, cc: seq<Candidate>, w: seq<Candidate>, d: seq<Candidate>)
    ensures PartsOf(data, clock, s, cc, w, d)
    ensures Candidates(data, clock) == s + cc + w + d
    ensures forall c :: c in cc + w + d ==> c.key != Key80 && c.key != Key100
    ensures forall c :: c in s ==> Family(c.key) != 'c'
    ensures forall c :: c in w + d ==> Family(c.key) != 'c'
    ensures forall c :: c in s + cc ==> c.key != KeyWeekly
    ensures forall c :: c in d ==> c.key != KeyWeekly
    ensures forall c :: c in s + cc + w ==> Family(c.key) != 'd' && Family(c.key) != 'o'
  {
    var month := clock.month;
    s := SavingsCandidates(data, month);
    cc := CategoryCandidates(ExpensesByCategory(data.expenses, month), TotalExpenses(data.expenses, month), month);
    w := WeeklyCandidates(data.expenses, clock);
    d := DueCandidates(Upcoming(data.fixedExpenses, month), clock.dayOfMonth, clock.today);
    SavingsPartKeys(data, month);
    CategoryFamily(ExpensesByCategory(data.expenses, month), TotalExpenses(data.expenses, month), month);
    WeeklyFamily(data.expenses, clock);
    DueFamily(Upcoming(data.fixedExpenses, month), clock.dayOfMonth, clock.today);
    FamiliesApart(s, cc, w, d, clock);
  }

  /** The savings progress of the month, given that the month has a goal. */
  function GoalProgress(data: FinancialData, month: string): real
    requires FindGoal(data.savingsGoals, month).Some?
  {
    SavingsProgress(Savings(data.incomes, data.expenses, data.fixedExpenses, month), FindGoal(data.savingsGoals, month).value.target)
  }

  lemma SavingsPartKeys(data: FinancialData, month: string)
    ensures Count(SavingsCandidates(data, month), HasKeyFn(Key80)) <= 1
    ensures Count(SavingsCandidates(data, month), HasKeyFn(Key100)) <= 1
    ensures (exists c :: c in SavingsCandidates(data, month) && c.key == Key80) <==>
      FindGoal(data.savingsGoals, month).Some? && 80.0 <= GoalProgress(data, month) < 100.0
    ensures (exists c :: c in SavingsCandidates(data, month) && c.key == Key100) <==>
      FindGoal(data.savingsGoals, month).Some? && GoalProgress(data, month) >= 100.0
    ensures forall c :: c in SavingsCandidates(data, month) ==> (c.key == Key80 || c.key == Key100) && c.period == month
  {
    var cs := SavingsCandidates(data, month);
    assert |cs| <= 1 ==> Count(cs, HasKeyFn(Key80)) <= 1 && Count(cs, HasKeyFn(Key100)) <= 1 by {
      if |cs| == 1 { assert cs[1..] == []; }
    }
    if FindGoal(data.savingsGoals, month).Some? {
      var g := FindGoal(data.savingsGoals, month).value;
      var saved := Savings(data.incomes, data.expenses, data.fixedExpenses, month);
      var progress := SavingsProgress(saved, g.target);
      if 80.0 <= progress < 100.0 {
        assert cs[0].key == Key80;
      } else if progress >= 100.0 {
        assert cs[0].key == Key100;
      }
    }
  }

  /** Lines 19-40: the 80% alert is sent iff the month has a goal, the
      progress lies in [80, 100), and the ledger does not hold this month
      under `last_alert_80`. */
  lemma NearGoalRule(data: FinancialData, clock: Clock, ledger: Ledger)
    ensures (exists c :: c in Fire(Candidates(data, clock), ledger).fired && c.key == Key80) <==>
      FindGoal(data.savingsGoals, clock.month).Some? && 80.0 <= GoalProgress(data, clock.month) < 100.0 &&
      !(Key80 in ledger && ledger[Key80] == clock.month)
  {
    var s, cc, w, d := PartsFacts(data, clock);
    SavingsPartKeys(data, clock.month);
    Regroup(s, cc, w, d);
    FiresFromPart([], s, cc + w + d, ledger, Key80, clock.month);
  }


  /** Lines 42-51: the same for the 100% alert, over progress >= 100 and `last_alert_100`. */
  lemma GoalReachedRule(data: FinancialData, clock: Clock, ledger: Ledger)
    ensures (exists c :: c in Fire(Candidates(data, clock), ledger).fired && c.key == Key100) <==>
      FindGoal(data.savingsGoals, clock.month).Some? && GoalProgress(data, clock.month) >= 100.0 &&
      !(Key100 in ledger && ledger[Key100] == clock.month)
  {
    var s, cc, w, d := PartsFacts(data, clock);
    SavingsPartKeys(data, clock.month);
    Regroup(s, cc, w, d);
    FiresFromPart([], s, cc + w + d, ledger, Key100, clock.month);
  }


  /** The two savings alerts never go out in the same pass, and neither
      goes out for a month without a goal. */
  lemma SavingsAlertsExclusive(data: FinancialData, clock: Clock, ledger: Ledger)
    ensures !((exists c :: c in Fire(Candidates(data, clock), ledger).fired && c.key == Key80) &&
              (exists c :: c in Fire(Candidates(data, clock), ledger).fired && c.key == Key100))
    ensures FindGoal(data.savingsGoals, clock.month).None? ==>
      forall c :: c in Fire(Candidates(data, clock), ledger).fired ==> c.key != Key80 && c.key != Key100
  {
    NearGoalRule(data, clock, ledger);
    GoalReachedRule(data, clock, ledger);
  }

  lemma CategoryCandidatesHead(totals: seq<CategoryTotal>, total: real, month: string)
    requires totals != []
    ensures CategoryCandidates(totals, total, month) ==
      (if OverShare(totals[0].total, total) then [CategoryCandidate(totals[0], total, month)] else [])
      + CategoryCandidates(totals[1..], total, month)
  {
    var p := OverShareOf(total);
    var head := if p(totals[0]) then [totals[0]] else [];
    MapAppend(head, Filter(totals[1..], p), CandidateOf(total, month));
    if p(totals[0]) {
      assert [totals[0]][1..] == [];
    }
  }

  /** With distinct categories, the category part holds at most one
      candidate under `last_alert_category_<cat>`: the one for `cat`'s
      entry, when that entry is over the share. */
  lemma {:induction false} CategoryPartKeys(totals: seq<CategoryTotal>, total: real, month: string, cat: string)
    requires DistinctCategories(totals)
    ensures Count(CategoryCandidates(totals, total, month), HasKeyFn(CategoryKeyPrefix + cat)) <= 1
    ensures forall c :: c in CategoryCandidates(totals, total, month) && c.key == CategoryKeyPrefix + cat ==>
      HasCategory(totals, cat) && OverShare(TotalFor(totals, cat), total)
    ensures HasCategory(totals, cat) && OverShare(TotalFor(totals, cat), total) ==>
      CategoryCandidate(CategoryTotal(cat, TotalFor(totals, cat)), total, month) in CategoryCandidates(totals, total, month)
  {
    var k := CategoryKeyPrefix + cat;
    if totals != [] {
      var h := totals[0];
      var rest := totals[1..];
      CategoryCandidatesHead(totals, total, month);
      CategoryPartKeys(rest, total, month, cat);
      var head := if OverShare(h.total, total) then [CategoryCandidate(h, total, month)] else [];
      CountAppend(head, CategoryCandidates(rest, total, month), HasKeyFn(k));
      if head != [] {
        assert head[1..] == [];
      }
      if h.category == cat {
        assert h == CategoryTotal(cat, TotalFor(totals, cat));
        NotHasCategoryNoKey(rest, total, month, cat);
      } else {
        assert CategoryKeyPrefix + h.category != k by {
          if CategoryKeyPrefix + h.category == k {
            PrefixCancel(CategoryKeyPrefix, h.category, cat);
          }
        }
      }
    }
  }

  lemma {:induction false} NotHasCategoryNoKey(totals: seq<CategoryTotal>, total: real, month: string, cat: string)
    requires !HasCategory(totals, cat)
    ensures Count(CategoryCandidates(totals, total, month), HasKeyFn(CategoryKeyPrefix + cat)) == 0
    ensures forall c :: c in CategoryCandidates(totals, total, month) ==> c.key != CategoryKeyPrefix + cat
  {
    var k := CategoryKeyPrefix + cat;
    if totals != [] {
      var h := totals[0];
      CategoryCandidatesHead(totals, total, month);
      NotHasCategoryNoKey(totals[1..], total, month, cat);
      var head := if OverShare(h.total, total) then [CategoryCandidate(h, total, month)] else [];
      CountAppend(head, CategoryCandidates(totals[1..], total, month), HasKeyFn(k));
      assert CategoryKeyPrefix + h.category != k by {
        if CategoryKeyPrefix + h.category == k {
          PrefixCancel(CategoryKeyPrefix, h.category, cat);
        }
      }
      if head != [] {
        assert head[1..] == [];
      }
    }
  }

  /** Lines 54-71: the warning for a category is sent iff the category has
      expenses this month, its share of the month's total is over 40%, and
      the ledger does not hold this month under its key. */
  lemma CategoryRule(data: FinancialData, clock: Clock, ledger: Ledger, cat: string)
    ensures (exists c :: c in Fire(Candidates(data, clock), ledger).fired && c.key == CategoryKeyPrefix + cat) <==>
      HasCategory(ExpensesByCategory(data.expenses, clock.month), cat) &&
      OverShare(TotalFor(ExpensesByCategory(data.expenses, clock.month), cat), TotalExpenses(data.expenses, clock.month)) &&
      !(CategoryKeyPrefix + cat in ledger && ledger[CategoryKeyPrefix + cat] == clock.month)
  {
    var s, cc, w, d := PartsFacts(data, clock);
    CategoryRuleOfParts(s, cc, w, d, ExpensesByCategory(data.expenses, clock.month), TotalExpenses(data.expenses, clock.month),
                        clock.month, ledger, cat);
  }

  lemma CategoryRuleOfParts(s: seq<Candidate>, cc: seq<Candidate>, w: seq<Candidate>, d: seq<Candidate>,
                            totals: seq<CategoryTotal>, total: real, month: string, ledger: Ledger, cat: string)
    requires cc == CategoryCandidates(totals, total, month) && DistinctCategories(totals)
    requires forall c :: c in s ==> Family(c.key) != 'c'
    requires forall c :: c in w + d ==> Family(c.key) != 'c'
    ensures (exists c :: c in Fire(s + cc + w + d, ledger).fired && c.key == CategoryKeyPrefix + cat) <==>
      HasCategory(totals, cat) && OverShare(TotalFor(totals, cat), total) &&
      !(CategoryKeyPrefix + cat in ledger && ledger[CategoryKeyPrefix + cat] == month)
  {
    var k := CategoryKeyPrefix + cat;
    assert Family(k) == 'c';
    CategoryPartKeys(totals, total, month, cat);
    CategoryFamily(totals, total, month);
    Regroup(s, cc, w, d);
    FiresFromPart(s, cc, w + d, ledger, k, month);
  }

  /** Lines 73-92: the weekly warning is sent iff the last seven days
      exceed one and a half times the four-week average and the ledger does
      not hold today's date under `last_alert_weekly`. */
  lemma WeeklyRule(data: FinancialData, clock: Clock, ledger: Ledger)
    ensures (exists c :: c in Fire(Candidates(data, clock), ledger).fired && c.key == KeyWeekly) <==>
      LastWeekTotal(data.expenses, clock.nowMs) > WeeklyAverage(data.expenses, 4, clock.nowMs) * 1.5 &&
      !(KeyWeekly in ledger && ledger[KeyWeekly] == clock.today)
  {
    var s, cc, w, d := PartsFacts(data, clock);
    WeeklyFamily(data.expenses, clock);
    if w != [] {
      assert w[1..] == [];
    }
    assert Candidates(data, clock) == (s + cc) + w + d;
    FiresFromPart(s + cc, w, d, ledger, KeyWeekly, clock.today);
  }


  function IdIs(id: string): FixedExpense -> bool
  {
    (f: FixedExpense) => f.id == id
  }

  /** One bill yields at most one alert, due-soon or overdue, never both. */
  lemma DueForAtMostOne(f: FixedExpense, dayOfMonth: int, today: string)
    ensures |DueFor(f, dayOfMonth, today)| <= 1
    ensures forall c :: c in DueFor(f, dayOfMonth, today) ==> c.key == DueKeyPrefix + f.id || c.key == OverdueKeyPrefix + f.id
  {
  }

  lemma {:induction false} DuePartKeys(upcoming: seq<FixedExpense>, dayOfMonth: int, today: string, prefix: string, id: string)
    requires prefix == DueKeyPrefix || prefix == OverdueKeyPrefix
    ensures Count(DueCandidates(upcoming, dayOfMonth, today), HasKeyFn(prefix + id)) <= Count(upcoming, IdIs(id))
  {
    if upcoming != [] {
      var f := upcoming[0];
      var here := DueFor(f, dayOfMonth, today);
      DuePartKeys(upcoming[1..], dayOfMonth, today, prefix, id);
      CountAppend(here, DueCandidates(upcoming[1..], dayOfMonth, today), HasKeyFn(prefix + id));
      DueForAtMostOne(f, dayOfMonth, today);
      if here != [] {
        assert here[1..] == [];
        if here[0].key == prefix + id {
          assert f.id == id by {
            if here[0].key == DueKeyPrefix + f.id {
              assert Family(prefix + id) == 'd';
              PrefixCancel(DueKeyPrefix, f.id, id);
            } else {
              assert Family(prefix + id) == 'o';
              PrefixCancel(OverdueKeyPrefix, f.id, id);
            }
          }
        }
      }
    }
  }

  lemma {:induction false} CountFilterAtMost<T(!new)>(xs: seq<T>, p: T -> bool, q: T -> bool)
    ensures Count(Filter(xs, p), q) <= Count(xs, q)
  {
    if xs != [] {
      CountFilterAtMost(xs[1..], p, q);
      var head := if p(xs[0]) then [xs[0]] else [];
      CountAppend(head, Filter(xs[1..], p), q);
      if head != [] {
        assert head[1..] == [];
      }
    }
  }

  lemma DueSoonPart(upcoming: seq<FixedExpense>, dayOfMonth: int, today: string, id: string)
    requires Count(upcoming, IdIs(id)) <= 1
    ensures Count(DueCandidates(upcoming, dayOfMonth, today), HasKeyFn(DueKeyPrefix + id)) <= 1
    ensures (exists c :: c in DueCandidates(upcoming, dayOfMonth, today) && c.key == DueKeyPrefix + id) <==>
      exists f :: f in upcoming && f.id == id && 0 <= f.dueDay - dayOfMonth <= 5
  {
    DuePartKeys(upcoming, dayOfMonth, today, DueKeyPrefix, id);
    var k := DueKeyPrefix + id;
    if exists x :: x in DueCandidates(upcoming, dayOfMonth, today) && x.key == k {
      var x :| x in DueCandidates(upcoming, dayOfMonth, today) && x.key == k;
      DueCandidatesFrom(upcoming, dayOfMonth, today, x);
      var f :| f in upcoming && x in DueFor(f, dayOfMonth, today);
      assert x.key == DueKeyPrefix + f.id by {
        DueKeyFamilies(f.id);
        DueKeyFamilies(id);
      }
      PrefixCancel(DueKeyPrefix, f.id, id);
    }
    if exists f :: f in upcoming && f.id == id && 0 <= f.dueDay - dayOfMonth <= 5 {
      var f :| f in upcoming && f.id == id && 0 <= f.dueDay - dayOfMonth <= 5;
      DueCandidatesHas(upcoming, f, dayOfMonth, today, SoonCandidate(f, dayOfMonth, today));
    }
  }

  lemma OverduePart(upcoming: seq<FixedExpense>, dayOfMonth: int, today: string, id: string)
    requires Count(upcoming, IdIs(id)) <= 1
    ensures Count(DueCandidates(upcoming, dayOfMonth, today), HasKeyFn(OverdueKeyPrefix + id)) <= 1
    ensures (exists c :: c in DueCandidates(upcoming, dayOfMonth, today) && c.key == OverdueKeyPrefix + id) <==>
      exists f :: f in upcoming && f.id == id && f.dueDay < dayOfMonth
  {
    DuePartKeys(upcoming, dayOfMonth, today, OverdueKeyPrefix, id);
    var k := OverdueKeyPrefix + id;
    if exists x :: x in DueCandidates(upcoming, dayOfMonth, today) && x.key == k {
      var x :| x in DueCandidates(upcoming, dayOfMonth, today) && x.key == k;
      DueCandidatesFrom(upcoming, dayOfMonth, today, x);
      var f :| f in upcoming && x in DueFor(f, dayOfMonth, today);
      assert x.key == OverdueKeyPrefix + f.id by {
        DueKeyFamilies(f.id);
        DueKeyFamilies(id);
      }
      PrefixCancel(OverdueKeyPrefix, f.id, id);
    }
    if exists f :: f in upcoming && f.id == id && f.dueDay < dayOfMonth {
      var f :| f in upcoming && f.id == id && f.dueDay < dayOfMonth;
      DueCandidatesHas(upcoming, f, dayOfMonth, today, LateCandidate(f, dayOfMonth, today));
    }
  }

  /** Lines 101-114: when no other bill shares its id, the due-soon warning
      for `id` is sent iff a bill with that id belongs to this month, is
      unpaid, falls due within five days, and the ledger does not hold
      today's date under its key. */
  lemma DueSoonRule(data: FinancialData, clock: Clock, ledger: Ledger, id: string)
    requires Count(data.fixedExpenses, IdIs(id)) <= 1
    ensures (exists c :: c in Fire(Candidates(data, clock), ledger).fired && c.key == DueKeyPrefix + id) <==>
      (exists f :: f in data.fixedExpenses && f.id == id && f.month == clock.month && !f.isPaid &&
                   0 <= f.dueDay - clock.dayOfMonth <= 5) &&
      !(DueKeyPrefix + id in ledger && ledger[DueKeyPrefix + id] == clock.today)
  {
    var s, cc, w, d := PartsFacts(data, clock);
    CountFilterAtMost(data.fixedExpenses, (f: FixedExpense) => f.month == clock.month && !f.isPaid, IdIs(id));
    DueRuleOfParts(s, cc, w, d, Upcoming(data.fixedExpenses, clock.month), clock.dayOfMonth, clock.today, ledger, id, true);
  }

  /** Lines 104 and 116-125: the overdue warning, under the same conditions
      with the bill's day already past. */
  lemma OverdueRule(data: FinancialData, clock: Clock, ledger: Ledger, id: string)
    requires Count(data.fixedExpenses, IdIs(id)) <= 1
    ensures (exists c :: c in Fire(Candidates(data, clock), ledger).fired && c.key == OverdueKeyPrefix + id) <==>
      (exists f :: f in data.fixedExpenses && f.id == id && f.month == clock.month && !f.isPaid &&
                   f.dueDay < clock.dayOfMonth) &&
      !(OverdueKeyPrefix + id in ledger && ledger[OverdueKeyPrefix + id] == clock.today)
  {
    var s, cc, w, d := PartsFacts(data, clock);
    CountFilterAtMost(data.fixedExpenses, (f: FixedExpense) => f.month == clock.month && !f.isPaid, IdIs(id));
    DueRuleOfParts(s, cc, w, d, Upcoming(data.fixedExpenses, clock.month), clock.dayOfMonth, clock.today, ledger, id, false);
  }

  /** The due-soon (`soon`) or overdue rule over the parts of the candidate list. */
  lemma DueRuleOfParts(s: seq<Candidate>, cc: seq<Candidate>, w: seq<Candidate>, d: seq<Candidate>,
                       upcoming: seq<FixedExpense>, dayOfMonth: int, today: string, ledger: Ledger, id: string, soon: bool)
    requires d == DueCandidates(upcoming, dayOfMonth, today) && Count(upcoming, IdIs(id)) <= 1
    requires forall c :: c in s + cc + w ==> Family(c.key) != 'd' && Family(c.key) != 'o'
    ensures soon ==>
      ((exists c :: c in Fire(s + cc + w + d, ledger).fired && c.key == DueKeyPrefix + id) <==>
       (exists f :: f in upcoming && f.id == id && 0 <= f.dueDay - dayOfMonth <= 5) &&
       !(DueKeyPrefix + id in ledger && ledger[DueKeyPrefix + id] == today))
    ensures !soon ==>
      ((exists c :: c in Fire(s + cc + w + d, ledger).fired && c.key == OverdueKeyPrefix + id) <==>
       (exists f :: f in upcoming && f.id == id && f.dueDay < dayOfMonth) &&
       !(OverdueKeyPrefix + id in ledger && ledger[OverdueKeyPrefix + id] == today))
  {
    DueFamily(upcoming, dayOfMonth, today);
    Regroup(s, cc, w, d);
    if soon {
      var k := DueKeyPrefix + id;
      assert Family(k) == 'd';
      DueSoonPart(upcoming, dayOfMonth, today, id);
      FiresFromPart(s + cc + w, d, [], ledger, k, today);
    } else {
      var k := OverdueKeyPrefix + id;
      assert Family(k) == 'o';
      OverduePart(upcoming, dayOfMonth, today, id);
      FiresFromPart(s + cc + w, d, [], ledger, k, today);
    }
  }

  lemma {:induction false} DueCandidatesHas(upcoming: seq<FixedExpense>, f: FixedExpense, dayOfMonth: int, today: string, c: Candidate)
    requires f in upcoming && c in DueFor(f, dayOfMonth, today)
    ensures c in DueCandidates(upcoming, dayOfMonth, today)
  {
    if upcoming[0] != f {
      DueCandidatesHas(upcoming[1..], f, dayOfMonth, today, c);
    }
  }

  // ---- The source's pass -------------------------------------------------

  /** The guard around every `addNotification` call: send unless the
      ledger already holds this period under the key, then record it. */
  method Send(fired0: seq<Candidate>, ledger0: Ledger, c: Candidate)
    returns (fired: seq<Candidate>, ledger: Ledger)
    ensures Outcome(fired, ledger) == Offer(Outcome(fired0, ledger0), c)
    ensures Outcome(fired, ledger) == FireFrom(Outcome(fired0, ledger0), [c])
  {
    fired, ledger := fired0, ledger0;
    if !(c.key in ledger && ledger[c.key] == c.period) {
      fired := fired + [c];
      ledger := ledger[c.key := c.period];
    }
    assert [c][1..] == [];
  }

  /** Lines 19-52. */
  method CheckSavings(data: FinancialData, month: string, fired0: seq<Candidate>, ledger0: Ledger)
    returns (fired: seq<Candidate>, ledger: Ledger)
    ensures Outcome(fired, ledger) == FireFrom(Outcome(fired0, ledger0), SavingsCandidates(data, month))
  {
    fired, ledger := fired0, ledger0;
    var goal := FindGoal(data.savingsGoals, month);
    if goal.Some? {
      var saved := Savings(data.incomes, data.expenses, data.fixedExpenses, month);
      fired, ledger := CheckGoal(goal.value.target, saved, month, fired, ledger);
    }
  }

  method CheckGoal(target: real, saved: real, month: string, fired0: seq<Candidate>, ledger0: Ledger)
    returns (fired: seq<Candidate>, ledger: Ledger)
    ensures Outcome(fired, ledger) == FireFrom(Outcome(fired0, ledger0), GoalCandidates(target, saved, month))
  {
    fired, ledger := fired0, ledger0;
    var progress := SavingsProgress(saved, target);
    var near: seq<Candidate> := [];
    if progress >= 80.0 && progress < 100.0 {
      near := [Candidate(Key80, month, Success, NearGoal(target - saved))];
      fired, ledger := Send(fired, ledger, near[0]);
    }
    if progress >= 100.0 {
      var c := Candidate(Key100, month, Success, GoalReached);
      fired, ledger := Send(fired, ledger, c);
      FireFromAppend(Outcome(fired0, ledger0), near, [c]);
      assert GoalCandidates(target, saved, month) == near + [c];
    } else {
      assert GoalCandidates(target, saved, month) == near + [];
    }
  }

  /** Lines 54-71: the loop over the category breakdown. */
  method CheckCategories(totals: seq<CategoryTotal>, monthTotal: real, month: string, fired0: seq<Candidate>, ledger0: Ledger)
    returns (fired: seq<Candidate>, ledger: Ledger)
    ensures Outcome(fired, ledger) == FireFrom(Outcome(fired0, ledger0), CategoryCandidates(totals, monthTotal, month))
  {
    var start := Outcome(fired0, ledger0);
    fired, ledger := fired0, ledger0;
    var i := 0;
    while i < |totals|
      invariant 0 <= i <= |totals|
      invariant Outcome(fired, ledger) == FireFrom(start, CategoryCandidates(totals[..i], monthTotal, month))
    {
      var t := totals[i];
      var before := CategoryCandidates(totals[..i], monthTotal, month);
      assert totals[..i + 1] == totals[..i] + [t];
      CategoryCandidatesSnoc(totals[..i], t, monthTotal, month);
      var over := OverShare(t.total, monthTotal);
      if over {
        var c := CategoryCandidate(t, monthTotal, month);
        FireFromAppend(start, before, [c]);
        fired, ledger := Send(fired, ledger, c);
      } else {
        assert before + [] == before;
      }
      i := i + 1;
    }
    assert totals[..|totals|] == totals;
  }

  /** Lines 73-92. */
  method CheckWeekly(expenses: seq<Expense>, clock: Clock, fired0: seq<Candidate>, ledger0: Ledger)
    returns (fired: seq<Candidate>, ledger: Ledger)
    ensures Outcome(fired, ledger) == FireFrom(Outcome(fired0, ledger0), WeeklyCandidates(expenses, clock))
  {
    fired, ledger := fired0, ledger0;
    var lastWeek := LastWeekTotal(expenses, clock.nowMs);
    var average := WeeklyAverage(expenses, 4, clock.nowMs);
    if lastWeek > average * 1.5 {
      fired, ledger := Send(fired, ledger, Candidate(KeyWeekly, clock.today, Warning, WeeklySpike));
    }
  }

  /** Lines 94-126: the loop over this month's unpaid bills. */
  method CheckDue(upcoming: seq<FixedExpense>, dayOfMonth: int, today: string, fired0: seq<Candidate>, ledger0: Ledger)
    returns (fired: seq<Candidate>, ledger: Ledger)
    ensures Outcome(fired, ledger) == FireFrom(Outcome(fired0, ledger0), DueCandidates(upcoming, dayOfMonth, today))
  {
    var start := Outcome(fired0, ledger0);
    fired, ledger := fired0, ledger0;
    var j := 0;
    while j < |upcoming|
      invariant 0 <= j <= |upcoming|
      invariant Outcome(fired, ledger) == FireFrom(start, DueCandidates(upcoming[..j], dayOfMonth, today))
    {
      var f := upcoming[j];
      var before := DueCandidates(upcoming[..j], dayOfMonth, today);
      assert upcoming[..j + 1] == upcoming[..j] + [f];
      DueCandidatesSnoc(upcoming[..j], f, dayOfMonth, today);
      var daysUntilDue := f.dueDay - dayOfMonth;
      var soon: seq<Candidate> := [];
      var late: seq<Candidate> := [];
      if daysUntilDue <= 5 && daysUntilDue >= 0 {
        soon := [SoonCandidate(f, dayOfMonth, today)];
        fired, ledger := Send(fired, ledger, soon[0]);
      }
      FireFromAppend(start, before, soon);
      if daysUntilDue < 0 {
        late := [LateCandidate(f, dayOfMonth, today)];
        fired, ledger := Send(fired, ledger, late[0]);
      }
      FireFromAppend(start, before + soon, late);
      assert DueFor(f, dayOfMonth, today) == soon + late;
      assert before + soon + late == before + (soon + late);
      j := j + 1;
    }
    assert upcoming[..|upcoming|] == upcoming;
  }

  /** `checkAlerts`: the same checks in the same order, reading and writing
      the ledger as it goes; it returns the alerts handed to
      `addNotification`, in order, and the ledger afterwards. */
  method CheckAlerts(data: FinancialData, clock: Clock, ledger0: Ledger)
    returns (fired: seq<Candidate>, ledger: Ledger)
    ensures Outcome(fired, ledger) == Fire(Candidates(data, clock), ledger0)
  {
    var start := Outcome([], ledger0);
    var s := SavingsCandidates(data, clock.month);
    var c := CategoryCandidates(ExpensesByCategory(data.expenses, clock.month), TotalExpenses(data.expenses, clock.month), clock.month);
    var w := WeeklyCandidates(data.expenses, clock);
    var d := DueCandidates(Upcoming(data.fixedExpenses, clock.month), clock.dayOfMonth, clock.today);
    fired, ledger := CheckSavings(data, clock.month, [], ledger0);
    fired, ledger := CheckCategories(ExpensesByCategory(data.expenses, clock.month), TotalExpenses(data.expenses, clock.month),
                                     clock.month, fired, ledger);
    FireFromAppend(start, s, c);
    fired, ledger := CheckWeekly(data.expenses, clock, fired, ledger);
    FireFromAppend(start, s + c, w);
    fired, ledger := CheckDue(Upcoming(data.fixedExpenses, clock.month), clock.dayOfMonth, clock.today, fired, ledger);
    FireFromAppend(start, s + c + w, d);
  }
}
