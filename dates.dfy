/** Calendar dates as the source reads them with `new Date("YYYY-MM-DD")`:
    a date-only string names midnight UTC of that day. The model numbers
    days from 1970-01-01 (day 0); a string that does not parse gives `None`,
    which stands for JavaScript's `NaN` time value (every comparison with it
    is false). */
module Dates {

  import opened Base
  import Text

  const MsPerMinute: int := 60000
  const MsPerHour: int := 3600000
  const MsPerDay: int := 86400000

  /** Days from 0000-03-01 to the first of March of year `y`: the
      calendar counted in years that begin in March, so that the leap day
      falls at the end of a year. */
  function MarchYearStart(y: int): int
  {
    var era := y / 400;
    var yoe := y - era * 400;
    era * 146097 + yoe * 365 + yoe / 4 - yoe / 100
  }

  /** Days from the first of March to `day` of `month`, in the year that
      begins in March. */
  function DayOfMarchYear(month: int, day: int): int
    requires 1 <= month <= 12
  {
    var mp := if month > 2 then month - 3 else month + 9;
    (153 * mp + 2) / 5 + day - 1
  }

  /** Days since 1970-01-01 of the proleptic Gregorian date `year-month-day`.
      A day beyond the month's length counts on into the next month. */
  function DaysFromCivil(year: int, month: int, day: int): int
    requires 1 <= month <= 12
  {
    MarchYearStart(if month <= 2 then year - 1 else year) + DayOfMarchYear(month, day) - 719468
  }

  predicate IsLeapYear(y: int)
  {
    y % 4 == 0 && (y % 100 != 0 || y % 400 == 0)
  }

  /** The number of days of a month in the Gregorian calendar. */
  function MonthLength(y: int, m: int): (n: int)
    requires 1 <= m <= 12
    ensures 28 <= n <= 31
  {
    if m == 2 then (if IsLeapYear(y) then 29 else 28)
    else if m == 4 || m == 6 || m == 9 || m == 11 then 30
    else 31
  }

  predicate ValidDate(y: int, m: int, d: int)
  {
    1 <= m <= 12 && 1 <= d <= MonthLength(y, m)
  }

  /** Dividing by one of the calendar's divisors: the quotient and
      remainder of `q * k + r` with `0 <= r < k`. */
  lemma DivMod(x: int, k: int, q: int, r: int)
    requires k == 4 || k == 100 || k == 400
    requires x == q * k + r && 0 <= r < k
    ensures x / k == q && x % k == r
  {
    if k == 4 {
      assert x == q * 4 + r;
    } else if k == 100 {
      assert x == q * 100 + r;
    } else {
      assert x == q * 400 + r;
    }
  }

  /** One more year adds a step to `n / k` exactly when `n + 1` is a multiple of `k`. */
  lemma QuotientStep(n: nat, k: int)
    requires k == 4 || k == 100
    ensures (n + 1) / k == n / k + (if (n + 1) % k == 0 then 1 else 0)
  {
    var q := n / k;
    var r := n % k;
    if r == k - 1 {
      DivMod(n + 1, k, q + 1, 0);
    } else {
      DivMod(n + 1, k, q, r + 1);
    }
  }

  /** The year within its 400-year era decides leap years. */
  lemma LeapInEra(y: int, era: int, yoe: int)
    requires y == era * 400 + yoe && 0 <= yoe
    ensures y % 4 == yoe % 4 && y % 100 == yoe % 100
    ensures y % 400 == 0 <==> yoe % 400 == 0
  {
    DivMod(y, 4, era * 100 + yoe / 4, yoe % 4);
    DivMod(y, 100, era * 4 + yoe / 100, yoe % 100);
    DivMod(y, 400, era + yoe / 400, yoe % 400);
  }

  /** A year that begins in March is 366 days long exactly when the
      February at its end is a leap February. */
  lemma MarchYearStep(y: int)
    ensures MarchYearStart(y + 1) == MarchYearStart(y) + (if IsLeapYear(y + 1) then 366 else 365)
  {
    var era := y / 400;
    var yoe := y - era * 400;
    assert 0 <= yoe < 400;
    if yoe == 399 {
      DivMod(y + 1, 400, era + 1, 0);
      LeapInEra(y + 1, era + 1, 0);
    } else {
      DivMod(y + 1, 400, era, yoe + 1);
      LeapInEra(y + 1, era, yoe + 1);
      QuotientStep(yoe, 4);
      QuotientStep(yoe, 100);
    }
  }

  /** Days into the March-based year of the first of each month. */
  lemma MonthOffsets(m: int)
    requires 1 <= m <= 12
    ensures DayOfMarchYear(m, 1) ==
      [306, 337, 0, 31, 61, 92, 122, 153, 184, 214, 245, 275][m - 1]
  {
    if m <= 2 {
    } else if m <= 7 {
    } else {
    }
  }

  lemma NextMonth(y: int, m: int)
    requires 1 <= m < 12
    ensures DaysFromCivil(y, m + 1, 1) == DaysFromCivil(y, m, 1) + MonthLength(y, m)
  {
    MonthOffsets(m);
    MonthOffsets(m + 1);
    if m == 2 {
      MarchYearStep(y - 1);
    }
  }

  /** The calendar's three steps: the next day of a month, the first of
      the next month, and New Year after the first of December; with day 0
      at 1970-01-01 they fix every day number. */
  lemma CalendarSteps(y: int, m: int, d: int)
    requires 1 <= m <= 12
    ensures DaysFromCivil(1970, 1, 1) == 0
    ensures DaysFromCivil(y, m, d + 1) == DaysFromCivil(y, m, d) + 1
    ensures m < 12 ==> DaysFromCivil(y, m + 1, 1) == DaysFromCivil(y, m, 1) + MonthLength(y, m)
    ensures DaysFromCivil(y + 1, 1, 1) == DaysFromCivil(y, 12, 1) + 31
  {
    if m < 12 {
      NextMonth(y, m);
    }
    MonthOffsets(1);
    MonthOffsets(12);
  }

  lemma {:induction false} MarchYearStartMonotone(a: int, b: int)
    requires a <= b
    ensures MarchYearStart(a) <= MarchYearStart(b)
    decreases b - a
  {
    if a < b {
      MarchYearStep(a);
      MarchYearStartMonotone(a + 1, b);
    }
  }

  /** A later month of the same year starts after the whole of an earlier one. */
  lemma {:induction false} MonthStartsIncrease(y: int, m1: int, m2: int)
    requires 1 <= m1 < m2 <= 12
    ensures DaysFromCivil(y, m1, 1) + MonthLength(y, m1) <= DaysFromCivil(y, m2, 1)
    decreases m2 - m1
  {
    NextMonth(y, m2 - 1);
    if m1 < m2 - 1 {
      MonthStartsIncrease(y, m1, m2 - 1);
    }
  }

  /** A valid date lies in its own year: on or after its New Year and
      before the next one. */
  lemma WithinYear(y: int, m: int, d: int)
    requires ValidDate(y, m, d)
    ensures DaysFromCivil(y, 1, 1) <= DaysFromCivil(y, m, d) < DaysFromCivil(y + 1, 1, 1)
  {
    assert DaysFromCivil(y, m, d) == DaysFromCivil(y, m, 1) + d - 1;
    if m > 1 {
      MonthStartsIncrease(y, 1, m);
    }
    if m < 12 {
      MonthStartsIncrease(y, m, 12);
    }
    MonthOffsets(1);
    MonthOffsets(12);
  }

  predicate LexBefore(y1: int, m1: int, d1: int, y2: int, m2: int, d2: int)
  {
    y1 < y2 || (y1 == y2 && (m1 < m2 || (m1 == m2 && d1 < d2)))
  }

  lemma EarlierDateFewerDays(y1: int, m1: int, d1: int, y2: int, m2: int, d2: int)
    requires ValidDate(y1, m1, d1) && ValidDate(y2, m2, d2)
    requires LexBefore(y1, m1, d1, y2, m2, d2)
    ensures DaysFromCivil(y1, m1, d1) < DaysFromCivil(y2, m2, d2)
  {
    if y1 < y2 {
      WithinYear(y1, m1, d1);
      WithinYear(y2, m2, d2);
      MarchYearStartMonotone(y1, y2 - 1);
    } else if m1 < m2 {
      MonthStartsIncrease(y1, m1, m2);
    }
  }

  /** Day numbers order valid dates as the calendar does: one date comes
      before another exactly when its year, then month, then day is
      smaller, and two dates share a day number only when they are equal. */
  lemma DateOrder(y1: int, m1: int, d1: int, y2: int, m2: int, d2: int)
    requires ValidDate(y1, m1, d1) && ValidDate(y2, m2, d2)
    ensures LexBefore(y1, m1, d1, y2, m2, d2) <==> DaysFromCivil(y1, m1, d1) < DaysFromCivil(y2, m2, d2)
    ensures DaysFromCivil(y1, m1, d1) == DaysFromCivil(y2, m2, d2) <==> y1 == y2 && m1 == m2 && d1 == d2
  {
    if LexBefore(y1, m1, d1, y2, m2, d2) {
      EarlierDateFewerDays(y1, m1, d1, y2, m2, d2);
    } else if LexBefore(y2, m2, d2, y1, m1, d1) {
      EarlierDateFewerDays(y2, m2, d2, y1, m1, d1);
    }
  }

  /** `new Date(s)` for a `YYYY-MM-DD` string, as a day number. */
  function ParseDate(s: string): (r: Option<int>)
    ensures r.Some? ==> |s| == 10 && s[4] == '-' && s[7] == '-'
    ensures r.Some? ==> Text.AllDigits(s[..4]) && Text.AllDigits(s[5..7]) && Text.AllDigits(s[8..])
  {
    if |s| != 10 || s[4] != '-' || s[7] != '-' then None
    else
      match (Text.ParseNat(s[..4]), Text.ParseNat(s[5..7]), Text.ParseNat(s[8..]))
      case (Some(y), Some(m), Some(d)) =>
        if 1 <= m <= 12 && 1 <= d <= 31 then Some(DaysFromCivil(y, m, d)) else None
      case _ => None
  }

  /** The `YYYY-MM-DD` text of a date, month and day padded to two digits. */
  function DateText(year: nat, month: nat, day: nat): string
  {
    Text.NatToString(year) + "-" + Text.PadStart2(Text.NatToString(month)) + "-" + Text.PadStart2(Text.NatToString(day))
  }

  /** Where the fields of a date text sit. */
  lemma DateTextFields(year: nat, month: nat, day: nat)
    requires 1000 <= year <= 9999 && month < 100 && day < 100
    ensures var s := DateText(year, month, day);
      |s| == 10 && s[4] == '-' && s[7] == '-' &&
      s[..4] == Text.NatToString(year) && s[5..7] == Text.PadStart2(Text.NatToString(month)) &&
      s[8..] == Text.PadStart2(Text.NatToString(day))
  {
    var y := Text.NatToString(year);
    var mm := Text.PadStart2(Text.NatToString(month));
    var dd := Text.PadStart2(Text.NatToString(day));
    Text.FourDigitYear(year);
    Text.PaddedParses(month);
    Text.PaddedParses(day);
    var s := y + "-" + mm + "-" + dd;
    assert s == (y + "-") + (mm + "-") + dd;
    assert |y + "-"| == 5 && |mm + "-"| == 3;
  }

  /** Every well-formed date text parses, to the day number of its date. */
  lemma ParseDateText(year: nat, month: nat, day: nat)
    requires 1000 <= year <= 9999 && 1 <= month <= 12 && 1 <= day <= 31
    ensures ParseDate(DateText(year, month, day)) == Some(DaysFromCivil(year, month, day))
  {
    DateTextFields(year, month, day);
    Text.ParseNatToString(year);
    Text.PaddedParses(month);
    Text.PaddedParses(day);
  }

  /** The time value in milliseconds of midnight UTC of a parsed date. */
  function DateMs(s: string): Option<int>
  {
    match ParseDate(s)
    case Some(day) => Some(day * MsPerDay)
    case None => None
  }

  /** `setHours(0, 0, 0, 0)` on a date read as midnight UTC: the calendar
      day of that instant in a time zone `offsetMs` milliseconds ahead of
      UTC. West of UTC that instant is still the evening before, so the
      local day is one earlier; at UTC and east of it the day is kept. */
  function LocalDay(day: int, offsetMs: int): (r: int)
    ensures -MsPerDay < offsetMs < 0 ==> r == day - 1
    ensures 0 <= offsetMs < MsPerDay ==> r == day
    ensures r * MsPerDay <= day * MsPerDay + offsetMs < (r + 1) * MsPerDay
  {
    (day * MsPerDay + offsetMs) / MsPerDay
  }

  /** `new Date(s) >= t`: false when `s` does not parse. */
  predicate DateAtOrAfter(s: string, t: int)
  {
    match DateMs(s)
    case Some(ms) => ms >= t
    case None => false
  }
}
