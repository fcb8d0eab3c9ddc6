/** `formatTime` of src/views/Notifications.tsx: how long ago a
    notification was raised, in the coarsest unit that keeps it under the
    next one. */
module NotificationsView {

  import opened Base
  import opened Text

  const MinuteMs: int := 60000
  const HourMs: int := 3600000
  const DayMs: int := 86400000

  /** The bucket a difference falls in; `Older` is the locale-date
      fallback, which is also what a timestamp that does not parse reaches,
      since every comparison with NaN is false. */
  datatype Ago = JustNow | Minutes(m: nat) | Hours(h: nat) | Days(d: nat) | Older

  /** Lines 36-49. `timestampMs` is the parsed timestamp (`None` for an
      invalid date); `Math.floor` of a division by a positive constant is
      Dafny's `/`, which rounds toward minus infinity here as well. */
  function FormatTime(timestampMs: Option<int>, nowMs: int): (r: Ago)
    ensures timestampMs.None? ==> r == Older
    ensures timestampMs.Some? ==> var diff := nowMs - timestampMs.value;
      (r == JustNow <==> diff < MinuteMs) &&
      (r.Minutes? <==> MinuteMs <= diff < HourMs) &&
      (r.Hours? <==> HourMs <= diff < DayMs) &&
      (r.Days? <==> DayMs <= diff < 7 * DayMs) &&
      (r == Older <==> 7 * DayMs <= diff)
    ensures r.Minutes? ==> 1 <= r.m < 60 && r.m * MinuteMs <= nowMs - timestampMs.value < (r.m + 1) * MinuteMs
    ensures r.Hours? ==> 1 <= r.h < 24 && r.h * HourMs <= nowMs - timestampMs.value < (r.h + 1) * HourMs
    ensures r.Days? ==> 1 <= r.d < 7 && r.d * DayMs <= nowMs - timestampMs.value < (r.d + 1) * DayMs
  {
    match timestampMs
    case None => Older
    case Some(t) =>
      var diffMs := nowMs - t;
      var diffMins := diffMs / MinuteMs;
      var diffHours := diffMs / HourMs;
      var diffDays := diffMs / DayMs;
      if diffMins < 1 then JustNow
      else if diffMins < 60 then Minutes(diffMins)
      else if diffHours < 24 then Hours(diffHours)
      else if diffDays < 7 then Days(diffDays)
      else Older
  }

  /** The bucket's rank, smallest unit first. */
  function Rank(a: Ago): nat
  {
    match a
    case JustNow => 0
    case Minutes(_) => 1
    case Hours(_) => 2
    case Days(_) => 3
    case Older => 4
  }

  /** An older notification never gets a finer bucket than a newer one,
      and within a bucket never a smaller number. */
  lemma FormatTimeMonotone(t1: int, t2: int, nowMs: int)
    requires t2 <= t1
    ensures Rank(FormatTime(Some(t1), nowMs)) <= Rank(FormatTime(Some(t2), nowMs))
    ensures FormatTime(Some(t1), nowMs).Minutes? && FormatTime(Some(t2), nowMs).Minutes? ==>
      FormatTime(Some(t1), nowMs).m <= FormatTime(Some(t2), nowMs).m
    ensures FormatTime(Some(t1), nowMs).Hours? && FormatTime(Some(t2), nowMs).Hours? ==>
      FormatTime(Some(t1), nowMs).h <= FormatTime(Some(t2), nowMs).h
    ensures FormatTime(Some(t1), nowMs).Days? && FormatTime(Some(t2), nowMs).Days? ==>
      FormatTime(Some(t1), nowMs).d <= FormatTime(Some(t2), nowMs).d
  {
  }

  /** The text shown; `Older` is the locale date, left to the caller. */
  function Label(a: Ago, localeDate: string): string
  {
    match a
    case JustNow => "Agora mesmo"
    case Minutes(m) => NatToString(m) + "m atrás"
    case Hours(h) => NatToString(h) + "h atrás"
    case Days(d) => NatToString(d) + "d atrás"
    case Older => localeDate
  }
}
