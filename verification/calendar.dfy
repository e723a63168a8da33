/** `getDaysDiff` of components/Dashboard.tsx. A due date is a day number
    (days since the epoch); "now" is a timestamp in milliseconds. Both are
    moved to midnight before the difference is rounded to whole days. The
    model treats local time as UTC. */
module Calendar {
  import opened Numbers

  /** `1000 * 60 * 60 * 24`. */
  const DayMs: int := 86400000

  /** The calendar day a timestamp falls on. */
  function DayOf(ms: int): int
  {
    ms / DayMs
  }

  /** `d.setHours(0, 0, 0, 0)`: the start of the timestamp's day. */
  function Midnight(ms: int): (r: int)
    ensures r <= ms < r + DayMs
    ensures r % DayMs == 0
  {
    ms - ms % DayMs
  }

  /** `getDaysDiff(dueDate)`: the number of calendar days from today to the
      due day, negative when the due day has passed. */
  function DaysDiff(dueDay: int, nowMs: int): (r: int)
    ensures r == dueDay - DayOf(nowMs)
  {
    var diffTime := Midnight(dueDay * DayMs) - Midnight(nowMs);
    MidnightOfDay(dueDay);
    MidnightIsDayStart(nowMs);
    RoundExact(dueDay - DayOf(nowMs));
    RoundDiv(diffTime, DayMs)
  }

  lemma MidnightOfDay(day: int)
    ensures Midnight(day * DayMs) == day * DayMs
  {
  }

  lemma MidnightIsDayStart(ms: int)
    ensures Midnight(ms) == DayOf(ms) * DayMs
  {
  }

  /** Rounding an exact multiple gives the multiplier back. */
  lemma RoundExact(k: int)
    ensures RoundDiv(k * DayMs, DayMs) == k
  {
  }

  /** A bill is overdue exactly when its due day is before today. */
  lemma OverdueIffBeforeToday(dueDay: int, nowMs: int)
    ensures DaysDiff(dueDay, nowMs) < 0 <==> dueDay < DayOf(nowMs)
    ensures DaysDiff(dueDay, nowMs) == 0 <==> dueDay == DayOf(nowMs)
  {
  }

  /** The result does not depend on the time of day of "now". */
  lemma TimeOfDayIrrelevant(dueDay: int, today: int, h1: int, h2: int)
    requires 0 <= h1 < DayMs && 0 <= h2 < DayMs
    ensures DaysDiff(dueDay, today * DayMs + h1) == DaysDiff(dueDay, today * DayMs + h2) == dueDay - today
  {
    DayOfWithinDay(today, h1);
    DayOfWithinDay(today, h2);
  }

  lemma DayOfWithinDay(day: int, h: int)
    requires 0 <= h < DayMs
    ensures DayOf(day * DayMs + h) == day
  {
  }
}
