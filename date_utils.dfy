/**
 * Day counts between instants. An instant is a millisecond count in local
 * time with a fixed offset, so local days are the `DayMs`-long intervals
 * and midnight is the start of one.
 */
module DateUtils {
  import opened Wrappers
  import opened Numeric

  /** `1000 * 60 * 60 * 24`. */
  const DayMs := 1000 * 60 * 60 * 24

  /** The local calendar day an instant falls on, counted from the epoch. */
  function DayNumber(t: int): int
  {
    t / DayMs
  }

  /** `date.setHours(0, 0, 0, 0)`: the instant rounded down to the start of its day. */
  function Midnight(t: int): (m: int)
    ensures m == DayNumber(t) * DayMs
    ensures m <= t < m + DayMs
  {
    t - t % DayMs
  }

  /** `getDaysBetween(start, end)`: whole days, rounding any part of a day up. */
  function GetDaysBetween(start: int, end: int): (days: int)
    ensures days >= 0
    ensures (days - 1) * DayMs < Abs(end - start) <= days * DayMs
  {
    CeilDiv(Abs(end - start), DayMs)
  }

  /** The count does not depend on which instant comes first. */
  lemma DaysBetweenSymmetric(start: int, end: int)
    ensures GetDaysBetween(start, end) == GetDaysBetween(end, start)
  {
    assert Abs(end - start) == Abs(start - end);
  }

  /**
   * `getDaysUntilDue(dueDateString)`, with the parsed due date given as an
   * instant; `None` is an unparsable date (an Invalid Date), for which the
   * source computes NaN.
   */
  function GetDaysUntilDue(due: Option<int>, now: int): (days: Option<int>)
    ensures days.None? <==> due.None?
    ensures due.Some? ==> days.value == DayNumber(due.value) - DayNumber(now)
  {
    if due.None? then None
    else
      var diff := Midnight(due.value) - Midnight(now);
      assert diff == (DayNumber(due.value) - DayNumber(now)) * DayMs;
      CeilDivExact(DayNumber(due.value) - DayNumber(now), DayMs);
      Some(CeilDiv(diff, DayMs))
  }

  /** A due date on today's calendar day is 0 days away, whatever the times of day. */
  lemma SameDayIsZeroDaysAway(due: int, now: int)
    requires DayNumber(due) == DayNumber(now)
    ensures GetDaysUntilDue(Some(due), now) == Some(0)
  {
  }

  datatype DueStatus = Overdue | Soon | Safe

  /** The threshold of `getDueStatus`. NaN fails both comparisons, so it reads as safe. */
  function DueStatusOf(days: Option<int>): (s: DueStatus)
    ensures s == Overdue <==> days.Some? && days.value < 0
    ensures s == Soon <==> days.Some? && 0 <= days.value <= 3
    ensures s == Safe <==> days.None? || days.value > 3
  {
    if days.Some? && days.value < 0 then Overdue
    else if days.Some? && days.value <= 3 then Soon
    else Safe
  }

  /** `getDueStatus(dueDateString)`, in calendar days. */
  function GetDueStatus(due: Option<int>, now: int): (s: DueStatus)
    ensures s == Overdue <==> due.Some? && DayNumber(due.value) < DayNumber(now)
    ensures s == Soon <==> due.Some? && DayNumber(now) <= DayNumber(due.value) <= DayNumber(now) + 3
    ensures s == Safe <==> due.None? || DayNumber(due.value) > DayNumber(now) + 3
  {
    DueStatusOf(GetDaysUntilDue(due, now))
  }
}
