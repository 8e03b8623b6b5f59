/** Day numbers and instants.

    A calendar date is a day number of the local calendar; an instant is a
    count of milliseconds on the local time line, so that day `d` starts at
    `Midnight(d)`. `parseISO(dueDate)` is the midnight of the due day, and the
    page's `today` is an instant. `startOfWeek`/`endOfWeek` are those of
    date-fns with weeks starting on Monday. */
module Calendar {

  const MsPerDay: int := 86_400_000

  /** First instant of a day (`parseISO('YYYY-MM-DD').getTime()`). */
  function Midnight(day: int): int
  {
    day * MsPerDay
  }

  /** The day an instant falls in. */
  function DayOf(instant: int): (day: int)
    ensures Midnight(day) <= instant < Midnight(day + 1)
  {
    instant / MsPerDay
  }

  /** Midnights are ordered as their days are. */
  lemma MidnightOrder(d1: int, d2: int)
    ensures Midnight(d1) < Midnight(d2) <==> d1 < d2
  {
  }

  /** `Date.prototype.getDay`: 0 is Sunday, 6 is Saturday. Day 0 is
      1 January 1970, a Thursday. */
  function Weekday(day: int): (w: int)
    ensures 0 <= w < 7
  {
    (day + 4) % 7
  }

  const WeekStartsOn: int := 1  // Monday

  /** date-fns `startOfWeek`: go back to the most recent week start, the
      Monday at or before the day. */
  function StartOfWeekDay(day: int): (start: int)
    ensures Weekday(start) == WeekStartsOn
    ensures start <= day <= start + 6
  {
    var q, wd := (day + 4) / 7, Weekday(day);
    assert day + 4 == 7 * q + wd;
    var diff := (if wd < WeekStartsOn then 7 else 0) + wd - WeekStartsOn;
    assert day - diff + 4 == 7 * (if wd < WeekStartsOn then q - 1 else q) + 1;
    day - diff
  }

  /** date-fns `endOfWeek`: go forward to the last day of the week, the
      Sunday six days after its Monday. */
  function EndOfWeekDay(day: int): (end: int)
    ensures end == StartOfWeekDay(day) + 6
    ensures Weekday(end) == 0
    ensures day <= end <= day + 6
  {
    var wd := Weekday(day);
    var diff := (if wd < WeekStartsOn then -7 else 0) + 6 - (wd - WeekStartsOn);
    day + diff
  }

  /** `startOfWeek(now)`: midnight of the week's Monday, less than seven days
      before `now`. */
  function WeekStart(now: int): (t: int)
    ensures t <= now < t + 7 * MsPerDay
    ensures t == Midnight(t / MsPerDay) && Weekday(t / MsPerDay) == WeekStartsOn
  {
    Midnight(StartOfWeekDay(DayOf(now)))
  }

  /** `endOfWeek(now)`: the last millisecond (23:59:59.999) of the week's
      Sunday, so the week is seven whole days from `WeekStart(now)`. */
  function WeekEnd(now: int): (t: int)
    ensures t == WeekStart(now) + 7 * MsPerDay - 1
    ensures now <= t
    ensures DayOf(t) == EndOfWeekDay(DayOf(now))
  {
    Midnight(EndOfWeekDay(DayOf(now)) + 1) - 1
  }
}
