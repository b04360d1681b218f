/**
 * Instants are whole minutes on the host's local clock, counted from local
 * midnight of Thursday 1 January 1970. The local zone is taken to have a
 * fixed offset, so every day has 1440 minutes and local midnight, local hour
 * and weekday are plain arithmetic on the instant.
 */
module Clock {

  const MinutesPerDay: int := 1440

  /** Local midnight of the day containing `t` (`startOfDay`, `setHours(0, 0, 0, 0)`). */
  function DayStart(t: int): (d: int)
    ensures d <= t < d + MinutesPerDay
    ensures d % MinutesPerDay == 0
  {
    t - t % MinutesPerDay
  }

  /** Minutes since local midnight (`format(t, 'HH:mm')` read back as a number of minutes). */
  function MinuteOfDay(t: int): (m: int)
    ensures 0 <= m < MinutesPerDay
    ensures t == DayStart(t) + m
  {
    t % MinutesPerDay
  }

  /** `Date.prototype.getHours`. */
  function HourOf(t: int): (h: int)
    ensures 0 <= h < 24
    ensures DayStart(t) + h * 60 <= t < DayStart(t) + h * 60 + 60
  {
    MinuteOfDay(t) / 60
  }

  /** The lower-case English day names, indexed as `Date.prototype.getDay` (0 is Sunday). */
  const DayNames: seq<string> :=
    ["sunday", "monday", "tuesday", "wednesday", "thursday", "friday", "saturday"]

  /** `Date.prototype.getDay`: day 0 of the count is a Thursday. */
  function WeekdayIndex(t: int): (w: int)
    ensures 0 <= w < 7
  {
    (t / MinutesPerDay + 4) % 7
  }

  /** `format(t, 'EEEE').toLowerCase()`. */
  function Weekday(t: int): string
  {
    DayNames[WeekdayIndex(t)]
  }

  /** A local midnight plus less than a day lies in that day. */
  lemma DayStartOf(d: int, m: int)
    requires d % MinutesPerDay == 0 && 0 <= m < MinutesPerDay
    ensures DayStart(d + m) == d
  {
  }

  /** A day after a local midnight is a local midnight. */
  lemma NextMidnight(d: int)
    requires d % MinutesPerDay == 0
    ensures (d + MinutesPerDay) % MinutesPerDay == 0
  {
  }

  /** Local midnight is monotone in the instant. */
  lemma DayStartMonotone(x: int, y: int)
    requires x <= y
    ensures DayStart(x) <= DayStart(y)
  {
  }

  /** The day after a local midnight has the next weekday. */
  lemma NextDayWeekday(d: int)
    requires d % MinutesPerDay == 0
    ensures WeekdayIndex(d + MinutesPerDay) == (WeekdayIndex(d) + 1) % 7
  {
    assert (d + MinutesPerDay) / MinutesPerDay == d / MinutesPerDay + 1;
  }
}
