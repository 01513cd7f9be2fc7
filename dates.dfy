/**
 * .NET `DateTime` values, reduced to what the todo service compares:
 * a day number counted from `DateTime.MinValue` (0001-01-01) and a time of
 * day in 100-nanosecond ticks. The clock itself (`DateTime.Today`,
 * `DateTime.UtcNow`) is not modelled: callers pass `today` and `now`.
 */
module Dates {

  /** Ticks in one day: 24 * 60 * 60 * 10^7. */
  const TicksPerDay: nat := 864_000_000_000

  type TimeOfDay = t: nat | t < TicksPerDay

  datatype DateTime = DateTime(day: nat, time: TimeOfDay)

  /** `DateTime.MinValue`. */
  const MinValue: DateTime := DateTime(0, 0)

  /** Midnight at the start of `day`, which is what `DateTime.Today` yields. */
  function Midnight(day: nat): DateTime {
    DateTime(day, 0)
  }

  /** The `.Date` property: the same day at midnight. */
  function DateOf(d: DateTime): DateTime {
    Midnight(d.day)
  }

  /** `d.AddDays(n)` for a whole number of days. */
  function AddDays(d: DateTime, n: nat): DateTime {
    DateTime(d.day + n, d.time)
  }

  /** The `<` operator on `DateTime`: an earlier day, or the same day at an earlier time. */
  predicate Before(a: DateTime, b: DateTime) {
    a.day < b.day || (a.day == b.day && a.time < b.time)
  }
}
