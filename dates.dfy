/**
 * Calendar dates and instants.
 *
 * A Python `date` compares as the tuple (year, month, day); a `datetime`
 * is modelled as a whole number of seconds since the epoch.
 */
module Dates {

  datatype Date = Date(year: int, month: int, day: int)

  /** Tuple order on (month, day): does `a` fall strictly earlier in the year than `b`? */
  predicate EarlierInYear(a: Date, b: Date) {
    a.month < b.month || (a.month == b.month && a.day < b.day)
  }

  /** `a < b` on Python dates. */
  predicate Before(a: Date, b: Date) {
    a.year < b.year || (a.year == b.year && EarlierInYear(a, b))
  }

  /** `a <= b` on Python dates. */
  predicate OnOrBefore(a: Date, b: Date) {
    a == b || Before(a, b)
  }

  /** A `datetime` as seconds since the epoch. */
  type Instant = int

  /** `timedelta(hours=24)` in seconds. */
  const SecondsPerDay: int := 24 * 60 * 60
}
