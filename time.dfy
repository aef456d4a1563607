/** Dates, periods and the names of day counters, calendars and conventions. */
module Time {

  /** A date as its serial number; serial 0 is the null `Date()`. */
  type Date = int

  const NullDate: Date := 0

  datatype TimeUnit = Days | Weeks | Months | Years

  /** A tenor such as "3 Months". Compared structurally (see README). */
  datatype Period = Period(length: int, units: TimeUnit)

  /** `Period()`: zero days. */
  const EmptyPeriod: Period := Period(0, Days)

  datatype DayCounter = Actual360 | Actual365Fixed | OtherDayCounter(name: string)

  datatype Calendar =
    | NullCalendar
    | Target
    | UnitedStatesNyse
    | JointCalendar(first: Calendar, second: Calendar)
    | OtherCalendar(name: string)

  datatype BusinessDayConvention =
    | Following
    | ModifiedFollowing
    | Preceding
    | ModifiedPreceding
    | Unadjusted
    | HalfMonthModifiedFollowing
    | Nearest
}
