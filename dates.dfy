/**
 * Calendar days as integers: day 0 is 1970-01-01, so 2023-05-05 is day 19482.
 * The ISO date strings of the application ("2023-05-05") are modelled by these numbers.
 */
module Dates {

  type Day = int

  /** A `[start, end]` pair of days, as the feed's date range holds it. */
  datatype DateSpan = DateSpan(start: Day, end: Day)

  /** date-fns `isWithinInterval`: both ends are inclusive. */
  predicate WithinInterval(d: Day, span: DateSpan)
  {
    span.start <= d <= span.end
  }
}
