/**
 * Dates as the console compares them after `new Date(...)`: a day number, or `None` for a
 * string that does not parse. An invalid date is NaN, and every `<`, `<=`, `>=` with NaN is false.
 */
module Dates {
  import opened Wrappers

  type Date = Option<int>

  /** `a <= b` on two parsed dates. */
  predicate AtOrBefore(a: Date, b: Date) {
    a.Some? && b.Some? && a.value <= b.value
  }

  /** The `{ startDate, endDate }` range the staff detail page passes to its tabs. */
  datatype DateFilter = DateFilter(startDate: Date, endDate: Date)

  /** `date >= startDate && date <= endDate`, inclusive at both ends. */
  predicate InRange(date: Date, range: DateFilter) {
    AtOrBefore(range.startDate, date) && AtOrBefore(date, range.endDate)
  }
}
