/** The advance payments tab of the staff detail page: an inclusive date-range filter and its empty state. */
module StaffAdvancePayment {
  import opened Wrappers
  import opened Lists
  import opened Dates

  datatype Payment = Payment(id: string, date: Date, amount: int)

  function InRangeTest(range: DateFilter): Payment -> bool {
    (payment: Payment) => InRange(payment.date, range)
  }

  /** `filteredPayments`: without a date filter the payments as given; with one, those dated within it. */
  function FilteredPayments(payments: seq<Payment>, dateFilter: Option<DateFilter>): (r: seq<Payment>)
    ensures dateFilter.None? ==> r == payments
    ensures SubseqOf(r, payments)
    ensures dateFilter.Some? ==>
      forall x :: multiset(r)[x] == if InRange(x.date, dateFilter.value) then multiset(payments)[x] else 0
  {
    if dateFilter.None? then
      SubseqRefl(payments);
      payments
    else
      FilterSpec(payments, InRangeTest(dateFilter.value));
      Filter(payments, InRangeTest(dateFilter.value))
  }

  /** Both ends of the range are included. */
  lemma RangeIsInclusive(payments: seq<Payment>, range: DateFilter, i: nat)
    requires i < |payments| && payments[i].date.Some?
    requires payments[i].date == range.startDate || payments[i].date == range.endDate
    requires AtOrBefore(range.startDate, range.endDate)
    ensures payments[i] in FilteredPayments(payments, Some(range))
  {
    assert multiset(payments)[payments[i]] > 0;
  }

  /** A range that starts after it ends shows nothing. */
  lemma InvertedRangeShowsNothing(payments: seq<Payment>, range: DateFilter)
    requires range.startDate.Some? && range.endDate.Some? && range.startDate.value > range.endDate.value
    ensures FilteredPayments(payments, Some(range)) == []
  {
    FilterKeepsNone(payments, InRangeTest(range));
  }

  /** The "No payments found" notice. */
  function EmptyNotice(payments: seq<Payment>, dateFilter: Option<DateFilter>): Option<string> {
    if |FilteredPayments(payments, dateFilter)| == 0 then Some("No payments found") else None
  }

  /** The notice shows exactly when no payment is left: none at all, or none dated within the filter. */
  lemma EmptyNoticeWhenNothingInRange(payments: seq<Payment>, dateFilter: Option<DateFilter>)
    ensures EmptyNotice(payments, dateFilter) == Some("No payments found") <==>
      (if dateFilter.None? then payments == []
       else forall i :: 0 <= i < |payments| ==> !InRange(payments[i].date, dateFilter.value))
  {
    if dateFilter.Some? {
      FilterEmptyIff(payments, InRangeTest(dateFilter.value));
    }
  }
}
