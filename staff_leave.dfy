/** The leaves tab of the staff detail page: an inclusive date-range filter and its empty state. */
module StaffLeave {
  import opened Wrappers
  import opened Lists
  import opened Dates

  datatype Leave = Leave(id: string, date: Date, leaveType: string, status: string)

  function InRangeTest(range: DateFilter): Leave -> bool {
    (leave: Leave) => InRange(leave.date, range)
  }

  /** `filteredLeaves`: without a date filter the leaves as given; with one, those dated within it. */
  function FilteredLeaves(leaves: seq<Leave>, dateFilter: Option<DateFilter>): (r: seq<Leave>)
    ensures dateFilter.None? ==> r == leaves
    ensures SubseqOf(r, leaves)
    ensures dateFilter.Some? ==>
      forall x :: multiset(r)[x] == if InRange(x.date, dateFilter.value) then multiset(leaves)[x] else 0
  {
    if dateFilter.None? then
      SubseqRefl(leaves);
      leaves
    else
      FilterSpec(leaves, InRangeTest(dateFilter.value));
      Filter(leaves, InRangeTest(dateFilter.value))
  }

  /** Both ends of the range are included. */
  lemma RangeIsInclusive(leaves: seq<Leave>, range: DateFilter, i: nat)
    requires i < |leaves| && leaves[i].date.Some?
    requires leaves[i].date == range.startDate || leaves[i].date == range.endDate
    requires AtOrBefore(range.startDate, range.endDate)
    ensures leaves[i] in FilteredLeaves(leaves, Some(range))
  {
    assert multiset(leaves)[leaves[i]] > 0;
  }

  /** A range that starts after it ends shows nothing. */
  lemma InvertedRangeShowsNothing(leaves: seq<Leave>, range: DateFilter)
    requires range.startDate.Some? && range.endDate.Some? && range.startDate.value > range.endDate.value
    ensures FilteredLeaves(leaves, Some(range)) == []
  {
    FilterKeepsNone(leaves, InRangeTest(range));
  }

  /** The "No leaves found" notice. */
  function EmptyNotice(leaves: seq<Leave>, dateFilter: Option<DateFilter>): Option<string> {
    if |FilteredLeaves(leaves, dateFilter)| == 0 then Some("No leaves found") else None
  }

  /** The notice shows exactly when no leave is left: none at all, or none dated within the filter. */
  lemma EmptyNoticeWhenNothingInRange(leaves: seq<Leave>, dateFilter: Option<DateFilter>)
    ensures EmptyNotice(leaves, dateFilter) == Some("No leaves found") <==>
      (if dateFilter.None? then leaves == []
       else forall i :: 0 <= i < |leaves| ==> !InRange(leaves[i].date, dateFilter.value))
  {
    if dateFilter.Some? {
      FilterEmptyIff(leaves, InRangeTest(dateFilter.value));
    }
  }
}
