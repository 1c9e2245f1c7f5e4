/** The sites filter bar: the status dropdown, the local search box and the active-filters chips. */
module SiteFilter {
  import opened Wrappers

  datatype StatusOption = StatusOption(value: string, labelText: string)

  /** The dropdown's options, in display order. */
  const StatusOptions: seq<StatusOption> := [
    StatusOption("all", "All Sites"),
    StatusOption("Active", "Active"),
    StatusOption("On Going", "On Going"),
    StatusOption("Pending", "Pending"),
    StatusOption("Completed", "Completed"),
    StatusOption("Cancelled", "Cancelled")
  ]

  const DefaultLabel := "All Sites"

  /** `options.find(option => option.value === value)`: the first option with exactly that value. */
  function FindOption(options: seq<StatusOption>, value: string): (r: Option<nat>)
    ensures r.Some? ==> r.value < |options| && options[r.value].value == value
    ensures r.Some? ==> forall j :: 0 <= j < r.value ==> options[j].value != value
    ensures r.None? <==> forall j :: 0 <= j < |options| ==> options[j].value != value
  {
    if |options| == 0 then None
    else if options[0].value == value then Some(0)
    else
      match FindOption(options[1..], value)
      case None => None
      case Some(i) => Some(i + 1)
  }

  /** `getCurrentStatusLabel`: the label of the option whose value is `currentStatus`, or "All Sites". */
  function CurrentStatusLabel(currentStatus: string): (shownLabel: string)
    ensures exists i :: 0 <= i < |StatusOptions| && StatusOptions[i].labelText == shownLabel
    ensures (forall i :: 0 <= i < |StatusOptions| ==> StatusOptions[i].value != currentStatus) ==> shownLabel == DefaultLabel
  {
    match FindOption(StatusOptions, currentStatus)
    case Some(i) => StatusOptions[i].labelText
    case None => assert StatusOptions[0].labelText == DefaultLabel; DefaultLabel
  }

  /** No two options share a value. */
  lemma OptionValuesDistinct()
    ensures forall i, j :: 0 <= i < j < |StatusOptions| ==> StatusOptions[i].value != StatusOptions[j].value
  {
  }

  /** Every listed value shows its own label. */
  lemma {:induction false} ListedValueShowsItsLabel(i: nat)
    requires i < |StatusOptions|
    ensures CurrentStatusLabel(StatusOptions[i].value) == StatusOptions[i].labelText
  {
    OptionValuesDistinct();
    var found := FindOption(StatusOptions, StatusOptions[i].value);
    assert found == Some(i);
  }

  /** The lookup is case-sensitive: the lower-cased status the sites page filters on finds no option. */
  lemma LookupIsCaseSensitive()
    ensures CurrentStatusLabel("active") == DefaultLabel
    ensures CurrentStatusLabel("pending") == DefaultLabel
  {
    assert forall i :: 0 <= i < |StatusOptions| ==> StatusOptions[i].value != "active" && StatusOptions[i].value != "pending";
  }

  /** The "Status" chip, and the "Search" chip. */
  predicate StatusChipShown(currentStatus: string) {
    currentStatus != "all"
  }

  predicate SearchChipShown(localSearchTerm: string) {
    localSearchTerm != ""
  }

  /** The active-filters bar: shown when a status other than `all` is chosen or the local term is non-empty. */
  predicate ActiveFiltersShown(currentStatus: string, localSearchTerm: string) {
    currentStatus != "all" || localSearchTerm != ""
  }

  /** The component's own state; the current status and the page's search term are props. */
  class SiteFilterState {
    var localSearchTerm: string
    var isFilterOpen: bool

    /** `useState(searchTerm || '')` and a closed dropdown. */
    constructor (searchTerm: Option<string>)
      ensures localSearchTerm == searchTerm.GetOr("") && !isFilterOpen
    {
      localSearchTerm := searchTerm.GetOr("");
      isFilterOpen := false;
    }

    /** Whether the active-filters bar is shown for the given status. */
    predicate BarShown(currentStatus: string)
      reads this
    {
      ActiveFiltersShown(currentStatus, localSearchTerm)
    }

    /** `handleSearchChange`: the box shows the new value at once; `scheduled` is what the debounce will report upward. */
    method HandleSearchChange(value: string) returns (scheduled: string)
      modifies this
      ensures localSearchTerm == value && scheduled == value
      ensures isFilterOpen == old(isFilterOpen)
    {
      localSearchTerm := value;
      scheduled := value;
    }

    /** `handleStatusChange`: the status is forwarded to the page and the dropdown closes. */
    method HandleStatusChange(status: string) returns (forwarded: string)
      modifies this
      ensures forwarded == status && !isFilterOpen
      ensures localSearchTerm == old(localSearchTerm)
      ensures status == "all" ==> (BarShown(forwarded) <==> SearchChipShown(localSearchTerm))
    {
      forwarded := status;
      isFilterOpen := false;
    }

    /** `clearSearch`: the local term is emptied and `''` is reported upward. */
    method ClearSearch() returns (reported: string)
      modifies this
      ensures localSearchTerm == "" && reported == ""
      ensures isFilterOpen == old(isFilterOpen)
      ensures !SearchChipShown(localSearchTerm)
      ensures forall currentStatus :: BarShown(currentStatus) <==> StatusChipShown(currentStatus)
    {
      localSearchTerm := "";
      reported := "";
    }

    /**
     * Pressing the cross on the "Search" chip and then the one on the "Status" chip: whatever the
     * state before, the page is told `''` and `all`, and the bar is hidden.
     */
    method ClearBothChips() returns (reported: string, forwarded: string)
      modifies this
      ensures reported == "" && forwarded == "all"
      ensures localSearchTerm == "" && !isFilterOpen
      ensures !BarShown(forwarded)
    {
      reported := ClearSearch();
      forwarded := HandleStatusChange("all");
    }

    /** The dropdown button, on desktop and on mobile. */
    method ToggleFilter()
      modifies this
      ensures isFilterOpen == !old(isFilterOpen)
      ensures localSearchTerm == old(localSearchTerm)
    {
      isFilterOpen := !isFilterOpen;
    }
  }
}
