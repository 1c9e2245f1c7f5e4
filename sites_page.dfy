/**
 * The site management page: its client-side filter of the fetched records (type, status,
 * search), its dashboard statistics, the status colours and the checks and payloads of
 * the add/edit submission.
 */
module SitesPage {
  import opened Wrappers
  import opened Text
  import opened Lists
  import opened Dates
  import opened SiteStore

  /** `x || 0` on a numeric field. */
  function OrZero(x: Option<int>): int {
    x.GetOr(0)
  }

  /** `calculateBalance`: income minus expense. */
  function CalculateBalance(site: Site): (balance: int)
    ensures site.totalIncome.Some? && site.totalExpense.Some? ==>
              balance == site.totalIncome.value - site.totalExpense.value
    ensures site.totalIncome.None? ==> balance == -OrZero(site.totalExpense)
    ensures site.totalExpense.None? ==> balance == OrZero(site.totalIncome)
  {
    OrZero(site.totalIncome) - OrZero(site.totalExpense)
  }

  /** A missing total counts as zero: leaving it out or sending 0 gives the same balance. */
  lemma MissingTotalsCountAsZero(site: Site)
    ensures CalculateBalance(site.(totalIncome := None)) == CalculateBalance(site.(totalIncome := Some(0)))
    ensures CalculateBalance(site.(totalExpense := None)) == CalculateBalance(site.(totalExpense := Some(0)))
    ensures CalculateBalance(site.(totalIncome := None, totalExpense := None)) == 0
  {
  }

  /** `site.status?.toLowerCase()`. */
  function LowerStatus(site: Site): Option<string> {
    if site.status.Some? then Some(Lower(site.status.value)) else None
  }

  /** `site.type === 'Site'`. */
  predicate IsSiteRecord(site: Site) {
    site.kind == Some("Site")
  }

  /** The rule both the status filter and the active count use: `active` or `on going`, in any case. */
  predicate IsActive(site: Site) {
    LowerStatus(site) == Some("active") || LowerStatus(site) == Some("on going")
  }

  predicate IsPending(site: Site) {
    LowerStatus(site) == Some("pending")
  }

  predicate IsActiveSite(site: Site) {
    IsSiteRecord(site) && IsActive(site)
  }

  predicate IsPendingSite(site: Site) {
    IsSiteRecord(site) && IsPending(site)
  }

  const Green := "text-green-600 bg-green-100"
  const Blue := "text-blue-600 bg-blue-100"
  const Yellow := "text-yellow-600 bg-yellow-100"
  const Red := "text-red-600 bg-red-100"
  const Gray := "text-gray-600 bg-gray-100"

  /** The five statuses `getStatusColor` knows, lower-cased. */
  predicate KnownStatus(status: Option<string>) {
    status.Some? && Lower(status.value) in {"active", "on going", "completed", "pending", "cancelled"}
  }

  /**
   * `getStatusColor`: a site the statistics count as active is green, a pending one yellow;
   * every unknown or missing status falls to the gray default.
   */
  function StatusColor(status: Option<string>): (colour: string)
    ensures colour == Gray <==> !KnownStatus(status)
    ensures status.Some? && Lower(status.value) in {"active", "on going"} ==> colour == Green
    ensures status.Some? && Lower(status.value) == "pending" ==> colour == Yellow
    ensures status.Some? && Lower(status.value) == "completed" ==> colour == Blue
    ensures status.Some? && Lower(status.value) == "cancelled" ==> colour == Red
  {
    if status.None? then Gray
    else
      var s := Lower(status.value);
      if s == "active" || s == "on going" then Green
      else if s == "completed" then Blue
      else if s == "pending" then Yellow
      else if s == "cancelled" then Red
      else Gray
  }

  /** What the page colours as active is what it counts as active. */
  lemma ActiveSitesAreGreen(site: Site)
    requires IsActive(site)
    ensures StatusColor(site.status) == Green
  {
  }

  /** `sites.filter(site => site.type === 'Site')`. */
  function SitesOnly(sites: seq<Site>): (r: seq<Site>)
    ensures SubseqOf(r, sites)
    ensures forall x :: multiset(r)[x] == if IsSiteRecord(x) then multiset(sites)[x] else 0
    ensures forall i :: 0 <= i < |r| ==> IsSiteRecord(r[i])
    ensures |r| == Count(sites, IsSiteRecord)
  {
    FilterSpec(sites, IsSiteRecord);
    FilterLength(sites, IsSiteRecord);
    Filter(sites, IsSiteRecord)
  }

  /** `sites.reduce((sum, site) => sum + calculateBalance(site), sum)`. */
  function ReduceBalance(sum: int, sites: seq<Site>): int
    decreases |sites|
  {
    if |sites| == 0 then sum else ReduceBalance(sum + CalculateBalance(sites[0]), sites[1..])
  }

  /** The sum of the balances of `sites`. */
  function BalanceSum(sites: seq<Site>): int {
    if |sites| == 0 then 0 else CalculateBalance(sites[0]) + BalanceSum(sites[1..])
  }

  /** Reference total: the balance of every Site record, any other record contributing nothing. */
  function SiteBalanceTotal(sites: seq<Site>): int {
    if |sites| == 0 then 0
    else (if IsSiteRecord(sites[0]) then CalculateBalance(sites[0]) else 0) + SiteBalanceTotal(sites[1..])
  }

  lemma {:induction false} ReduceIsSum(sum: int, sites: seq<Site>)
    ensures ReduceBalance(sum, sites) == sum + BalanceSum(sites)
    decreases |sites|
  {
    if |sites| > 0 {
      ReduceIsSum(sum + CalculateBalance(sites[0]), sites[1..]);
    }
  }

  lemma {:induction false} SumOfSitesOnly(sites: seq<Site>)
    ensures BalanceSum(Filter(sites, IsSiteRecord)) == SiteBalanceTotal(sites)
  {
    if |sites| > 0 {
      SumOfSitesOnly(sites[1..]);
      if IsSiteRecord(sites[0]) {
        var f := Filter(sites, IsSiteRecord);
        assert f[0] == sites[0] && f[1..] == Filter(sites[1..], IsSiteRecord);
      }
    }
  }

  datatype Statistics = Statistics(totalCount: int, activeCount: int, pendingCount: int, totalBalance: int)

  /**
   * The `statistics` memo. All four figures are over Site records only; the active and the
   * pending sites are disjoint, so together they never exceed the total.
   */
  function ComputeStatistics(sites: seq<Site>): (st: Statistics)
    ensures st.totalCount == Count(sites, IsSiteRecord) <= |sites|
    ensures st.activeCount == Count(sites, IsActiveSite)
    ensures st.pendingCount == Count(sites, IsPendingSite)
    ensures st.activeCount + st.pendingCount <= st.totalCount
    ensures st.totalBalance == SiteBalanceTotal(sites)
  {
    var sitesOnly := SitesOnly(sites);
    var active := Filter(sitesOnly, IsActive);
    var pending := Filter(sitesOnly, IsPending);
    FilterFilter(sites, IsSiteRecord, IsActive);
    FilterAgree(sites, Both(IsSiteRecord, IsActive), IsActiveSite);
    FilterLength(sites, IsActiveSite);
    FilterFilter(sites, IsSiteRecord, IsPending);
    FilterAgree(sites, Both(IsSiteRecord, IsPending), IsPendingSite);
    FilterLength(sites, IsPendingSite);
    FilterDisjoint(sitesOnly, IsActive, IsPending);
    ReduceIsSum(0, sitesOnly);
    SumOfSitesOnly(sites);
    Statistics(|sitesOnly|, |active|, |pending|, ReduceBalance(0, sitesOnly))
  }

  /** The status filter: `active` takes `on going` too; any other value is an exact lower-case match. */
  predicate StatusMatches(statusFilter: string, site: Site) {
    var filterStatus := Lower(statusFilter);
    if filterStatus == "active" then IsActive(site) else LowerStatus(site) == Some(filterStatus)
  }

  /** The search: lower-cased trimmed term in name or place, trimmed term in the contact number. */
  predicate SearchMatches(searchTerm: string, site: Site) {
    var searchLower := Trim(Lower(searchTerm));
    || (site.name.Some? && Contains(Lower(site.name.value), searchLower))
    || (site.place.Some? && Contains(Lower(site.place.value), searchLower))
    || (site.contactNumber.Some? && Contains(site.contactNumber.value, Trim(searchTerm)))
  }

  function StatusTest(statusFilter: string): Site -> bool {
    site => StatusMatches(statusFilter, site)
  }

  function SearchTest(searchTerm: string): Site -> bool {
    site => SearchMatches(searchTerm, site)
  }

  /** Whether `filteredSites` shows a record. */
  predicate Shown(statusFilter: string, searchTerm: string, site: Site) {
    && IsSiteRecord(site)
    && (statusFilter == "all" || StatusMatches(statusFilter, site))
    && (Blank(searchTerm) || SearchMatches(searchTerm, site))
  }

  /**
   * The `filteredSites` memo: the Site records that pass the status filter (none applied for
   * `all`) and the search (none applied for a blank term), in their original order.
   */
  function FilteredSites(sites: seq<Site>, statusFilter: string, searchTerm: string): (r: seq<Site>)
    ensures SubseqOf(r, sites)
    ensures forall x :: multiset(r)[x] == if Shown(statusFilter, searchTerm, x) then multiset(sites)[x] else 0
  {
    var filtered := SitesOnly(sites);
    var byStatus := FilterWhen(statusFilter != "all", filtered, StatusTest(statusFilter));
    var bySearch := FilterWhen(searchTerm != "" && Trim(searchTerm) != "", byStatus, SearchTest(searchTerm));
    SubseqTrans(byStatus, filtered, sites);
    SubseqTrans(bySearch, byStatus, sites);
    bySearch
  }

  /** A record `filteredSites` shows passes every stage. */
  lemma ShownElements(sites: seq<Site>, statusFilter: string, searchTerm: string)
    ensures forall x :: x in FilteredSites(sites, statusFilter, searchTerm) ==> x in sites && Shown(statusFilter, searchTerm, x)
  {
    var r := FilteredSites(sites, statusFilter, searchTerm);
    forall x | x in r
      ensures x in sites && Shown(statusFilter, searchTerm, x)
    {
      assert multiset(r)[x] > 0;
    }
  }

  /** With `all` and a blank search the page shows exactly the Site records. */
  lemma NoFilterShowsEverySite(sites: seq<Site>, searchTerm: string)
    requires Blank(searchTerm)
    ensures FilteredSites(sites, "all", searchTerm) == SitesOnly(sites)
  {
  }

  /** Filtering by `active` (in any case) shows only sites whose status is `active` or `on going`. */
  lemma ActiveFilterTakesOnGoing(sites: seq<Site>, statusFilter: string, searchTerm: string)
    requires Lower(statusFilter) == "active"
    ensures forall x :: x in FilteredSites(sites, statusFilter, searchTerm) ==> 
      LowerStatus(x) == Some("active") || LowerStatus(x) == Some("on going")
  {
    ShownElements(sites, statusFilter, searchTerm);
    assert statusFilter != "all" by {
      assert Lower("all") == "all";
    }
  }

  /** Any other status filter is an exact, case-insensitive match on the status. */
  lemma OtherStatusFilterIsExact(sites: seq<Site>, statusFilter: string, searchTerm: string)
    requires statusFilter != "all" && Lower(statusFilter) != "active"
    ensures forall x :: x in FilteredSites(sites, statusFilter, searchTerm) ==> LowerStatus(x) == Some(Lower(statusFilter))
  {
    ShownElements(sites, statusFilter, searchTerm);
  }

  /** A blank or white-space-only search term restricts nothing. */
  lemma BlankSearchRestrictsNothing(sites: seq<Site>, statusFilter: string, searchTerm: string)
    requires Blank(searchTerm)
    ensures FilteredSites(sites, statusFilter, searchTerm) == FilteredSites(sites, statusFilter, "")
  {
  }

  /** `handleSearch`: the term is stored lower-cased. */
  function HandleSearch(term: string): (stored: string)
    ensures |stored| == |term|
    ensures forall i :: 0 <= i < |term| && IsUpper(term[i]) ==>
              stored[i] as int == term[i] as int + ('a' as int - 'A' as int)
    ensures forall i :: 0 <= i < |term| && !IsUpper(term[i]) ==> stored[i] == term[i]
    ensures forall i :: 0 <= i < |stored| ==> !IsUpper(stored[i])
    ensures Lower(stored) == stored
  {
    LowerIdempotent(term);
    Lower(term)
  }

  datatype Mode = Add | Edit

  /** What `handleSubmitSite` does: refuse with a message, or hand a payload to `addSite` or `editSite`. */
  datatype Submission = Rejected(message: string) | Adding(payload: Site) | Editing(payload: Site)

  /** `currentSite?.id || currentSite?._id`. */
  function EditId(currentSite: Option<Site>): Option<string> {
    if currentSite.None? then None
    else if !Missing(currentSite.value.id) then currentSite.value.id
    else currentSite.value.dbId
  }

  /**
   * `handleSubmitSite`: refused when the due date is not after the start date; an add starts
   * both totals at 0; an edit carries the current site's id in place of the form's.
   */
  function HandleSubmitSite(mode: Mode, formData: Site, currentSite: Option<Site>): (s: Submission)
    ensures s.Rejected? <==> AtOrBefore(formData.dueDate, formData.startDate)
    ensures s.Rejected? ==> s.message == "Due date must be later than start date"
    ensures s.Adding? <==> !s.Rejected? && mode == Add
    ensures s.Adding? ==> s.payload == formData.(totalIncome := Some(0), totalExpense := Some(0))
    ensures s.Editing? ==> s.payload == formData.(id := EditId(currentSite))
  {
    if AtOrBefore(formData.dueDate, formData.startDate) then Rejected("Due date must be later than start date")
    else if mode == Add then Adding(formData.(totalIncome := Some(0), totalExpense := Some(0)))
    else Editing(formData.(id := EditId(currentSite)))
  }

  /** A site added from the page starts with a zero balance. */
  lemma AddedSiteHasZeroBalance(formData: Site, currentSite: Option<Site>)
    requires HandleSubmitSite(Add, formData, currentSite).Adding?
    ensures CalculateBalance(HandleSubmitSite(Add, formData, currentSite).payload) == 0
  {
  }

  /** An unparsable start or due date compares false, so the date check lets the form through. */
  lemma InvalidDatesPassDateCheck(mode: Mode, formData: Site, currentSite: Option<Site>)
    requires formData.startDate.None? || formData.dueDate.None?
    ensures !HandleSubmitSite(mode, formData, currentSite).Rejected?
  {
  }

  /** An edit reaches the server under the current site's id, whatever id the form held. */
  lemma EditIsSentUnderCurrentId(formData: Site, site: Site)
    requires !AtOrBefore(formData.dueDate, formData.startDate)
    requires !Missing(site.id)
    ensures EditSite(HandleSubmitSite(Edit, formData, Some(site)).payload)
         == Sent(Request(Put, "/editSite/" + site.id.value, SiteBody(formData.(id := None))))
  {
  }

  /** Editing with no current site, or one without either id, is refused before any request. */
  lemma EditWithoutIdIsNotSent(formData: Site, currentSite: Option<Site>)
    requires currentSite.None? || (Missing(currentSite.value.id) && Missing(currentSite.value.dbId))
    requires !AtOrBefore(formData.dueDate, formData.startDate)
    ensures EditSite(HandleSubmitSite(Edit, formData, currentSite).payload) == NotSent("Failed to update site")
  {
  }
}
