/**
 * The site list hook (`useGetAllSites`) and the id guards of the site request hooks.
 * The hook keeps `sites`, `count` and `error` as state that its callbacks overwrite; the
 * list transforms they apply are pure functions on the old list.
 */
module SiteStore {
  import opened Wrappers
  import opened Lists
  import opened Dates

  /**
   * A site record as the server sends it. Every key may be absent (`None`).
   * `kind` is the record's `type` key, `dbId` its `_id` key.
   */
  datatype Site = Site(
    id: Option<string>,
    dbId: Option<string>,
    kind: Option<string>,
    name: Option<string>,
    place: Option<string>,
    contactNumber: Option<string>,
    status: Option<string>,
    totalIncome: Option<int>,
    totalExpense: Option<int>,
    startDate: Date,
    dueDate: Date)

  /** One key of `{ ...old, ...update }`: the update's value wins when the update has the key. */
  function Override<T>(current: Option<T>, update: Option<T>): Option<T> {
    if update.Some? then update else current
  }

  /** `{ ...site, ...update }`. */
  function Merge(site: Site, update: Site): Site {
    Site(
      Override(site.id, update.id),
      Override(site.dbId, update.dbId),
      Override(site.kind, update.kind),
      Override(site.name, update.name),
      Override(site.place, update.place),
      Override(site.contactNumber, update.contactNumber),
      Override(site.status, update.status),
      Override(site.totalIncome, update.totalIncome),
      Override(site.totalExpense, update.totalExpense),
      Override(site.startDate, update.startDate),
      Override(site.dueDate, update.dueDate))
  }

  /** `site.id === update.id || site._id === update._id`; two absent ids are equal (`undefined === undefined`). */
  predicate SameSite(site: Site, update: Site) {
    site.id == update.id || site.dbId == update.dbId
  }

  /** The list `updateSiteInList` stores. */
  function UpdateInList(sites: seq<Site>, update: Site): (r: seq<Site>)
    ensures |r| == |sites|
    ensures forall i :: 0 <= i < |sites| && SameSite(sites[i], update) ==> r[i] == Merge(sites[i], update)
    ensures forall i :: 0 <= i < |sites| && !SameSite(sites[i], update) ==> r[i] == sites[i]
  {
    if |sites| == 0 then []
    else
      [if SameSite(sites[0], update) then Merge(sites[0], update) else sites[0]]
      + UpdateInList(sites[1..], update)
  }

  /** Applying the same update twice stores the same list as applying it once. */
  lemma UpdateInListIdempotent(sites: seq<Site>, update: Site)
    ensures UpdateInList(UpdateInList(sites, update), update) == UpdateInList(sites, update)
  {
    var once := UpdateInList(sites, update);
    forall i | 0 <= i < |sites|
      ensures UpdateInList(once, update)[i] == once[i]
    {
      if SameSite(sites[i], update) {
        assert SameSite(once[i], update);
      }
    }
  }

  /** An update carrying neither `id` nor `_id` is merged into every site that lacks either of them. */
  lemma UpdateWithoutIdsHitsEverySiteWithoutId(sites: seq<Site>, update: Site, i: nat)
    requires update.id.None? && update.dbId.None?
    requires i < |sites| && (sites[i].id.None? || sites[i].dbId.None?)
    ensures UpdateInList(sites, update)[i] == Merge(sites[i], update)
  {
  }

  /** An update whose ids no stored site shares leaves the list as it is. */
  lemma UpdateOfUnknownSiteChangesNothing(sites: seq<Site>, update: Site)
    requires forall i :: 0 <= i < |sites| ==> sites[i].id != update.id && sites[i].dbId != update.dbId
    ensures UpdateInList(sites, update) == sites
  {
  }

  /** The test `removeSiteFromList` keeps a site by: neither of its ids is the one removed. */
  function KeptAfterRemoving(siteId: Option<string>): Site -> bool {
    (site: Site) => site.id != siteId && site.dbId != siteId
  }

  /**
   * The list `removeSiteFromList(siteId)` stores: the sites whose `id` and `_id` both differ
   * from `siteId`, in their original order and multiplicity.
   */
  function RemoveFromList(sites: seq<Site>, siteId: Option<string>): (r: seq<Site>)
    ensures SubseqOf(r, sites)
    ensures forall x :: multiset(r)[x] == if x.id != siteId && x.dbId != siteId then multiset(sites)[x] else 0
    ensures forall i :: 0 <= i < |r| ==> r[i].id != siteId && r[i].dbId != siteId
  {
    FilterSpec(sites, KeptAfterRemoving(siteId));
    Filter(sites, KeptAfterRemoving(siteId))
  }

  /** Removing an id no stored site carries leaves the list as it is. */
  lemma RemoveUnknownIdKeepsList(sites: seq<Site>, siteId: Option<string>)
    requires forall i :: 0 <= i < |sites| ==> sites[i].id != siteId && sites[i].dbId != siteId
    ensures RemoveFromList(sites, siteId) == sites
  {
    FilterKeepsAll(sites, KeptAfterRemoving(siteId));
  }

  /** `Math.max(0, count - 1)`: the count `removeSiteFromList` stores. */
  function DecrementedCount(count: int): (r: int)
    ensures r >= 0
    ensures count >= 1 ==> r == count - 1
    ensures count <= 1 ==> r == 0
  {
    if count - 1 > 0 then count - 1 else 0
  }

  /** The body of a `/getAllsites` response: its `data`, `sites` and `count` keys. */
  datatype SitesResponse = SitesResponse(data: Option<seq<Site>>, sites: Option<seq<Site>>, count: Option<int>)

  /** What `getAllSites` stores and returns on success. */
  datatype Loaded = Loaded(sites: seq<Site>, count: int)

  /**
   * `sitesData = data || sites || []` and `countData = count || sitesData.length || 0`.
   * An array is truthy even when empty, so a present `data` wins over `sites`; a count of 0
   * is falsy and falls back to the length.
   */
  function ParseResponse(response: SitesResponse): (l: Loaded)
    ensures response.data.Some? ==> l.sites == response.data.value
    ensures response.data.None? && response.sites.Some? ==> l.sites == response.sites.value
    ensures response.data.None? && response.sites.None? ==> l.sites == []
    ensures response.count.Some? && response.count.value != 0 ==> l.count == response.count.value
    ensures response.count.None? || response.count.value == 0 ==> l.count == |l.sites|
  {
    var sites := if response.data.Some? then response.data.value
                 else if response.sites.Some? then response.sites.value
                 else [];
    var count := if response.count.Some? && response.count.value != 0 then response.count.value else |sites|;
    Loaded(sites, count)
  }

  /** A response whose count is absent or non-negative yields a non-negative count. */
  lemma ParsedCountNonNegative(response: SitesResponse)
    requires response.count.None? || response.count.value >= 0
    ensures ParseResponse(response).count >= 0
  {
  }

  /** The state of one `useGetAllSites` hook. */
  class SiteList {
    var sites: seq<Site>
    var count: int
    var error: Option<string>

    constructor ()
      ensures sites == [] && count == 0 && error == None
    {
      sites, count, error := [], 0, None;
    }

    /** `reset`: an empty list, a zero count, no error. */
    method Reset()
      modifies this
      ensures sites == [] && count == 0 && error == None
    {
      sites, count, error := [], 0, None;
    }

    /** `addSiteToList`: the new site goes at the end and the count grows by one. */
    method AddSiteToList(newSite: Site)
      modifies this
      ensures sites == old(sites) + [newSite]
      ensures count == old(count) + 1
      ensures error == old(error)
    {
      sites := sites + [newSite];
      count := count + 1;
    }

    /**
     * `removeSiteFromList`: every site carrying `siteId` as `id` or `_id` goes; the count drops
     * by one, never below zero, however many sites went.
     */
    method RemoveSiteFromList(siteId: Option<string>)
      modifies this
      ensures sites == RemoveFromList(old(sites), siteId)
      ensures count == DecrementedCount(old(count))
      ensures error == old(error)
    {
      sites := RemoveFromList(sites, siteId);
      count := DecrementedCount(count);
    }

    /** `updateSiteInList`: matching sites take the update's keys; length, order and count stay. */
    method UpdateSiteInList(updatedSite: Site)
      modifies this
      ensures sites == UpdateInList(old(sites), updatedSite)
      ensures count == old(count) && error == old(error)
    {
      sites := UpdateInList(sites, updatedSite);
    }

    /** The success path of `getAllSites`: the error is cleared and the parsed list and count stored. */
    method LoadResponse(response: SitesResponse) returns (result: Loaded)
      modifies this
      ensures result == ParseResponse(response)
      ensures sites == result.sites && count == result.count && error == None
    {
      error := None;
      result := ParseResponse(response);
      sites := result.sites;
      count := result.count;
    }
  }

  /** `!id`: an absent or empty id. */
  predicate Missing(id: Option<string>) {
    id.None? || id.value == ""
  }

  datatype Verb = Put | Delete

  datatype Body = NoBody | SiteBody(site: Site) | StatusBody(status: string)

  datatype Request = Request(verb: Verb, path: string, body: Body)

  /** What a request hook does: refuse with the message it returns, or send one request. */
  datatype Dispatch = NotSent(message: string) | Sent(request: Request)

  /** `editSite(siteData)`: the id is taken out of the payload and put in the path. */
  function EditSite(siteData: Site): (d: Dispatch)
    ensures d.NotSent? <==> Missing(siteData.id)
    ensures d.NotSent? ==> d.message == "Failed to update site"
    ensures d.Sent? ==> d.request.verb == Put && d.request.path == "/editSite/" + siteData.id.value
    ensures d.Sent? ==> d.request.body == SiteBody(siteData.(id := None))
  {
    if Missing(siteData.id) then NotSent("Failed to update site")
    else Sent(Request(Put, "/editSite/" + siteData.id.value, SiteBody(siteData.(id := None))))
  }

  /** `updateSiteStatus(siteId, status)`. */
  function UpdateSiteStatus(siteId: Option<string>, status: string): (d: Dispatch)
    ensures d.NotSent? <==> Missing(siteId)
    ensures d.NotSent? ==> d.message == "Failed to update site status"
    ensures d.Sent? ==> d.request == Request(Put, "/site/status/" + siteId.value, StatusBody(status))
  {
    if Missing(siteId) then NotSent("Failed to update site status")
    else Sent(Request(Put, "/site/status/" + siteId.value, StatusBody(status)))
  }

  /** `deleteSite(siteId)`. */
  function DeleteSite(siteId: Option<string>): (d: Dispatch)
    ensures d.NotSent? <==> Missing(siteId)
    ensures d.NotSent? ==> d.message == "Failed to delete site"
    ensures d.Sent? ==> d.request == Request(Delete, "/deleteSite/" + siteId.value, NoBody)
  {
    if Missing(siteId) then NotSent("Failed to delete site")
    else Sent(Request(Delete, "/deleteSite/" + siteId.value, NoBody))
  }

  /** `deleteIncome(incomeId)`. */
  function DeleteIncome(incomeId: Option<string>): (d: Dispatch)
    ensures d.NotSent? <==> Missing(incomeId)
    ensures d.NotSent? ==> d.message == "Failed to delete income"
    ensures d.Sent? ==> d.request == Request(Delete, "/siteincome/delete/" + incomeId.value, NoBody)
  {
    if Missing(incomeId) then NotSent("Failed to delete income")
    else Sent(Request(Delete, "/siteincome/delete/" + incomeId.value, NoBody))
  }
}
