/**
 * The general (dashboard) copy of the site page. Its filter has no client-side status stage
 * and searches with the stored term as it is; its counters are separate getters. Its
 * `calculateBalance`, `handleSearch` and `handleSubmitSite` are the same code as the site
 * page's and are used from there.
 */
module GeneralPage {
  import opened Wrappers
  import opened Text
  import opened Lists
  import opened SiteStore
  import opened SitesPage

  /**
   * `site.name?.toLowerCase().includes(term) || site.place?.toLowerCase().includes(term) ||
   * site.contactNumber?.includes(term)`: the term is neither lower-cased nor trimmed here.
   */
  predicate SearchHits(searchTerm: string, site: Site) {
    || (site.name.Some? && Contains(Lower(site.name.value), searchTerm))
    || (site.place.Some? && Contains(Lower(site.place.value), searchTerm))
    || (site.contactNumber.Some? && Contains(site.contactNumber.value, searchTerm))
  }

  function SearchHitTest(searchTerm: string): Site -> bool {
    site => SearchHits(searchTerm, site)
  }

  /** `filteredSites`: the Site records the search hits, in their original order. */
  function FilteredSites(sites: seq<Site>, searchTerm: string): (r: seq<Site>)
    ensures SubseqOf(r, sites)
    ensures forall x :: multiset(r)[x] == if IsSiteRecord(x) && SearchHits(searchTerm, x) then multiset(sites)[x] else 0
  {
    var sitesOnly := SitesOnly(sites);
    FilterSpec(sitesOnly, SearchHitTest(searchTerm));
    SubseqTrans(Filter(sitesOnly, SearchHitTest(searchTerm)), sitesOnly, sites);
    Filter(sitesOnly, SearchHitTest(searchTerm))
  }

  /**
   * With an empty term a Site record is shown exactly when it has a name, a place or a
   * contact number: an absent field yields `undefined`, which is falsy.
   */
  lemma EmptyTermNeedsSomeField(sites: seq<Site>)
    ensures forall x :: multiset(FilteredSites(sites, ""))[x]
                     == if IsSiteRecord(x) && (x.name.Some? || x.place.Some? || x.contactNumber.Some?)
                        then multiset(sites)[x] else 0
  {
    forall x: Site
      ensures SearchHits("", x) <==> (x.name.Some? || x.place.Some? || x.contactNumber.Some?)
    {
    }
  }

  /** The record of a site named `abc` and nothing else. */
  function SiteNamedAbc(): Site {
    Site(None, None, Some("Site"), Some("abc"), None, None, None, None, None, None, None)
  }

  /** The term is not trimmed: a leading space hides the site `abc`. */
  lemma UntrimmedTermHidesSite()
    ensures FilteredSites([SiteNamedAbc()], " abc") == []
  {
    var site := SiteNamedAbc();
    assert Lower("abc") == "abc";
    assert !Contains("abc", " abc") by {
      assert !(" abc" <= "abc");
      assert !Contains("bc", " abc");
    }
    var r := FilteredSites([site], " abc");
    assert multiset(r)[site] == 0;
    assert forall x :: x != site ==> multiset([site])[x] == 0;
    assert multiset(r) == multiset{};
  }

  lemma TrimLeadingSpace()
    ensures Trim(" abc") == "abc"
  {
    assert IsSpace(' ') && !IsSpace('a') && !IsSpace('c');
    assert TrimStart("abc") == "abc";
    assert TrimStart(" abc") == "abc" by {
      assert " abc"[1..] == "abc";
    }
    assert TrimEnd("abc") == "abc";
  }

  /** The trimmed, lower-cased term `abc` occurs in the site's name. */
  lemma SpacedTermFindsAbc()
    ensures SitesPage.SearchMatches(" abc", SiteNamedAbc())
  {
    LowerLeavesAbc();
    TrimLeadingSpace();
    assert Contains("abc", "abc") by {
      assert "abc" <= "abc";
    }
  }

  lemma LowerLeavesAbc()
    ensures Lower(" abc") == " abc" && Lower("abc") == "abc"
  {
    assert !IsUpper(' ') && !IsUpper('a') && !IsUpper('b') && !IsUpper('c');
  }

  /** On the sites page the term `" abc"` is not blank and finds the site `abc`. */
  lemma AbcShownOnSitesPage()
    ensures Shown("all", " abc", SiteNamedAbc())
  {
    SpacedTermFindsAbc();
    SpacedAbcIsNotBlank();
  }

  lemma SpacedAbcIsNotBlank()
    ensures !Blank(" abc")
  {
    assert " abc"[1] == 'a' && !IsSpace('a');
  }

  /** The site page trims the same term and shows the site: the two copies disagree on `" abc"`. */
  lemma SitePageTrimsTerm()
    ensures SitesPage.FilteredSites([SiteNamedAbc()], "all", " abc") == [SiteNamedAbc()]
  {
    var site := SiteNamedAbc();
    AbcShownOnSitesPage();
    var r := SitesPage.FilteredSites([site], "all", " abc");
    assert multiset(r)[site] == 1;
    SubseqLength(r, [site]);
    assert site in r;
  }

  /** `getSiteCount`. */
  function GetSiteCount(sites: seq<Site>): (n: nat)
    ensures n == Count(sites, IsSiteRecord)
  {
    |SitesOnly(sites)|
  }

  /** `getActiveCount`: Site records whose lower-cased status is `active` or `on going`. */
  function GetActiveCount(sites: seq<Site>): (n: nat)
    ensures n == Count(sites, IsActiveSite)
  {
    FilterFilter(sites, IsSiteRecord, IsActive);
    FilterAgree(sites, Both(IsSiteRecord, IsActive), IsActiveSite);
    FilterLength(sites, IsActiveSite);
    |Filter(Filter(sites, IsSiteRecord), IsActive)|
  }

  /** `getPendingCount`: Site records whose lower-cased status is `pending`. */
  function GetPendingCount(sites: seq<Site>): (n: nat)
    ensures n == Count(sites, IsPendingSite)
  {
    FilterFilter(sites, IsSiteRecord, IsPending);
    FilterAgree(sites, Both(IsSiteRecord, IsPending), IsPendingSite);
    FilterLength(sites, IsPendingSite);
    |Filter(Filter(sites, IsSiteRecord), IsPending)|
  }

  /** `getTotalBalance`: the balances of the Site records, summed from 0. */
  function GetTotalBalance(sites: seq<Site>): (b: int)
    ensures b == SiteBalanceTotal(sites)
  {
    ReduceIsSum(0, SitesOnly(sites));
    SumOfSitesOnly(sites);
    ReduceBalance(0, SitesOnly(sites))
  }

  /** The dashboard's getters agree with the site page's statistics, so active + pending <= total here too. */
  lemma GettersAgreeWithStatistics(sites: seq<Site>)
    ensures ComputeStatistics(sites)
         == Statistics(GetSiteCount(sites), GetActiveCount(sites), GetPendingCount(sites), GetTotalBalance(sites))
    ensures GetActiveCount(sites) + GetPendingCount(sites) <= GetSiteCount(sites)
  {
  }
}
