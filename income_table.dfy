/** The income table of a site: the search over an income's title and description. */
module IncomeTable {
  import opened Wrappers
  import opened Text
  import opened Lists

  /** An income record; `title` and `description` may be missing. */
  datatype Income = Income(id: string, title: Option<string>, description: Option<string>, amount: int, category: string)

  /** `value || ''`. */
  function OrBlank(value: Option<string>): string {
    value.GetOr("")
  }

  /** The text searched: title, one space, description, lower-cased. */
  function SearchString(income: Income): (r: string)
    ensures r == Lower(OrBlank(income.title)) + " " + Lower(OrBlank(income.description))
  {
    LowerConcat(OrBlank(income.title) + " ", OrBlank(income.description));
    LowerConcat(OrBlank(income.title), " ");
    Lower(OrBlank(income.title) + " " + OrBlank(income.description))
  }

  predicate Matches(searchTerm: string, income: Income) {
    Contains(SearchString(income), Lower(searchTerm))
  }

  function MatchTest(searchTerm: string): Income -> bool {
    (income: Income) => Matches(searchTerm, income)
  }

  /** `filteredIncomes`: `incomes?.filter(...) || []`, so no list at all shows nothing. */
  function FilteredIncomes(incomes: Option<seq<Income>>, searchTerm: string): (r: seq<Income>)
    ensures incomes.None? ==> r == []
    ensures incomes.Some? ==> SubseqOf(r, incomes.value)
    ensures incomes.Some? ==>
      forall x :: multiset(r)[x] == if Matches(searchTerm, x) then multiset(incomes.value)[x] else 0
  {
    match incomes
    case None => []
    case Some(list) =>
      FilterSpec(list, MatchTest(searchTerm));
      Filter(list, MatchTest(searchTerm))
  }

  /** The empty search shows every income. */
  lemma EmptySearchShowsAll(incomes: seq<Income>)
    ensures FilteredIncomes(Some(incomes), "") == incomes
  {
    forall i | 0 <= i < |incomes|
      ensures Matches("", incomes[i])
    {
      ContainsEmpty(SearchString(incomes[i]));
    }
    FilterKeepsAll(incomes, MatchTest(""));
  }

  /** A term found in the title, ignoring ASCII case, keeps the income. */
  lemma TitleHitIsShown(income: Income, searchTerm: string)
    requires Contains(Lower(OrBlank(income.title)), Lower(searchTerm))
    ensures Matches(searchTerm, income)
  {
    var t, d := Lower(OrBlank(income.title)), Lower(OrBlank(income.description));
    ContainsInLeft(t, " ", Lower(searchTerm));
    ContainsInLeft(t + " ", d, Lower(searchTerm));
  }

  /** A term found in the description, ignoring ASCII case, keeps the income. */
  lemma DescriptionHitIsShown(income: Income, searchTerm: string)
    requires Contains(Lower(OrBlank(income.description)), Lower(searchTerm))
    ensures Matches(searchTerm, income)
  {
    var t, d := Lower(OrBlank(income.title)), Lower(OrBlank(income.description));
    ContainsInRight(t + " ", d, Lower(searchTerm));
  }

  /** A missing title or description searches as the empty string. */
  lemma MissingFieldsSearchAsBlank(income: Income)
    requires income.title.None? && income.description.None?
    ensures SearchString(income) == " "
  {
  }

  /** A single space matches every income, because of the space that joins title and description. */
  lemma SpaceMatchesEveryIncome(incomes: seq<Income>)
    ensures FilteredIncomes(Some(incomes), " ") == incomes
  {
    forall i | 0 <= i < |incomes|
      ensures Matches(" ", incomes[i])
    {
      var t := Lower(OrBlank(incomes[i].title));
      var s := SearchString(incomes[i]);
      assert Lower(" ") == " ";
      assert OccursAt(s, " ", |t|);
      ContainsIffOccurs(s, " ");
    }
    FilterKeepsAll(incomes, MatchTest(" "));
  }
}
