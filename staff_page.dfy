/** The staff list page: its department and search filter, the departments list and the header count. */
module StaffPage {
  import opened Wrappers
  import opened Text
  import opened Lists

  /** A staff member as the list shows it; every field is a string (the filter calls string methods on all four). */
  datatype StaffMember = StaffMember(id: string, name: string, role: string, email: string, phone: string)

  /** The page's `filterCriteria` state. */
  datatype FilterCriteria = FilterCriteria(department: string, search: string)

  /** `handleFilterChange`: a new department, the search kept. */
  function HandleFilterChange(criteria: FilterCriteria, department: string): (r: FilterCriteria)
    ensures r.department == department && r.search == criteria.search
  {
    criteria.(department := department)
  }

  /** `handleSearch`: a new search term, the department kept. */
  function HandleSearch(criteria: FilterCriteria, searchTerm: string): (r: FilterCriteria)
    ensures r.search == searchTerm && r.department == criteria.department
  {
    criteria.(search := searchTerm)
  }

  /** The search: lower-cased name, role or email contains the lower-cased term, or the phone contains it. */
  predicate SearchHits(search: string, member: StaffMember) {
    var searchTerm := Lower(search);
    || Contains(Lower(member.name), searchTerm)
    || Contains(Lower(member.role), searchTerm)
    || Contains(Lower(member.email), searchTerm)
    || Contains(member.phone, searchTerm)
  }

  function DepartmentTest(department: string): StaffMember -> bool {
    (member: StaffMember) => member.role == department
  }

  function SearchTest(search: string): StaffMember -> bool {
    (member: StaffMember) => SearchHits(search, member)
  }

  /** Whether the filter keeps a member: an empty department or search restricts nothing. */
  predicate Kept(criteria: FilterCriteria, member: StaffMember) {
    && (criteria.department == "" || member.role == criteria.department)
    && (criteria.search == "" || SearchHits(criteria.search, member))
  }

  /** The list `filteredStaff` is set to: `staff || []`, then the department stage, then the search stage. */
  function FilterStaff(staff: Option<seq<StaffMember>>, criteria: FilterCriteria): (r: seq<StaffMember>)
    ensures SubseqOf(r, staff.GetOr([]))
    ensures forall x :: multiset(r)[x] == if Kept(criteria, x) then multiset(staff.GetOr([]))[x] else 0
  {
    var filtered := staff.GetOr([]);
    var byDepartment := FilterWhen(criteria.department != "", filtered, DepartmentTest(criteria.department));
    var bySearch := FilterWhen(criteria.search != "", byDepartment, SearchTest(criteria.search));
    SubseqTrans(bySearch, byDepartment, filtered);
    bySearch
  }

  /** No department and no search leave the list as it is. */
  lemma NoCriteriaKeepsList(staff: seq<StaffMember>)
    ensures FilterStaff(Some(staff), FilterCriteria("", "")) == staff
  {
  }

  /** With a department chosen, every member shown has exactly that role. */
  lemma DepartmentIsExactRole(staff: seq<StaffMember>, criteria: FilterCriteria)
    requires criteria.department != ""
    ensures forall x :: x in FilterStaff(Some(staff), criteria) ==> x.role == criteria.department
  {
    var r := FilterStaff(Some(staff), criteria);
    forall x | x in r
      ensures x.role == criteria.department
    {
      assert multiset(r)[x] > 0;
    }
  }

  /** Clearing the department after choosing one gives back the search-only list. */
  lemma ClearingDepartmentRestoresSearchOnly(staff: seq<StaffMember>, criteria: FilterCriteria, department: string)
    ensures FilterStaff(Some(staff), HandleFilterChange(HandleFilterChange(criteria, department), ""))
         == FilterStaff(Some(staff), FilterCriteria("", criteria.search))
  {
  }

  /** The header's "n of m staff members": the filtered count never exceeds the total. */
  lemma FilteredCountAtMostTotal(staff: seq<StaffMember>, criteria: FilterCriteria)
    ensures |FilterStaff(Some(staff), criteria)| <= |staff|
  {
    SubseqLength(FilterStaff(Some(staff), criteria), staff);
  }

  function Roles(staff: seq<StaffMember>): (roles: seq<string>)
    ensures |roles| == |staff|
    ensures forall i :: 0 <= i < |staff| ==> roles[i] == staff[i].role
  {
    seq(|staff|, i requires 0 <= i < |staff| => staff[i].role)
  }

  /** `[...new Set(staff.map((member: StaffMember) => member.role))]`: every role once, and nothing else. */
  function Departments(staff: seq<StaffMember>): (departments: seq<string>)
    ensures NoDuplicates(departments)
    ensures forall i :: 0 <= i < |staff| ==> staff[i].role in departments
    ensures forall d :: d in departments ==> exists i :: 0 <= i < |staff| && staff[i].role == d
  {
    var roles := Roles(staff);
    var departments := Distinct(roles);
    assert forall d :: d in departments ==> d in roles;
    departments
  }
}
