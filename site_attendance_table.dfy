/** The attendance tab of a site: the search over staff name and remarks, and the form state it keeps. */
module SiteAttendanceTable {
  import opened Wrappers
  import opened Text
  import opened Lists
  import SiteAttendanceForm

  /** The populated `staff` reference of a record; its name may be missing. */
  datatype StaffRef = StaffRef(name: Option<string>)

  /** An attendance record as the server lists it; `dbId` is its `_id`. */
  datatype AttendanceRecord = AttendanceRecord(dbId: Option<string>, staff: Option<StaffRef>, remarks: Option<string>, status: string, date: string)

  /** `entry.staff?.name || ''`. */
  function StaffName(entry: AttendanceRecord): string {
    if entry.staff.Some? then entry.staff.value.name.GetOr("") else ""
  }

  /** The text searched: staff name, one space, remarks, lower-cased. */
  function SearchString(entry: AttendanceRecord): (r: string)
    ensures r == Lower(StaffName(entry)) + " " + Lower(entry.remarks.GetOr(""))
  {
    LowerConcat(StaffName(entry) + " ", entry.remarks.GetOr(""));
    LowerConcat(StaffName(entry), " ");
    Lower(StaffName(entry) + " " + entry.remarks.GetOr(""))
  }

  predicate Matches(searchTerm: string, entry: AttendanceRecord) {
    Contains(SearchString(entry), Lower(searchTerm))
  }

  function MatchTest(searchTerm: string): AttendanceRecord -> bool {
    (entry: AttendanceRecord) => Matches(searchTerm, entry)
  }

  /** `filteredData`: the records whose search string contains the term, in their order. */
  function FilteredData(attendances: seq<AttendanceRecord>, searchTerm: string): (r: seq<AttendanceRecord>)
    ensures SubseqOf(r, attendances)
    ensures forall x :: multiset(r)[x] == if Matches(searchTerm, x) then multiset(attendances)[x] else 0
  {
    FilterSpec(attendances, MatchTest(searchTerm));
    Filter(attendances, MatchTest(searchTerm))
  }

  /** The empty term keeps every record. */
  lemma EmptyTermKeepsAll(attendances: seq<AttendanceRecord>)
    ensures FilteredData(attendances, "") == attendances
  {
    forall i | 0 <= i < |attendances|
      ensures Matches("", attendances[i])
    {
      ContainsEmpty(SearchString(attendances[i]));
    }
    FilterKeepsAll(attendances, MatchTest(""));
  }

  /** A record without staff name or remarks searches as a single space. */
  lemma MissingFieldsSearchAsBlank(entry: AttendanceRecord)
    requires entry.staff.None? || entry.staff.value.name.None?
    requires entry.remarks.None?
    ensures SearchString(entry) == " "
  {
  }

  /** A term found in the staff name, ignoring ASCII case, keeps the record. */
  lemma StaffNameHitIsShown(entry: AttendanceRecord, searchTerm: string)
    requires Contains(Lower(StaffName(entry)), Lower(searchTerm))
    ensures Matches(searchTerm, entry)
  {
    var n, m := Lower(StaffName(entry)), Lower(entry.remarks.GetOr(""));
    ContainsInLeft(n, " ", Lower(searchTerm));
    ContainsInLeft(n + " ", m, Lower(searchTerm));
  }

  /** A term found in the remarks, ignoring ASCII case, keeps the record. */
  lemma RemarksHitIsShown(entry: AttendanceRecord, searchTerm: string)
    requires Contains(Lower(entry.remarks.GetOr("")), Lower(searchTerm))
    ensures Matches(searchTerm, entry)
  {
    var n, m := Lower(StaffName(entry)), Lower(entry.remarks.GetOr(""));
    ContainsInRight(n + " ", m, Lower(searchTerm));
  }

  /** The save call `handleFormSubmit` makes: an update of the record being edited, or an add to the site. */
  datatype SaveRequest =
    | UpdateAttendance(attendanceId: Option<string>, formData: SiteAttendanceForm.Submission)
    | AddAttendance(siteId: string, formData: SiteAttendanceForm.Submission)

  /** Update when a record is being edited (under its `_id`), add otherwise. */
  function SaveTarget(editing: Option<AttendanceRecord>, siteId: string, formData: SiteAttendanceForm.Submission): (request: SaveRequest)
    ensures request.UpdateAttendance? <==> editing.Some?
    ensures request.UpdateAttendance? ==> request.attendanceId == editing.value.dbId
    ensures request.AddAttendance? ==> request.siteId == siteId
    ensures request.formData == formData
  {
    if editing.Some? then UpdateAttendance(editing.value.dbId, formData) else AddAttendance(siteId, formData)
  }

  /** The tab's state: whether the form is open, the record being edited, the search term and the listed records. */
  class AttendanceTable {
    var showForm: bool
    var editingAttendance: Option<AttendanceRecord>
    var searchTerm: string
    var attendances: seq<AttendanceRecord>

    /** The tab opens with the form closed, nothing being edited and an empty search. */
    constructor ()
      ensures !showForm && editingAttendance.None? && searchTerm == "" && attendances == []
    {
      showForm := false;
      editingAttendance := None;
      searchTerm := "";
      attendances := [];
    }

    /** The records handed to the list; the term is never changed after the tab opens, and then every record is shown. */
    function Shown(): (r: seq<AttendanceRecord>)
      reads this
      ensures SubseqOf(r, attendances)
      ensures searchTerm == "" ==> r == attendances
    {
      if searchTerm == "" then EmptyTermKeepsAll(attendances); FilteredData(attendances, searchTerm)
      else FilteredData(attendances, searchTerm)
    }

    /** `handleEdit`: the record becomes the one being edited and the form opens. */
    method HandleEdit(attendance: AttendanceRecord)
      modifies this
      ensures editingAttendance == Some(attendance) && showForm
      ensures searchTerm == old(searchTerm) && attendances == old(attendances)
    {
      editingAttendance := Some(attendance);
      showForm := true;
    }

    /** `resetForm`: nothing is being edited and the form closes. */
    method ResetForm()
      modifies this
      ensures editingAttendance.None? && !showForm
      ensures searchTerm == old(searchTerm) && attendances == old(attendances)
    {
      editingAttendance := None;
      showForm := false;
    }

    /** The "Mark" button: the form opens; a record being edited stays so. */
    method OpenForm()
      modifies this
      ensures showForm && editingAttendance == old(editingAttendance)
      ensures searchTerm == old(searchTerm) && attendances == old(attendances)
    {
      showForm := true;
    }

    /**
     * `handleFormSubmit`: sends the request `SaveTarget` chooses; `success` is the server's
     * answer. On success the form is reset and the records are replaced by the `reloaded`
     * list; on failure the state stays as it was.
     */
    method HandleFormSubmit(siteId: string, formData: SiteAttendanceForm.Submission, success: bool, reloaded: seq<AttendanceRecord>)
      returns (request: SaveRequest)
      modifies this
      ensures request == SaveTarget(old(editingAttendance), siteId, formData)
      ensures success ==> editingAttendance.None? && !showForm && attendances == reloaded
      ensures !success ==> editingAttendance == old(editingAttendance) && showForm == old(showForm) && attendances == old(attendances)
      ensures searchTerm == old(searchTerm)
    {
      request := SaveTarget(editingAttendance, siteId, formData);
      if success {
        ResetForm();
        attendances := reloaded;
      }
    }
  }
}
