/**
 * The attendance-marking form of a site: one entry object per selected staff member, edited
 * in place by index, and the guard in front of saving.
 */
module SiteAttendanceForm {
  import opened Wrappers

  /** The two statuses the per-entry select offers. */
  const StatusOptions: seq<string> := ["Present", "Absent"]

  /** A snapshot of one entry, as handed to `onSave`. */
  datatype EntryValue = EntryValue(staffId: string, status: string, remarks: string)

  /** What `onSave` receives: the date and the entries. */
  datatype Submission = Submission(date: string, attendances: seq<EntryValue>)

  /** The outcome of submitting: refused with the notice shown, or saved. */
  datatype SubmitOutcome = Refused(message: string) | Saved(submission: Submission)

  const SelectNotice := "Select date and at least one staff member"

  /** One `{ staffId, status, remarks }` object; its fields are written in place. */
  class Entry {
    var staffId: string
    var status: string
    var remarks: string

    constructor (staffId: string, status: string, remarks: string)
      ensures this.staffId == staffId && this.status == status && this.remarks == remarks
    {
      this.staffId := staffId;
      this.status := status;
      this.remarks := remarks;
    }
  }

  /** The form's `formData` state: the date and the sequence of entry objects. */
  class AttendanceForm {
    var date: string
    var attendances: seq<Entry>

    /** No entry object appears twice. */
    predicate Valid()
      reads this
    {
      forall i, j :: 0 <= i < j < |attendances| ==> attendances[i] != attendances[j]
    }

    /** The entries' current field values. */
    function Values(): (values: seq<EntryValue>)
      reads this, attendances
      ensures |values| == |attendances|
      ensures forall i :: 0 <= i < |attendances| ==>
        values[i] == EntryValue(attendances[i].staffId, attendances[i].status, attendances[i].remarks)
    {
      seq(|attendances|, i reads this, attendances requires 0 <= i < |attendances| =>
        EntryValue(attendances[i].staffId, attendances[i].status, attendances[i].remarks))
    }

    /** Every entry carries one of the selectable statuses. */
    predicate StatusesSelectable()
      reads this, attendances
    {
      forall i :: 0 <= i < |attendances| ==> attendances[i].status in StatusOptions
    }

    /** The form opens with no entries and the date set to today, which the caller supplies. */
    constructor (today: string)
      ensures Valid() && date == today && attendances == []
    {
      date := today;
      attendances := [];
    }

    /** The date input's `onChange`. */
    method HandleDateChange(value: string)
      modifies this
      ensures date == value && attendances == old(attendances)
    {
      date := value;
    }

    /**
     * `handleStaffChange`: the entries become one fresh entry per selected id, in selection
     * order, each present with empty remarks; the date is kept.
     */
    method HandleStaffChange(selectedIds: seq<string>)
      modifies this
      ensures Valid() && StatusesSelectable()
      ensures date == old(date)
      ensures |attendances| == |selectedIds|
      ensures forall i :: 0 <= i < |selectedIds| ==> fresh(attendances[i])
      ensures Values() == seq(|selectedIds|, i requires 0 <= i < |selectedIds| => EntryValue(selectedIds[i], "Present", ""))
    {
      var selected: seq<Entry> := [];
      var k := 0;
      while k < |selectedIds|
        invariant 0 <= k <= |selectedIds| && |selected| == k
        invariant date == old(date)
        invariant forall i :: 0 <= i < k ==> fresh(selected[i])
        invariant forall i, j :: 0 <= i < j < k ==> selected[i] != selected[j]
        invariant forall i :: 0 <= i < k ==>
          selected[i].staffId == selectedIds[i] && selected[i].status == "Present" && selected[i].remarks == ""
      {
        var entry := new Entry(selectedIds[k], "Present", "");
        selected := selected + [entry];
        k := k + 1;
      }
      attendances := selected;
    }

    /**
     * `handleStatusChange`: the entry at `index` gets `status` in place; the same entry objects
     * stay in the form and every other entry keeps its values. An index with no entry makes the
     * source throw before any state is written: `ok` is false and nothing changes.
     */
    method HandleStatusChange(index: int, status: string) returns (ok: bool)
      requires Valid()
      modifies this, if 0 <= index < |attendances| then {attendances[index]} else {}
      ensures ok <==> 0 <= index < |attendances|
      ensures Valid() && attendances == old(attendances) && date == old(date)
      ensures ok ==> Values() == old(Values())[index := old(Values())[index].(status := status)]
      ensures !ok ==> Values() == old(Values())
      ensures old(StatusesSelectable()) && status in StatusOptions ==> StatusesSelectable()
    {
      if !(0 <= index < |attendances|) {
        return false;
      }
      var updated := attendances;
      updated[index].status := status;
      attendances := updated;
      ok := true;
    }

    /** `handleRemarksChange`: as `HandleStatusChange`, for the remarks. */
    method HandleRemarksChange(index: int, remarks: string) returns (ok: bool)
      requires Valid()
      modifies this, if 0 <= index < |attendances| then {attendances[index]} else {}
      ensures ok <==> 0 <= index < |attendances|
      ensures Valid() && attendances == old(attendances) && date == old(date)
      ensures ok ==> Values() == old(Values())[index := old(Values())[index].(remarks := remarks)]
      ensures !ok ==> Values() == old(Values())
      ensures old(StatusesSelectable()) ==> StatusesSelectable()
    {
      if !(0 <= index < |attendances|) {
        return false;
      }
      var updated := attendances;
      updated[index].remarks := remarks;
      attendances := updated;
      ok := true;
    }

    /** `handleSubmit`: refused when the date is empty or no staff is selected; otherwise saves exactly the date and entries. */
    method HandleSubmit() returns (outcome: SubmitOutcome)
      ensures outcome.Refused? <==> date == "" || |attendances| == 0
      ensures outcome.Refused? ==> outcome.message == SelectNotice
      ensures outcome.Saved? ==> outcome.submission == Submission(date, Values())
    {
      if date == "" || |attendances| == 0 {
        return Refused(SelectNotice);
      }
      return Saved(Submission(date, Values()));
    }
  }
}
