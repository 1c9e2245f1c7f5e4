# Site and staff admin console: list filters, list store and form rules

This project models the client-side rules of a React admin console for construction sites and their staff. The model covers:

- the site list pages (`Sites.jsx` and its older copy `Genaral.jsx`): they keep only records of type `Site`, filter by status (where `active` also takes `on going`) and by a case-insensitive search, and compute the dashboard figures (total, active and pending counts, and the balance, which is income minus expense);
- the in-memory site store of `useGetAllSites` (`Sitehooks.jsx`), the way it reads a fetch response, and the missing-id guards in front of the edit, status, delete-site and delete-income requests;
- the add-wage-increment form: the increment amount, the field validation and the payload it sends;
- the staff list filter, the departments list, the inclusive date-range filters of the leaves and advance-payment tabs, the income search and the attendance search;
- the attendance tab's form state, and the attendance-marking form. That form keeps one entry object per selected staff member and edits each entry in place;
- the status-label lookup and the handlers of the sites filter bar.

There is one module per source file, plus four helper modules:

- `Wrappers` is `Option`. `None` stands for a missing key, `undefined`, or a value of NaN.
- `Text` holds ASCII lower-casing, JavaScript `trim` and the `includes` substring test.
- `Lists` holds `filter`, subsequences, counts and distinct elements. Every filter in the model is stated two ways: the result is a subsequence of the input in its order, and each element occurs in the result exactly as often as in the input when it passes the test, and not at all otherwise. These two facts together pin the result down.
- `Dates` treats a date as a day number, or `None` when it does not parse. Every comparison with `None` is false, as every comparison with an invalid `Date` is in JavaScript.

State that the source keeps in React state becomes a class:

- `SiteStore.SiteList` for the site store;
- `SiteAttendanceTable.AttendanceTable`, `SiteAttendanceForm.AttendanceForm` and `SiteFilter.SiteFilterState` for the components;
- `WageIncrementForm.WageIncrementForm` for the wage form.

Each method states the whole new state. The pure `filter`/`reduce` chains become functions with lemmas about them.

Some source names change in the model:

- A site's `type` field is `kind` and its `_id` is `dbId`, because `type` is a Dafny keyword and identifiers cannot start with `_`.
- An attendance record's `_id` is `dbId`.
- A status option's `label` is `labelText`, because `label` is a keyword.

`Genaral.jsx` repeats `calculateBalance` and `handleSearch` from `Sites.jsx` line for line, and repeats the date check and the add and edit payloads of `handleSubmitSite`. The two pages differ after a successful submission: `Sites.jsx` reloads with `loadSites(statusFilter)`, while `Genaral.jsx` calls `refreshSites`, which first empties the store with `resetSites` (Genaral.jsx:120-123, 192). The model has one definition of each shared operation, in `SitesPage`, whose rows cite `Sites.jsx` and name the matching `Genaral.jsx` lines in the states column.

Neither table ever changes its search term: `IncomeTable.jsx` (lines 19-20) and `Siteattendancetable.jsx` (line 18) declare `searchTerm` with `useState('')`, but nothing calls `setSearchTerm`. Both tables therefore always show every record. Their filters are still modelled with the term as a parameter.

What the model establishes:

- The server's answers and the current date are parameters of the methods that depend on them. The date is the `today` argument of the form constructors; the answers are `success`, `reloaded` and `hookMessage`.
- Requests are not sent. They are returned as values: `SiteStore.Dispatch` and `SiteAttendanceTable.SaveRequest` say what would be sent, or why nothing is.

## Model

| member | source | states |
|---|---|---|
| SitesPage.CalculateBalance | src/pages/admin/Sites.jsx:87-89 | income minus expense when both are present; a missing total counts as 0 (the general page repeats this at `Genaral.jsx` lines 106-108) |
| SitesPage.MissingTotalsCountAsZero | src/pages/admin/Sites.jsx:87-89 | a missing income or expense counts as 0, and a site with neither has balance 0 (the general page repeats this at `Genaral.jsx` lines 106-108) |
| SitesPage.StatusColor | src/pages/admin/Sites.jsx:44-52 | gray exactly for a missing or unknown status; active and on going are green; completed, pending and cancelled are blue, yellow and red, whatever the case |
| SitesPage.ActiveSitesAreGreen | src/pages/admin/Sites.jsx:44-52 | every site the active filter selects is shown green |
| SitesPage.SitesOnly | src/pages/admin/Sites.jsx:134 | the type-Site records, in order, with their multiplicities; all of type Site; as many as the count of Site records |
| SitesPage.FilteredSites | src/pages/admin/Sites.jsx:133-172 | a subsequence of the sites; a site is kept, with its multiplicity, exactly when it is of type Site, passes the status stage (unless the filter is `all`) and passes the search stage (unless the term is blank) |
| SitesPage.ShownElements | src/pages/admin/Sites.jsx:133-172 | every site shown comes from the list and satisfies the filter conditions |
| SitesPage.NoFilterShowsEverySite | src/pages/admin/Sites.jsx:137-159 | status `all` with a blank term shows exactly the Site records |
| SitesPage.ActiveFilterTakesOnGoing | src/pages/admin/Sites.jsx:143-145 | a filter that lower-cases to `active` shows only sites whose lower-cased status is `active` or `on going` |
| SitesPage.OtherStatusFilterIsExact | src/pages/admin/Sites.jsx:137-148 | any other filter but `all` shows only sites whose lower-cased status equals the lower-cased filter |
| SitesPage.BlankSearchRestrictsNothing | src/pages/admin/Sites.jsx:152-159 | a whitespace-only term filters exactly like the empty term |
| SitesPage.ReduceIsSum | src/pages/admin/Sites.jsx:184 | the running `reduce` from a start value equals that value plus the sum of the balances |
| SitesPage.SumOfSitesOnly | src/pages/admin/Sites.jsx:184 | the sum of balances over the filtered Site records equals the reference total over Site records |
| SitesPage.ComputeStatistics | src/pages/admin/Sites.jsx:175-192 | the total count is the number of Site records and at most the list length; active and pending are the counts of active and pending Site records, their sum at most the total; the balance is the sum over Site records only |
| SitesPage.HandleSearch | src/pages/admin/Sites.jsx:119-121 | the stored term is the input lower-cased: each upper-case ASCII letter becomes its lower-case letter and every other character is kept, at the same position (also the general page's handler, lines 115-117) |
| SitesPage.HandleSubmitSite | src/pages/admin/Sites.jsx:238-263 | rejected, with the due-date message, exactly when both dates parse and due is not after start; an add sends the form with both totals 0; an edit sends the form under the current site's id, or its `_id` when the id is missing (the general page repeats this at lines 163-188) |
| SitesPage.AddedSiteHasZeroBalance | src/pages/admin/Sites.jsx:251-255 | an added site's balance is 0 |
| SitesPage.InvalidDatesPassDateCheck | src/pages/admin/Sites.jsx:241-247 | a start or due date that does not parse never triggers the rejection, since comparisons with an invalid date are false |
| SitesPage.EditIsSentUnderCurrentId | src/pages/admin/Sites.jsx:258-262 | an edit of a site with an id reaches the server at `/editSite/` plus that id |
| SitesPage.EditWithoutIdIsNotSent | src/pages/admin/Sites.jsx:258-262 | an edit with no current site, or one that lacks both ids, is refused by the store's guard with "Failed to update site" |
| GeneralPage.FilteredSites | src/pages/admin/Genaral.jsx:204-210 | a subsequence of the sites; a site is kept, with its multiplicity, exactly when it is of type Site and the term (not trimmed) occurs in its lower-cased name or place or in its contact number |
| GeneralPage.EmptyTermNeedsSomeField | src/pages/admin/Genaral.jsx:206-210 | with the empty term, a Site record is kept exactly when it has a name, a place or a contact number |
| GeneralPage.UntrimmedTermHidesSite | src/pages/admin/Genaral.jsx:206-210 | the term " abc" hides a site named "abc" on the general page |
| GeneralPage.SitePageTrimsTerm | src/pages/admin/Sites.jsx:152-158 | the same term shows that site on the sites page, which trims the term |
| GeneralPage.GetSiteCount | src/pages/admin/Genaral.jsx:223-225 | the number of Site records |
| GeneralPage.GetActiveCount | src/pages/admin/Genaral.jsx:213-220 | the number of Site records whose lower-cased status is active or on going |
| GeneralPage.GetPendingCount | src/pages/admin/Genaral.jsx:228-232 | the number of pending Site records |
| GeneralPage.GetTotalBalance | src/pages/admin/Genaral.jsx:235-239 | the sum of balances over Site records |
| GeneralPage.GettersAgreeWithStatistics | src/pages/admin/Genaral.jsx:212-239 | the four getters equal the sites page's statistics, and active plus pending is at most the total |
| SiteStore.UpdateInList | src/hooks/site/Sitehooks.jsx:145-153 | same length; an entry with an equal `id` or an equal `_id` becomes the entry overwritten by the update's present fields; every other entry is unchanged |
| SiteStore.UpdateInListIdempotent | src/hooks/site/Sitehooks.jsx:145-153 | applying the same update twice gives the result of applying it once |
| SiteStore.UpdateWithoutIdsHitsEverySiteWithoutId | src/hooks/site/Sitehooks.jsx:148 | an update lacking both ids merges into every entry lacking either id, since two undefined values are equal |
| SiteStore.UpdateOfUnknownSiteChangesNothing | src/hooks/site/Sitehooks.jsx:145-153 | an update whose ids match no entry leaves the list as it is |
| SiteStore.RemoveFromList | src/hooks/site/Sitehooks.jsx:160-165 | a subsequence of the list; a site stays, with its multiplicity, exactly when neither its `id` nor its `_id` is the argument; none left carries it |
| SiteStore.RemoveUnknownIdKeepsList | src/hooks/site/Sitehooks.jsx:160-165 | removing an id no entry carries keeps the list |
| SiteStore.DecrementedCount | src/hooks/site/Sitehooks.jsx:166 | never negative; one less for a count of at least 1, else 0 |
| SiteStore.ParseResponse | src/hooks/site/Sitehooks.jsx:118-119 | the sites are `data`, else `sites`, else empty; the count is a non-zero `count`, else the number of sites |
| SiteStore.ParsedCountNonNegative | src/hooks/site/Sitehooks.jsx:118-119 | a response without a negative count gives a non-negative count |
| SiteStore.SiteList.constructor | src/hooks/site/Sitehooks.jsx:101-104 | the store starts empty, with count 0 and no error |
| SiteStore.SiteList.Reset | src/hooks/site/Sitehooks.jsx:139-143 | empty list, count 0, no error |
| SiteStore.SiteList.AddSiteToList | src/hooks/site/Sitehooks.jsx:155-158 | the site is appended at the end and the count goes up by 1; the error is kept |
| SiteStore.SiteList.RemoveSiteFromList | src/hooks/site/Sitehooks.jsx:160-167 | the list becomes `RemoveFromList` of the old list and the count `DecrementedCount` of the old count |
| SiteStore.SiteList.UpdateSiteInList | src/hooks/site/Sitehooks.jsx:145-153 | the list becomes `UpdateInList` of the old list; count and error are kept |
| SiteStore.SiteList.LoadResponse | src/hooks/site/Sitehooks.jsx:115-124 | the store holds the parsed sites and count and no error, and returns them |
| SiteStore.EditSite | src/hooks/site/Sitehooks.jsx:53-66 | nothing is sent, with "Failed to update site", exactly when the id is missing or empty; otherwise a PUT to `/editSite/` plus the id, with the data minus its id |
| SiteStore.UpdateSiteStatus | src/hooks/site/Sitehooks.jsx:227-237 | nothing is sent exactly when the id is missing or empty; otherwise a PUT to `/site/status/` plus the id, carrying the status |
| SiteStore.DeleteSite | src/hooks/site/Sitehooks.jsx:276-286 | nothing is sent exactly when the id is missing or empty; otherwise a DELETE of `/deleteSite/` plus the id |
| SiteStore.DeleteIncome | src/hooks/site/Sitehooks.jsx:325-335 | nothing is sent exactly when the id is missing or empty; otherwise a DELETE of `/siteincome/delete/` plus the id |
| WageIncrementForm.CalculateIncrement | src/components/admin/forms/AddWageIncrementForm.jsx:20-29 | new minus old when both wages are numbers other than 0, and 0 otherwise |
| WageIncrementForm.FormErrors | src/components/admin/forms/AddWageIncrementForm.jsx:33-42 | a wage error exactly when the wage is empty or not positive, or not above a known current wage, with the second message winning; a date error exactly for the empty date; a reason error exactly for a blank reason |
| WageIncrementForm.CollectErrors | src/components/admin/forms/AddWageIncrementForm.jsx:33-42 | the errors built by the four conditional writes in order, as `ErrorsFor` of the four check outcomes, which `FormErrors` characterises key by key |
| WageIncrementForm.ValidIff | src/components/admin/forms/AddWageIncrementForm.jsx:33-44 | no errors exactly when the wage is positive and above any known current wage, the date is set and the reason is not blank |
| WageIncrementForm.AcceptedIsStrictRaise | src/components/admin/forms/AddWageIncrementForm.jsx:38-40 | an accepted form against a known wage raises it strictly, and records a positive increment when that wage is not 0 |
| WageIncrementForm.RaiseFromZeroRecordsNoIncrement | src/components/admin/forms/AddWageIncrementForm.jsx:20-29 | a raise from a current wage of 0 is accepted but records an increment of 0 |
| WageIncrementForm.MissingCurrentWageSkipsRaiseCheck | src/components/admin/forms/AddWageIncrementForm.jsx:38-40 | without a current wage only the first wage check can fire |
| WageIncrementForm.WageIncrementForm.constructor | src/components/admin/forms/AddWageIncrementForm.jsx:9-16 | an empty wage and reason, today's date, no errors |
| WageIncrementForm.WageIncrementForm.SetNewWage | src/components/admin/forms/AddWageIncrementForm.jsx:100 | the new wage is replaced; the date, reason, errors and submit error are kept |
| WageIncrementForm.WageIncrementForm.SetEffectiveDate | src/components/admin/forms/AddWageIncrementForm.jsx:125 | the date is replaced; the wage, reason, errors and submit error are kept |
| WageIncrementForm.WageIncrementForm.SetReason | src/components/admin/forms/AddWageIncrementForm.jsx:139 | the reason is replaced; the wage, date, errors and submit error are kept |
| WageIncrementForm.WageIncrementForm.ValidateForm | src/components/admin/forms/AddWageIncrementForm.jsx:33-45 | the recorded errors are `FormErrors` of the fields; the result is true exactly when they are empty |
| WageIncrementForm.WageIncrementForm.HandleSubmit | src/components/admin/forms/AddWageIncrementForm.jsx:47-58 | a payload exactly when validation passes: the new wage, date and reason, the current wage as the previous wage, and `CalculateIncrement` as the amount; it is a strict raise over a known current wage |
| WageIncrementForm.WageIncrementForm.ReceiveResult | src/components/admin/forms/AddWageIncrementForm.jsx:59-64 | success closes the form; a failure shows the hook's message when it is present and non-empty, else "Failed to add wage increment" |
| StaffPage.HandleFilterChange | src/pages/admin/Staffas.jsx:62-64 | the department is replaced and the search kept |
| StaffPage.HandleSearch | src/pages/admin/Staffas.jsx:66-68 | the search is replaced and the department kept |
| StaffPage.FilterStaff | src/pages/admin/Staffas.jsx:31-51 | a subsequence of `staff || []`; a member is kept, with its multiplicity, exactly when the department is empty or equals its role, and the search is empty or the lower-cased term occurs in its lower-cased name, role or email, or in its phone |
| StaffPage.NoCriteriaKeepsList | src/pages/admin/Staffas.jsx:32-40 | no department and no search leave the list unchanged |
| StaffPage.DepartmentIsExactRole | src/pages/admin/Staffas.jsx:35-37 | with a department, every member shown has exactly that role |
| StaffPage.ClearingDepartmentRestoresSearchOnly | src/pages/admin/Staffas.jsx:62-64 | choosing a department and then clearing it gives the search-only list |
| StaffPage.FilteredCountAtMostTotal | src/pages/admin/Staffas.jsx:126 | the filtered count is at most the total |
| StaffPage.Departments | src/pages/admin/Staffas.jsx:144 | no duplicates; every member's role is listed, and every listed department is some member's role |
| StaffLeave.FilteredLeaves | src/components/admin/StaffLeave.jsx:5-11 | without a filter the leaves as given; with one a subsequence keeping each leave, with its multiplicity, exactly when its date lies within the range, both ends included |
| StaffLeave.RangeIsInclusive | src/components/admin/StaffLeave.jsx:7-9 | a leave on the start or end date of a valid range is shown |
| StaffLeave.InvertedRangeShowsNothing | src/components/admin/StaffLeave.jsx:8-9 | a range starting after its end shows nothing |
| StaffLeave.EmptyNoticeWhenNothingInRange | src/components/admin/StaffLeave.jsx:51-53 | "No leaves found" shows exactly when there are no leaves, or no leave dated within the filter |
| StaffAdvancePayment.FilteredPayments | src/components/admin/StaffAdvancePayment.jsx:5-11 | without a filter the payments as given; with one a subsequence keeping each payment, with its multiplicity, exactly when its date lies within the range, both ends included |
| StaffAdvancePayment.RangeIsInclusive | src/components/admin/StaffAdvancePayment.jsx:7-9 | a payment on the start or end date of a valid range is shown |
| StaffAdvancePayment.InvertedRangeShowsNothing | src/components/admin/StaffAdvancePayment.jsx:8-9 | a range starting after its end shows nothing |
| StaffAdvancePayment.EmptyNoticeWhenNothingInRange | src/components/admin/StaffAdvancePayment.jsx:41-43 | "No payments found" shows exactly when there are no payments, or none dated within the filter |
| IncomeTable.SearchString | src/components/admin/tables/IncomeTable.jsx:137-139 | the lower-cased title, a space and the lower-cased description, a missing one read as empty |
| IncomeTable.FilteredIncomes | src/components/admin/tables/IncomeTable.jsx:136-141 | no list gives `[]`; otherwise a subsequence keeping each income, with its multiplicity, exactly when its search string contains the lower-cased term |
| IncomeTable.EmptySearchShowsAll | src/components/admin/tables/IncomeTable.jsx:140 | the empty term keeps every income |
| IncomeTable.TitleHitIsShown | src/components/admin/tables/IncomeTable.jsx:137-140 | a term found in the title, ignoring ASCII case, keeps the income |
| IncomeTable.DescriptionHitIsShown | src/components/admin/tables/IncomeTable.jsx:138-140 | a term found in the description, ignoring ASCII case, keeps the income |
| IncomeTable.MissingFieldsSearchAsBlank | src/components/admin/tables/IncomeTable.jsx:137-138 | an income with neither title nor description searches as a single space |
| IncomeTable.SpaceMatchesEveryIncome | src/components/admin/tables/IncomeTable.jsx:139-140 | the term " " keeps every income, because of the joining space |
| SiteAttendanceTable.SearchString | src/components/admin/tables/Siteattendancetable.jsx:87-89 | the lower-cased staff name, a space and the lower-cased remarks, a missing one read as empty |
| SiteAttendanceTable.FilteredData | src/components/admin/tables/Siteattendancetable.jsx:86-91 | a subsequence keeping each record, with its multiplicity, exactly when its search string contains the lower-cased term |
| SiteAttendanceTable.EmptyTermKeepsAll | src/components/admin/tables/Siteattendancetable.jsx:86-90 | the empty term keeps every record |
| SiteAttendanceTable.MissingFieldsSearchAsBlank | src/components/admin/tables/Siteattendancetable.jsx:87-88 | a record with no staff name and no remarks searches as a single space |
| SiteAttendanceTable.StaffNameHitIsShown | src/components/admin/tables/Siteattendancetable.jsx:87-90 | a term found in the staff name, ignoring ASCII case, keeps the record |
| SiteAttendanceTable.RemarksHitIsShown | src/components/admin/tables/Siteattendancetable.jsx:88-90 | a term found in the remarks, ignoring ASCII case, keeps the record |
| SiteAttendanceTable.SaveTarget | src/components/admin/tables/Siteattendancetable.jsx:68-76 | an update under the edited record's `_id` exactly when a record is being edited, else an add to the site; either way the form data is passed on |
| SiteAttendanceTable.AttendanceTable.constructor | src/components/admin/tables/Siteattendancetable.jsx:16-18 | the form is closed, nothing is being edited, the term is empty |
| SiteAttendanceTable.AttendanceTable.Shown | src/components/admin/tables/Siteattendancetable.jsx:86-91 | a subsequence of the records; all of them while the term is empty, which it stays, as nothing sets it |
| SiteAttendanceTable.AttendanceTable.HandleEdit | src/components/admin/tables/Siteattendancetable.jsx:55-58 | the record is being edited and the form is open; nothing else changes |
| SiteAttendanceTable.AttendanceTable.ResetForm | src/components/admin/tables/Siteattendancetable.jsx:60-63 | nothing is being edited and the form is closed; nothing else changes |
| SiteAttendanceTable.AttendanceTable.OpenForm | src/components/admin/tables/Siteattendancetable.jsx:104-106 | the form is open and the edited record is kept |
| SiteAttendanceTable.AttendanceTable.HandleFormSubmit | src/components/admin/tables/Siteattendancetable.jsx:65-84 | sends the `SaveTarget` request; on success the form is reset and the records reloaded, on failure the state is kept |
| SiteAttendanceForm.AttendanceForm.constructor | src/components/admin/forms/Siteattendanceform.jsx:9-22 | no entries and today's date |
| SiteAttendanceForm.AttendanceForm.HandleDateChange | src/components/admin/forms/Siteattendanceform.jsx:81 | the date is replaced and the entries kept |
| SiteAttendanceForm.AttendanceForm.HandleStaffChange | src/components/admin/forms/Siteattendanceform.jsx:24-32 | one fresh, distinct entry per selected id, in selection order, each `Present` with empty remarks; the date kept |
| SiteAttendanceForm.AttendanceForm.HandleStatusChange | src/components/admin/forms/Siteattendanceform.jsx:34-38 | for an index in range, that entry's status is set in place, and the same entry objects stay with every other value unchanged; a selectable status keeps all statuses selectable; out of range nothing changes |
| SiteAttendanceForm.AttendanceForm.HandleRemarksChange | src/components/admin/forms/Siteattendanceform.jsx:40-44 | for an index in range, that entry's remarks are set in place and every other value is unchanged; out of range nothing changes |
| SiteAttendanceForm.AttendanceForm.HandleSubmit | src/components/admin/forms/Siteattendanceform.jsx:46-58 | refused with the select-date notice exactly when the date is empty or there are no entries; otherwise it saves exactly the date and the entries' values |
| SiteFilter.FindOption | src/components/admin/filters/SiteFilter.jsx:46 | the first option whose value equals the status exactly, or none exactly when no option has it |
| SiteFilter.CurrentStatusLabel | src/components/admin/filters/SiteFilter.jsx:45-48 | always one of the option labels, and "All Sites" for a status no option has |
| SiteFilter.OptionValuesDistinct | src/components/admin/filters/SiteFilter.jsx:15-22 | the six option values are all different |
| SiteFilter.ListedValueShowsItsLabel | src/components/admin/filters/SiteFilter.jsx:15-22 | each listed value shows its own label |
| SiteFilter.LookupIsCaseSensitive | src/components/admin/filters/SiteFilter.jsx:46 | the lower-case `active` and `pending` show "All Sites" |
| SiteFilter.SiteFilterState.constructor | src/components/admin/filters/SiteFilter.jsx:12-13 | the local term is the given term or empty, and the dropdown is closed |
| SiteFilter.SiteFilterState.HandleSearchChange | src/components/admin/filters/SiteFilter.jsx:24-30 | the local term becomes the value, which is what is reported upward |
| SiteFilter.SiteFilterState.HandleStatusChange | src/components/admin/filters/SiteFilter.jsx:35-38 | the status is forwarded and the dropdown closes; the local term is kept; forwarding `all` (the status chip's cross, line 126) leaves the bar shown exactly when the search chip is |
| SiteFilter.SiteFilterState.ClearSearch | src/components/admin/filters/SiteFilter.jsx:40-43 | the local term becomes empty and the empty term is reported; afterwards the bar is shown exactly when the status chip is, for any status |
| SiteFilter.SiteFilterState.ClearBothChips | src/components/admin/filters/SiteFilter.jsx:122-146 | pressing the search chip's cross and then the status chip's cross reports `''` and `all` and hides the bar, whatever the state before |
| SiteFilter.SiteFilterState.ToggleFilter | src/components/admin/filters/SiteFilter.jsx:83 | the dropdown flips; the local term is kept |

## Left out

- HTTP: the axios calls and the wrapping of their errors into `{ message, details, errors }` are left out. The server's verdicts are parameters, and the requests are returned as values.
- Loading flags, `success` flags and the `console` and toast output are left out.
- Debounce, cancellation and timers are left out. `SiteFilter.SiteFilterState.HandleSearchChange` returns the value the 300 ms timer would report, without the timer.
- Rendering is left out: layout, icons (`getStatusIcon`), currency and date formatting (`Intl.NumberFormat`, `toLocaleDateString`), navigation and the confirmation modals.
- Floating point is left out. Wages and amounts are integers, so decimal wages and the increment percentage (`toFixed(2)`) are not modelled. `WageIncrementForm.CalculateIncrement` returns only the amount.
- `new Date(...)` parsing is left out. Dates are day numbers, or `None` when invalid.
- `Text.Lower` only folds the ASCII letters A–Z, while JavaScript's `toLowerCase` folds every Unicode letter. The other Unicode folds are not modelled.
- A key that is present but holds `undefined` is modelled the same as a missing key.
- A key that holds `null` is modelled the same as a missing key, although JavaScript tells them apart: in `Sitehooks.jsx` at lines 148 and 163, `null === undefined` is false, so an entry with `id: null` and an update without an `id` match in `SiteStore.SameSite`, `SiteStore.KeptAfterRemoving` and `SiteStore.UpdateInList` but not in the source; the spread at line 149 also copies a key that holds `null`, where `SiteStore.Override` keeps the old value. The server's records are taken to leave such keys out rather than set them to `null`.
- `StaffPage.StaffMember` assumes that name, role, email and phone are always strings. In the source one of them being missing would make the filter throw.
- `StaffPage.Departments` does not state the order of the list. The definition keeps first-occurrence order, as a `Set` does, but the contract only states membership and the absence of duplicates.
- `SiteAttendanceForm`: the form ignores the `attendance` that the tab passes it for editing. The model has no such input either.
- `SiteAttendanceForm`: the staff-name lookup used for display is left out.
- `SiteAttendanceTable`: the delete confirmation (`confirmDelete`) is left out.
- `WageIncrementForm.WageIncrementForm.ReceiveResult` takes the hook's error message as a parameter. The message may be stale in the source; the model does not capture that timing.
- The network calls of `handleConfirmAction`, `loadSites` and `refreshSites` on the site pages are left out. They only forward to the store and the request guards.
