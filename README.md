# Agent Project Buddy — a verified model of its front end and agent tools

Agent Project Buddy is a project-management web application. Its users keep
projects, and inside each project three kinds of work items: requirements,
tasks and defects. Work items are planned into iterations. The front end is a
React application over a hosted database. A set of agent tools lets an
assistant create, read, list and update the same rows.

This Dafny project models the decision logic of that front end and of the
agent tools:

- **Stores.** The authentication store (sign up, sign in, sign out, password
  reset, session refresh, and what it persists) and the user store (user info
  and configuration, and the MCP-configuration update).
- **Pages.**
  - The project list and the project detail page: create, rename, delete,
    cancel editing.
  - The sign-up form's validation.
  - The project dashboard: status counts, completion rates, the current
    iteration, and the five most recent items.
  - The iteration page: status, calendar progress, the current iteration's
    statistics, the end-date rule, and the lock guards.
  - The three work-item list pages: modal prefill, form defaults, submit
    payloads, the drawer-and-address round trip, and the linked-row columns.
- **Components.**
  - The shared create/edit modal.
  - The editable work-item table: its column layout, the cell editors and
    their options, and the one-row edit lock.
  - The detail drawer.
  - The planning modal.
  - The JSON configuration editor.
  - The two layouts' menu selection.
- **Agent tools.** The create, get, list and update tools for the three
  work-item types, and the two iteration tools.

Modelling conventions:

- Pure computations are functions. Component state and store state are
  classes whose methods update fields in place.
- Calls to the database, the auth provider and the JSON parser become
  parameters. An `Outcome` value is either `Done(result)` or
  `Threw(message)`.
- JavaScript objects are maps from field name to a dynamic `Value`. Reading a
  missing key gives `undefined`. The object spread is the right-biased map
  union.
- `Number(text)` is modelled for the texts ids take: blank, decimal digits,
  or not a number.
- Dates of iterations are day numbers. "Today" and "now" are parameters.

Two source defects are recorded under "## Findings". The task update tool
writes the assignee under a key that the tasks table does not have. The
iteration-planning modal hides its footer, so its OK handler can never run.
For each, the model keeps the code as written next to the corrected version,
and the rest of the model uses the corrected one.

## Model

| member | source | states |
|---|---|---|
| Common.Spread | src/pages/project/Requirements.tsx:154-160 | `{...a, ...b}` holds every key of either object; where both have a key, the value of the right one wins |
| Common.SpreadGet | src/pages/project/Requirements.tsx:148-151 | a field read from a spread object comes from the overriding object when it has the key, and from the base otherwise |
| Js.LeadingSpaces | src/pages/projects/ProjectList.tsx:41 | the leading run counted is all whitespace and is followed by a non-space or the end |
| Js.TrailingSpaces | src/pages/projects/ProjectList.tsx:47 | the trailing run counted is all whitespace and is preceded by a non-space or the start |
| Js.TrimStart | src/pages/projects/ProjectList.tsx:41 | only whitespace is removed from the front, and the result does not start with whitespace (that it is a suffix of the text is Js.TrimStartSuffix) |
| Js.TrimEnd | src/pages/projects/ProjectList.tsx:47 | only whitespace is removed from the back, and the result does not end with whitespace (that it is a prefix of the text is Js.TrimEndPrefix) |
| Js.Trim | src/pages/projects/ProjectList.tsx:41 | `trim()` is never longer than the text, is empty for all-whitespace text, and otherwise ends in a non-space (which slice it keeps is Js.TrimSlice and Js.TrimPadded) |
| Js.TrimEmptyIff | src/pages/projects/ProjectList.tsx:41 | a trimmed name is empty exactly when the name is all whitespace; otherwise it starts and ends with a non-space |
| Js.TrimEmptyWhitespace | src/pages/projects/ProjectList.tsx:41 | only all-whitespace text trims to nothing |
| Js.TrimNonEmptyEnds | src/pages/projects/ProjectList.tsx:41 | text that trims to something is not all whitespace, and the trimmed text starts and ends with a non-space |
| Js.TrimStartSuffix | src/pages/projects/ProjectList.tsx:41 | `trimStart()` is a suffix of the text |
| Js.TrimEndPrefix | src/pages/projects/ProjectList.tsx:47 | `trimEnd()` is a prefix of the text |
| Js.TrimSlice | src/pages/projects/ProjectList.tsx:41 | `trim()` is the slice of the text that begins right after its leading whitespace |
| Js.LeadingSpacesExact | src/pages/projects/ProjectList.tsx:41 | the leading-whitespace count is the one position where a whitespace prefix meets a non-space or the end |
| Js.TrailingSpacesExact | src/pages/projects/ProjectList.tsx:47 | the trailing-whitespace count is the one position where a whitespace suffix meets a non-space or the start |
| Js.TrimPadded | src/pages/projects/ProjectList.tsx:41 | whitespace on both sides of a text with non-space ends is exactly what `trim()` removes (`"  ab "` trims to `"ab"`) |
| Js.TrimEndEmpty | src/pages/projects/ProjectList.tsx:41 | trimming the end removes everything only from all-whitespace text |
| Js.TrimIdempotent | src/pages/projects/ProjectList.tsx:47 | trimming a trimmed name changes nothing |
| Js.IncludesAt | src/pages/project/ProjectLayout.tsx:46-57 | `includes` holds exactly when the word occurs at some position of the path |
| Js.IncludesPrefix | src/pages/project/ProjectLayout.tsx:46-57 | a path includes every prefix of itself |
| Js.BeforeFirst | src/pages/project/Requirements.tsx:125-126 | `split(c)[0]` is a prefix without `c`, cut just before the first `c` |
| Js.BeforeFirstKeeps | src/pages/project/Requirements.tsx:125-126 | cutting twice is cutting once; text without the separator is kept whole |
| Js.BeforeFirstOfJoin | src/pages/project/Requirements.tsx:125-126 | cutting `a + c + b` at the first `c` gives back `a` when `a` has no `c` |
| Js.NumberValue | src/mastra/tools/task.ts:48 | `Number(...)` as a dynamic value: NaN exactly for a non-number, the integer otherwise |
| Js.ToNumber | src/mastra/tools/task.ts:48 | `Number(text)`: blank text is 0; text whose trimmed form is decimal digits is the value of those digits; any other trimmed text is NaN; a number read from text is never negative |
| Js.NumberOfPadded | src/mastra/tools/task.ts:48 | digits with whitespace around them read as their value (`Number(" 12 ") == 12`) |
| Js.NumberOfNonDigit | src/mastra/tools/task.ts:48 | text holding a character that is neither a digit nor whitespace is NaN |
| Js.DecimalString | src/mastra/tools/task.ts:48 | the decimal writing of a number is non-empty and all digits |
| Js.DigitsValueOfDecimal | src/mastra/tools/task.ts:48 | reading back the decimal writing of a number gives that number |
| Js.NumberOfDecimal | src/mastra/tools/task.ts:48 | `Number(String(n)) == n`: an id written in decimal reaches the API unchanged |
| Js.UpperChar | src/components/AppLayout.tsx:103 | upper-casing for ASCII only: a lower-case ASCII letter becomes its own capital (its code minus 32), every other character is left alone (JavaScript also maps non-ASCII letters) |
| Js.InitialUpper | src/components/AppLayout.tsx:103 | `charAt(0).toUpperCase()` is empty exactly for empty text, else the upper-cased first character |
| Percent.RoundPercent | src/pages/project/Dashboard.tsx:164 | `Math.round(n / d * 100)` in exact arithmetic: the integer nearest to 100·n/d, halves rounded up (JavaScript's double arithmetic can round one lower) |
| Percent.RoundPercentAtMostHundred | src/pages/project/Dashboard.tsx:332-333 | a part of a whole never shows more than 100 percent |
| Percent.RoundPercentMonotone | src/pages/project/Dashboard.tsx:164 | closing more items never lowers the percentage |
| Percent.RoundPercentEnds | src/pages/project/Dashboard.tsx:164 | nothing done is 0 percent and everything done is 100 percent |
| Percent.RoundPercentHalf | src/pages/project/Iterations.tsx:311 | half of an even whole rounds to exactly 50 percent |
| WorkItemStats.CountStatus | src/pages/project/Dashboard.tsx:113-115 | the number of items with a status never exceeds the number of items (that it counts exactly the items with that status is WorkItemStats.CountStatusIsPositions) |
| WorkItemStats.CountStatusSingleton | src/pages/project/Dashboard.tsx:113-115 | a one-item list counts 1 for the item's own status and 0 for the others |
| WorkItemStats.CountStatusIsPositions | src/pages/project/Dashboard.tsx:113-115 | `filter(i => i.status === s).length` is the number of positions whose item has status `s` |
| WorkItemStats.CountStatusAppend | src/pages/project/Iterations.tsx:178-189 | the count over merged lists is the sum of the counts over the parts |
| WorkItemStats.CountPartition | src/pages/project/Dashboard.tsx:113-121 | the open, in-progress and closed counts add up to the list's length |
| WorkItemStats.CompletionPercent | src/pages/project/Dashboard.tsx:160-165 | 0 when there are no items, otherwise the rounded closed share, which is at most 100 |
| WorkItemStats.CompletionPercentEnds | src/pages/project/Dashboard.tsx:160-165 | no closed items give 0; all items closed give 100 |
| WorkItemStats.CompletionPercentMonotone | src/pages/project/Dashboard.tsx:160-165 | the completion rate grows with the number of closed items |
| Schema.EnumNamesInjective | src/types/supabase.ts:292-296 | the three enums are stored under distinct names, so each stored name reads back as one value |
| Schema.ItemRecord | src/types/supabase.ts:137-242 | a row read as an object yields its own title, status and assignee; a column of another work-item table reads `undefined` |
| Schema.CommonRecord | src/types/supabase.ts:137-242 | the shared columns carry the row's values and hold none of the type-specific columns |
| Schema.DetailRecord | src/types/supabase.ts:12-54 | each table contributes only its own columns: priority, priority with requirement, or blocking level |
| Schema.UserIdOrNull | src/pages/project/Requirements.tsx:145 | `userInfo?.id \|\| null` is the user's id when it is non-empty, null otherwise |
| Labels.StatusText | src/pages/project/Dashboard.tsx:202-209 | each of the three statuses gets its own label, different from the stored name; any other text shows as itself |
| Labels.StatusColor | src/pages/project/Dashboard.tsx:211-218 | the colour is 'default' exactly for text outside the three statuses |
| Labels.ListStatusTag | src/pages/project/Requirements.tsx:220-235 | the list's tag is the dashboard's text and colour of the status, with any other text shown as 'open' |
| Labels.DefectStatusBadge | src/pages/project/Defects.tsx:223-248 | the badge text is empty, and its state 'default', exactly for text outside the three statuses |
| Labels.PriorityTag | src/pages/project/Requirements.tsx:203-216 | the tag reads high, medium or low, and low exactly for any value other than 'high' and 'medium' |
| Labels.BlockingTag | src/pages/project/Defects.tsx:203-220 | the tag reads high, medium, low or none; none (the only green one) exactly for any value other than 'high', 'medium' and 'low' |
| Labels.StatusLabelsDistinguish | src/pages/project/Dashboard.tsx:202-219 | the three statuses get three different texts and colours; any other text shows as itself in 'default' |
| Labels.ListStatusAgreesWithDashboard | src/pages/project/Requirements.tsx:220-235 | the list's status tag equals the dashboard's label on every stored status; other text shows as 'open' |
| Labels.DefectBadgeCases | src/pages/project/Defects.tsx:223-248 | the defect badge names the three statuses distinctly; any other text gets an empty 'default' badge |
| Labels.PriorityTagCases | src/pages/project/Requirements.tsx:203-216 | the three priorities get distinct tags; any other value shows as low |
| Labels.BlockingTagCases | src/pages/project/Defects.tsx:203-220 | the four blocking levels get distinct tags; any other value shows as none |
| ItemForm.DatePart | src/pages/project/Requirements.tsx:125-126 | a non-empty timestamp loads as its prefix before 'T'; a null or empty one as `undefined` |
| ItemForm.DatePartOfTimestamp | src/pages/project/Requirements.tsx:125-126 | an ISO timestamp `date + "T" + time` loads as `date` |
| ItemForm.FieldsOf | src/pages/project/Requirements.tsx:119-128 | `setFieldsValue` receives exactly the listed fields, each with the row's value (dates cut at 'T') |
| ItemForm.FieldsOfAt | src/pages/project/Requirements.tsx:119-128 | the field at each listed position is loaded with the row's value |
| ItemForm.FindById | src/pages/project/Tasks.tsx:193 | `find` yields nothing exactly when no element has the id, otherwise the first element that has it |
| ItemForm.LinkCellOf | src/pages/project/Defects.tsx:250-262 | '-' for a missing or zero id; the linked row when the loaded list has it; the raw id only when the list lacks it |
| ItemForm.DetailAddressRoundTrip | src/pages/project/Requirements.tsx:165-181 | the pushed `?id=` address cuts back to the page path the drawer's close pushes, and its id reads back as the row's id |
| ListPage.PrefillAgreesWithModal | src/pages/project/Tasks.tsx:88-107 | the requirement and defect pages load exactly what the shared modal loads; the task page also loads the assignee |
| ListPage.Defaults | src/pages/project/Requirements.tsx:333-346 | the form starts 'open' with priority 'medium' on the requirement and task pages, and blocking level 'none' on the defect page (src/pages/project/Defects.tsx:345-359), and holds nothing else |
| ListPage.SubmitAssigning | src/pages/project/Requirements.tsx:142-163 | a failed validation sends nothing; an edit updates the edited row with the assignee overwritten by the saving user; a create adds project, creator, assignee and time over the form values |
| ListPage.SubmitTask | src/pages/project/Tasks.tsx:115-130 | an edit sends the form values unchanged; a create adds the project, a null creator and the time, leaving the assignee to the form |
| ListPage.UnchangedEditReassigns | src/pages/project/Requirements.tsx:116-152 | re-saving an opened requirement or defect keeps its title and status but reassigns it to whoever saves |
| ListPage.UnchangedTaskEditKeepsAssignee | src/pages/project/Tasks.tsx:88-119 | re-saving an opened task keeps its assignee |
| ListPage.Page.constructor | src/pages/project/Requirements.tsx:330-350 | the page starts with modal and drawer closed, nothing edited or selected, and the form at its initial values |
| ListPage.Page.ShowModal | src/pages/project/Requirements.tsx:116-134 | opening on a row merges its fields into the form; opening without one resets to the initial values; the drawer is untouched |
| ListPage.Page.HandleCancel | src/pages/project/Requirements.tsx:136-140 | the modal closes, forgets the edited row and resets the form |
| ListPage.Page.HandleRowClick | src/pages/project/Requirements.tsx:165-172 | the drawer opens on the row and the address gains `?id=` |
| ListPage.Page.HandleDetailClose | src/pages/project/Requirements.tsx:174-181 | the drawer closes, the selection clears and the bare path is pushed |
| ListPage.RowClickThenClose | src/pages/project/Defects.tsx:165-181 | opening a row and closing the drawer restores the drawer state and the address |
| ListPage.IterationCell | src/pages/project/Defects.tsx:250-262 | the iteration column is '-' exactly for a missing or zero id; otherwise the iteration with that id, or the raw id |
| ListPage.RequirementCell | src/pages/project/Tasks.tsx:186-196 | the requirement column is '-' exactly for a missing or zero id; a linked requirement comes from the loaded list and has that id |
| ListPage.DateCell | src/pages/project/Tasks.tsx:197-210 | a date cell shows '-' exactly for a missing or empty time, otherwise that time |
| CreateWorkitem.PrefillCommon | src/components/workitem/CreateWorkitem.tsx:45-54 | editing loads the item's own title, status and dates cut at 'T' |
| CreateWorkitem.PrefillOwnField | src/components/workitem/CreateWorkitem.tsx:56-79 | in a modal of its own type the item's priority or blocking level is loaded |
| CreateWorkitem.WorkitemForm.constructor | src/components/workitem/CreateWorkitem.tsx:230-234 | the form starts at its initial values |
| CreateWorkitem.WorkitemForm.Load | src/components/workitem/CreateWorkitem.tsx:45-84 | an item merges its fields into the form; no item resets it to the initial values |
| CreateWorkitem.CreateFields | src/components/workitem/CreateWorkitem.tsx:86-96 | a create adds exactly project, creator, assignee and time; creator and assignee are both the signed-in user or null |
| CreateWorkitem.Submitted | src/components/workitem/CreateWorkitem.tsx:86-100 | nothing on failed validation; an edit passes the values; a create overrides project, creator, assignee and time |
| CreateWorkitem.CreateOwnership | src/components/workitem/CreateWorkitem.tsx:86-100 | a created item belongs to the modal's project, has the same creator and assignee (the signed-in user), and keeps every other form value |
| CreateWorkitem.StatusOptions | src/components/workitem/CreateWorkitem.tsx:199-216 | the three statuses in order open, in progress, closed, each captioned as the lists render it: the badge text for defects, the list tag otherwise |
| CreateWorkitem.StatusOptionsAgreeWithTable | src/components/workitem/CreateWorkitem.tsx:199-216 | the modal offers the same three statuses, captions and order as the table's inline editor; only defects use the repair wording |
| WorkitemTable.TypeColumns | src/components/workitem/WorkitemTable.tsx:304-449 | every type-specific column is editable |
| WorkitemTable.Keys | src/components/workitem/WorkitemTable.tsx:450-455 | the column keys in column order |
| WorkitemTable.EditableKeysAppend | src/components/workitem/WorkitemTable.tsx:450-455 | the editable keys of joined column lists are the joined editable keys |
| WorkitemTable.EditableKeysAllEditable | src/components/workitem/WorkitemTable.tsx:304-449 | in a list of editable columns every key is editable |
| WorkitemTable.MergedColumnsOrder | src/components/workitem/WorkitemTable.tsx:450-455 | columns read id, title, the type's columns (status first), assignee, creation time, actions |
| WorkitemTable.MergedColumns | src/components/workitem/WorkitemTable.tsx:450-455 | one column per base and type column plus the actions column, which comes last |
| WorkitemTable.MergedColumnsEditable | src/components/workitem/WorkitemTable.tsx:271-459 | the editable cells are the title followed by the type's own columns |
| WorkitemTable.RequiredCells | src/components/workitem/WorkitemTable.tsx:128 | of the editable cells, exactly title and status are required |
| WorkitemTable.StatusOptions | src/components/workitem/WorkitemTable.tsx:464-480 | the status select has three options |
| WorkitemTable.RequirementOptions | src/components/workitem/WorkitemTable.tsx:498-504 | one option per related requirement, in order, valued by its id and captioned `#id title` |
| WorkitemTable.IterationOptions | src/components/workitem/WorkitemTable.tsx:505-511 | one option per related iteration, in order, valued by its id and captioned by its name |
| WorkitemTable.CellFor | src/components/workitem/WorkitemTable.tsx:458-524 | a cell has options exactly when it is a select; status, priority and blocking level are selects with their fixed options; the requirement and iteration columns are selects exactly when related items are given, with one option per related item; the description alone is a textarea; no cell is a date input |
| WorkitemTable.StatusOptionsMatchLabels | src/components/workitem/WorkitemTable.tsx:464-480 | the status select offers each status once, captioned as the same table's status column renders it |
| WorkitemTable.EnumOptionsMatchTags | src/components/workitem/WorkitemTable.tsx:481-497 | the priority and blocking selects offer every enum value once, captioned as its tag |
| WorkitemTable.EditFieldsCommon | src/components/workitem/WorkitemTable.tsx:197-201 | `edit` fills the title and status with the row's values |
| WorkitemTable.EditFieldsOwnType | src/components/workitem/WorkitemTable.tsx:202-210 | in its own table a row's priority, requirement or blocking level is filled from the row |
| WorkitemTable.EditFieldsBlockingOfOtherType | src/components/workitem/WorkitemTable.tsx:207-210 | a requirement or task in the defect table gets `undefined` as its blocking level |
| WorkitemTable.EditFieldsPriorityOfDefect | src/components/workitem/WorkitemTable.tsx:200-205 | a defect in the requirement or task table gets `undefined` as its priority |
| WorkitemTable.EditFields | src/components/workitem/WorkitemTable.tsx:197-213 | `edit` loads exactly the type's edit fields, each with the row's value |
| WorkitemTable.DetailUrl | src/components/workitem/WorkitemTable.tsx:194 | the row link is the address the list page pushes for a row click on that type's page path, so its `id` reads back as the row's id (ItemForm.DetailAddressRoundTrip) |
| WorkitemTable.EditableTable.constructor | src/components/workitem/WorkitemTable.tsx:160-161 | no row is edited at first |
| WorkitemTable.EditableTable.EditButtonDisabled | src/components/workitem/WorkitemTable.tsx:258 | every row's edit button is disabled exactly while some row is being edited |
| WorkitemTable.EditableTable.Edit | src/components/workitem/WorkitemTable.tsx:197-213 | the row's fields are written into the form and that row becomes the edited one |
| WorkitemTable.EditableTable.Cancel | src/components/workitem/WorkitemTable.tsx:215-217 | editing ends and the form is kept |
| WorkitemTable.EditableTable.Save | src/components/workitem/WorkitemTable.tsx:219-228 | a valid form sends the record's update and ends editing; an invalid form changes nothing |
| WorkitemTable.EditableTable.RowClick | src/components/workitem/WorkitemTable.tsx:539-543 | a click opens the row's detail address exactly when no row is edited |
| WorkitemTable.EditableTable.RowDoubleClick | src/components/workitem/WorkitemTable.tsx:545-549 | a double click starts editing only when no row is edited, and otherwise changes nothing |
| Dashboard.TypeStats | src/pages/project/Dashboard.tsx:109-159 | all zero without a list; otherwise the total is the list length, open, in progress and closed are the counts of those statuses, and the three add up to the total |
| Dashboard.TypePercent | src/pages/project/Dashboard.tsx:331-334 | 0 without items, otherwise the rounded closed share of the type |
| Dashboard.CompletionRate | src/pages/project/Dashboard.tsx:160-165 | 0 without items, otherwise the rounded closed share of all three types |
| Dashboard.PercentagesBounded | src/pages/project/Dashboard.tsx:160-165 | every percentage the dashboard shows lies between 0 and 100 |
| Dashboard.CompletionRateEnds | src/pages/project/Dashboard.tsx:160-165 | the overall rate is 0 with nothing closed and 100 with everything closed |
| Dashboard.Tagged | src/pages/project/Dashboard.tsx:172-191 | each item is tagged with its type, in order |
| Dashboard.WithCreatedAt | src/pages/project/Dashboard.tsx:195 | the filter keeps exactly the items with a creation time, each as often as before |
| Dashboard.Candidates | src/pages/project/Dashboard.tsx:172-195 | every candidate has a creation time, and there are no more candidates than items in the three lists |
| Dashboard.CandidatesComplete | src/pages/project/Dashboard.tsx:172-195 | every item of the three lists with a creation time is a candidate, under its own type |
| Dashboard.Insert | src/pages/project/Dashboard.tsx:196 | inserting keeps a newest-first list newest first and adds just the item |
| Dashboard.SortNewestFirst | src/pages/project/Dashboard.tsx:196 | the sorted list is newest first and a permutation of its input |
| Dashboard.Newest | src/pages/project/Dashboard.tsx:196-197 | up to five items, newest first, drawn from the candidates, none older than a candidate left out |
| Dashboard.RecentItems | src/pages/project/Dashboard.tsx:168-198 | empty until all three lists load; then the at most five newest items that have a creation time, newest first, none older than an item left out |
| Dashboard.PrefixOfSorted | src/pages/project/Dashboard.tsx:197 | a prefix of a newest-first list is newest first and no older than what it leaves out |
| Dashboard.TaggedMember | src/pages/project/Dashboard.tsx:172-191 | a tagged entry carries its list's type and an item of that list |
| Dashboard.TagKeepsType | src/pages/project/Dashboard.tsx:172-191 | a recent item tagged as requirement, task or defect comes from that list |
| Iterations.PhaseOf | src/pages/project/Iterations.tsx:278-290 | completed exactly after the end, running exactly inside the window, planning exactly before the start |
| Iterations.PhaseIgnoresLock | src/pages/project/Iterations.tsx:278-290 | the lock flag never changes the status |
| Iterations.PhaseAdvances | src/pages/project/Iterations.tsx:278-290 | as days pass, an iteration only moves forward: planning, running, completed |
| Iterations.PhaseTag | src/pages/project/Iterations.tsx:281-289 | completed shows 已完成/green, running 进行中/blue, planning 规划中/gold |
| Iterations.IterationStatus | src/pages/project/Iterations.tsx:278-290 | an iteration past its end shows 已完成/green, one whose window holds today 进行中/blue, one not yet started 规划中/gold |
| Iterations.IterationStatusDistinct | src/pages/project/Iterations.tsx:278-290 | two iterations show the same status tag exactly when they are in the same phase |
| Iterations.Progress | src/pages/project/Iterations.tsx:293-313 | 100 after the end, 0 before the start, otherwise the rounded elapsed share of the window, never above 100; undefined exactly for a one-day window on its day |
| Iterations.ProgressCapNeverBinds | src/pages/project/Iterations.tsx:311 | inside the window the cap at 100 never changes the rounded value |
| Iterations.ProgressFollowsPhase | src/pages/project/Iterations.tsx:293-313 | progress is 100 when completed, 0 when planning, and 0 on the first day of a longer window |
| Iterations.ProgressMonotone | src/pages/project/Iterations.tsx:293-313 | progress never goes back as days pass |
| Iterations.ProgressHalfWay | src/pages/project/Iterations.tsx:303-311 | on the middle day of any window of an even number of days the bar shows 50 |
| Iterations.ProgressSingleDayToday | src/pages/project/Iterations.tsx:303-311 | a one-day window has no value on its day, 0 the day before and 100 the day after |
| Iterations.CurrentIteration | src/pages/project/Iterations.tsx:161-168 | the first iteration in list order whose window holds today; none exactly when no window does |
| Iterations.CurrentIsRunning | src/pages/project/Dashboard.tsx:73-81 | the current iteration always shows as running |
| Iterations.TotalOf | src/pages/project/Iterations.tsx:178-186 | a missing list counts 0 items, a loaded one its length |
| Iterations.DoneOf | src/pages/project/Iterations.tsx:179-185 | the closed count is 0 for a missing list and otherwise the number of closed items, never more than the total |
| Iterations.StatsOf | src/pages/project/Iterations.tsx:156-200 | the totals are sums over the three types, done never exceeds total, and progress is their rounded share (0 without items) |
| Iterations.StatsOfMerged | src/pages/project/Iterations.tsx:178-189 | the card's totals are the counts of the three lists merged |
| Iterations.CurrentIterationCard | src/pages/project/Iterations.tsx:156-200 | a card exactly when there is a current iteration, with that iteration's statistics |
| Iterations.EndDateValid | src/pages/project/Iterations.tsx:548-554 | the end-date rule rejects exactly an end date before the start date; a missing date or equal dates pass |
| Iterations.EndDateRule | src/pages/project/Iterations.tsx:548-554 | the rule accepts the one-day window, whose progress is undefined on its day |
| Iterations.ButtonsDisabled | src/pages/project/Iterations.tsx:376-390 | the edit and plan buttons are disabled exactly when the handlers refuse the iteration as locked |
| Iterations.LockAction | src/pages/project/Iterations.tsx:268-275 | the lock button unlocks a locked iteration and locks any other |
| Iterations.LockActionToggles | src/pages/project/Iterations.tsx:268-275 | after the toggle, the next action undoes it |
| Iterations.IterationsPage.constructor | src/pages/project/Iterations.tsx:73-80 | the page starts with both modals closed, nothing edited or selected, and an empty form |
| Iterations.IterationsPage.ShowModal | src/pages/project/Iterations.tsx:215-228 | editing loads the iteration's dates; creating clears them; the modal opens |
| Iterations.IterationsPage.HandleCancel | src/pages/project/Iterations.tsx:230-234 | the modal closes, forgets the edited iteration and clears the form |
| Iterations.IterationsPage.HandleSubmit | src/pages/project/Iterations.tsx:236-256 | nothing unless both dates are set in order; a locked iteration is refused; an edited one is updated; otherwise one is created unlocked in the route's project |
| Iterations.IterationsPage.HandlePlanIteration | src/pages/project/Iterations.tsx:258-266 | a locked iteration shows an error and the plan modal stays as it was; otherwise it is selected and the modal opens |
| PlanIteration.ShouldFetch | src/components/iteration/PlanIterationModal.tsx:57 | the unassigned items load exactly while the modal is visible for a non-zero project |
| PlanIteration.PlanIterationModal.constructor | src/components/iteration/PlanIterationModal.tsx:42-50 | nothing is selected at first |
| PlanIteration.PlanIterationModal.OkDisabled | src/components/iteration/PlanIterationModal.tsx:290-291 | OK is enabled exactly with an iteration and at least one ticked id in some tab |
| PlanIteration.PlanIterationModal.SelectRequirements | src/components/iteration/PlanIterationModal.tsx:85-90 | only the requirement selection is replaced |
| PlanIteration.PlanIterationModal.SelectTasks | src/components/iteration/PlanIterationModal.tsx:92-97 | only the task selection is replaced |
| PlanIteration.PlanIterationModal.SelectDefects | src/components/iteration/PlanIterationModal.tsx:99-104 | only the defect selection is replaced |
| PlanIteration.PlanIterationModal.HandleSubmit | src/components/iteration/PlanIterationModal.tsx:106-121 | no call without an iteration, a warning with nothing selected, and an assignment of the whole selection exactly when the OK button is enabled |
| PlanIteration.PlanIterationModal.OnAssignSuccess | src/components/iteration/PlanIterationModal.tsx:66-71 | a successful assignment clears the selection |
| PlanIteration.PlanIterationModal.OnVisibleChange | src/components/iteration/PlanIterationModal.tsx:78-83 | opening clears the selection; hiding keeps it |
| PlanIteration.ClearedSelectionDisablesOk | src/components/iteration/PlanIterationModal.tsx:291 | after a clear, OK stays disabled until something is ticked |
| PlanIteration.OkClick | src/components/iteration/PlanIterationModal.tsx:289-294 | a click reaches `handleSubmit` only through a shown, enabled OK button, and then assigns the selection to the iteration; otherwise nothing happens |
| PlanIteration.NeverAssignsAsWritten | src/components/iteration/PlanIterationModal.tsx:289-294 | with `footer={null}` there is no OK button, so the modal never assigns anything |
| PlanIteration.AssignsWithDefaultFooter | src/components/iteration/PlanIterationModal.tsx:289-294 | with the default footer an enabled OK button assigns the modal's selection to the iteration |
| ProjectList.TrimmedOrNull | src/pages/projects/ProjectList.tsx:48 | `trim() \|\| null` is null exactly for all-whitespace text, else the non-empty trimmed text |
| ProjectList.CreateRequest | src/pages/projects/ProjectList.tsx:39-50 | no request for an all-whitespace name; otherwise the trimmed name, the trimmed description or null, and the user as creator |
| ProjectList.WithoutId | src/pages/projects/ProjectList.tsx:69 | the filtered list holds exactly the projects with another id |
| ProjectList.WithoutAbsentId | src/pages/projects/ProjectList.tsx:69 | deleting an id no project has leaves the list as it was |
| ProjectList.WithoutIdAppend | src/pages/projects/ProjectList.tsx:69 | filtering a list with one more project filters the list and then that project |
| ProjectList.ProjectListPage.constructor | src/pages/projects/ProjectList.tsx:9-15 | the page starts loading, with no projects, no error and an empty, closed form |
| ProjectList.ProjectListPage.LoadProjects | src/pages/projects/ProjectList.tsx:19-33 | a loaded list replaces the projects; a failure keeps them and shows the load error; loading ends |
| ProjectList.ProjectListPage.HandleCreateProject | src/pages/projects/ProjectList.tsx:39-63 | sends the create request; a created project is appended and the form closes and clears; a failure keeps the list and shows the error |
| ProjectList.ProjectListPage.HandleDeleteProject | src/pages/projects/ProjectList.tsx:65-78 | a deletion removes exactly the projects with that id; a failure keeps them and shows the error |
| ProjectDetail.DescriptionText | src/pages/projects/ProjectDetail.tsx:33 | `description \|\| ''`: the description, or empty text when there is none |
| ProjectDetail.Merged | src/pages/projects/ProjectDetail.tsx:59-62 | the updated project replaces the old one and its related lists are kept |
| ProjectDetail.UpdateRequest | src/pages/projects/ProjectDetail.tsx:49-57 | no request without a project or with an all-whitespace name; otherwise the project's id, the trimmed name and the trimmed description or null |
| ProjectDetail.ProjectDetailPage.constructor | src/pages/projects/ProjectDetail.tsx:18-23 | the page starts loading, with no project, no error, edit mode off and empty fields |
| ProjectDetail.ProjectDetailPage.LoadProjectDetails | src/pages/projects/ProjectDetail.tsx:25-41 | a loaded project is shown and copied into the edit fields; a failure keeps the page and shows the error |
| ProjectDetail.ProjectDetailPage.StartEdit | src/pages/projects/ProjectDetail.tsx:137 | edit mode turns on and nothing else changes |
| ProjectDetail.ProjectDetailPage.HandleUpdateProject | src/pages/projects/ProjectDetail.tsx:49-72 | sends the update request; on success the project is merged and edit mode ends; on failure the page keeps its state and shows the error |
| ProjectDetail.ProjectDetailPage.CancelEdit | src/pages/projects/ProjectDetail.tsx:152-156 | edit mode ends and the fields show the project again |
| ProjectLayout.SelectedKey | src/pages/project/ProjectLayout.tsx:46-57 | the first menu word the path includes selects its entry; a path with none selects the dashboard |
| ProjectLayout.MenuLink | src/pages/project/ProjectLayout.tsx:22-43 | each menu link is `/project/<id>` followed by its entry's suffix |
| ProjectLayout.NotIncluded | src/pages/project/ProjectLayout.tsx:46-57 | a path in which no slash is followed by the word's first letter does not include the word |
| ProjectLayout.SlashFollowers | src/pages/project/ProjectLayout.tsx:22-43 | in a menu link, a slash is followed only by 'p', a digit, or the entry's own first letter |
| ProjectLayout.IncludesOwnSuffix | src/pages/project/ProjectLayout.tsx:22-43 | each menu link includes its own suffix |
| ProjectLayout.SelectedKeyOfLink | src/pages/project/ProjectLayout.tsx:22-57 | following a menu link for a numeric project id selects that same menu entry |
| AppLayout.SelectedKey | src/components/AppLayout.tsx:136-143 | home exactly for '/' and '/home', projects exactly for other paths including '/project', nothing otherwise |
| AppLayout.ProjectPagesSelectProjects | src/components/AppLayout.tsx:136-143 | every project menu link selects the projects entry of the main menu |
| AppLayout.UserName | src/components/AppLayout.tsx:102 | the user's email when there is one, otherwise the placeholder name; never empty |
| AppLayout.UserInitial | src/components/AppLayout.tsx:103 | one character: the upper-cased first letter of the email, or 'U' without one |
| AppLayout.InitialOfName | src/components/AppLayout.tsx:102-103 | the avatar initial is the upper-cased first letter of the name shown beside it |
| DetailDrawer.TypeInfoOf | src/components/workitem/WorkItemDetailDrawer.tsx:94-121 | each work-item type gets its own title and colour |
| DetailDrawer.TypeInfoDistinct | src/components/workitem/WorkItemDetailDrawer.tsx:94-121 | different types never share a title or a colour |
| DetailDrawer.RequirementText | src/components/workitem/WorkItemDetailDrawer.tsx:160-170 | a non-zero requirement id is shown as its number, anything else as '-' |
| DetailDrawer.TypeFieldsOf | src/components/workitem/WorkItemDetailDrawer.tsx:145-175 | the type fields show the priority tag, the priority and requirement, or the blocking tag, read from the row |
| DetailDrawer.AssigneeOf | src/components/workitem/WorkItemDetailDrawer.tsx:229-243 | unassigned exactly for a missing or empty assignee; otherwise the name with its upper-cased initial |
| DetailDrawer.View | src/components/workitem/WorkItemDetailDrawer.tsx:73-263 | no drawer content without an item; otherwise its type, status label, title, description or placeholder, type fields, assignee, and the creation, start and end times or '-' |
| DetailDrawer.ViewOfOwnType | src/components/workitem/WorkItemDetailDrawer.tsx:145-175 | shown with its own type, an item's priority or blocking level appears as its tag |
| DetailDrawer.ViewOfOtherType | src/components/workitem/WorkItemDetailDrawer.tsx:123-143 | read as another type, a missing priority shows as low and a missing blocking level as none |
| UserStore.WithMcpConfig | src/store/userStore.ts:18-22 | without a configuration nothing changes; otherwise only the MCP configuration is replaced |
| UserStore.WithMcpConfigLastWins | src/store/userStore.ts:18-22 | two updates in a row leave the second one |
| UserStore.UserStore.constructor | src/store/userStore.ts:13-15 | the store starts without user info or configuration |
| UserStore.UserStore.SetUserInfo | src/store/userStore.ts:16 | replaces the user info only |
| UserStore.UserStore.SetUserConfig | src/store/userStore.ts:17 | replaces the configuration only |
| UserStore.UserStore.UpdateMcpConfig | src/store/userStore.ts:18-22 | the configuration becomes its MCP update and the user info is kept |
| AuthStore.AuthStore.PersistedState | src/store/authStore.ts:139-143 | only the user, the session and the authenticated flag are persisted |
| AuthStore.AuthStore.constructor | src/store/authStore.ts:24-28 | the store starts signed out, idle, without error, with authentication matching the session |
| AuthStore.AuthStore.Start | src/store/authStore.ts:32 | loading starts and the error clears, the identity is kept |
| AuthStore.AuthStore.Fail | src/store/authStore.ts:44-50 | the message is stored, loading ends and the identity is kept |
| AuthStore.AuthStore.SignUp | src/store/authStore.ts:30-52 | success stores the user and session and sets authentication from the session; failure stores and rethrows the message; authentication always matches the session |
| AuthStore.AuthStore.SignIn | src/store/authStore.ts:54-76 | success stores the user and session and authenticates; failure stores and rethrows the message |
| AuthStore.AuthStore.SignOut | src/store/authStore.ts:78-97 | success clears user, session and authentication; failure stores and rethrows the message |
| AuthStore.AuthStore.ResetPassword | src/store/authStore.ts:99-115 | the identity is never changed; failure stores and rethrows the message |
| AuthStore.AuthStore.RefreshSession | src/store/authStore.ts:117-135 | the refreshed session and its user replace the old ones; a failure is stored but not rethrown |
| Register.Validate | src/pages/auth/register.tsx:43-57 | missing fields, then a mismatch, then a password shorter than 6, each with its message; no message exactly when all checks pass |
| Register.FailureText | src/pages/auth/register.tsx:76 | the error's message, or the generic failure text when it is empty |
| Register.RegisterPage.constructor | src/pages/auth/register.tsx:15-21 | the form starts empty with no messages |
| Register.RegisterPage.HandleSubmit | src/pages/auth/register.tsx:38-81 | signs up exactly when validation passes; success shows the success text and clears the form; failure shows the error; a refused form shows its message |
| UserConfigEditor.McpOrEmpty | src/components/user/UserConfigEditor.tsx:24-25 | a truthy configuration is shown as is, anything else as `{}` |
| UserConfigEditor.FailureToast | src/components/user/UserConfigEditor.tsx:72-74 | the failure toast carries the error's message, or the unknown-error text |
| UserConfigEditor.Editor.constructor | src/components/user/UserConfigEditor.tsx:16-19 | the editor starts idle, empty and without a JSON error |
| UserConfigEditor.Editor.SaveDisabled | src/components/user/UserConfigEditor.tsx:99 | the save button is disabled exactly while the text is marked invalid or a save is loading |
| UserConfigEditor.Editor.OnOpen | src/components/user/UserConfigEditor.tsx:21-29 | opening with a user and a configuration shows the configuration's MCP part, pretty-printed |
| UserConfigEditor.Editor.EditorChange | src/components/user/UserConfigEditor.tsx:31-44 | an edit stores the text and sets or clears the JSON error by whether it parses; an empty edit keeps the error |
| UserConfigEditor.Editor.HandleSave | src/components/user/UserConfigEditor.tsx:46-78 | nothing with a JSON error or no user; an unparsable text shows the format error; otherwise saves, stores the answer, toasts and closes, or toasts the failure |
| AgentTools.Envelope | src/mastra/tools/task.ts:46-55 | `{success: true, ...}` exactly when the call returned, with its result; otherwise the error's message |
| AgentTools.StatusOrOpen | src/mastra/tools/task.ts:29 | the given status, or 'open' |
| AgentTools.PriorityOrMedium | src/mastra/tools/task.ts:28 | the given priority, or 'medium' |
| AgentTools.BlockingOrLow | src/mastra/tools/defect.ts:27 | the given blocking level, or 'low' |
| AgentTools.CreateRow | src/mastra/tools/task.ts:22-37 | the new requirement or task row carries the project id through `Number`, the title and description as given, and the priority and status or their defaults |
| AgentTools.CreateDefectRow | src/mastra/tools/defect.ts:21-37 | the new defect row carries the blocking level and status or 'low' and 'open' |
| AgentTools.CreateRowProject | src/mastra/tools/requirement.ts:24 | a project id written in decimal reaches the new row unchanged |
| AgentTools.TruthyOnly | src/mastra/tools/requirement.ts:88-96 | the reference truthy filter: every value the update holds is truthy (its keys are stated by AgentTools.TruthyOnlySound) |
| AgentTools.TruthyOnlySound | src/mastra/tools/requirement.ts:88-96 | only truthy arguments reach the update, each under its own key, and every truthy argument's key is there |

| AgentTools.TruthyOnlyStep | src/mastra/tools/requirement.ts:88-96 | each `if` extends the update by its field exactly when the argument is truthy |
| AgentTools.TruthyOnlyExact | src/mastra/tools/requirement.ts:88-96 | with distinct keys, a field is in the update exactly when its argument is truthy, with that argument's value |
| AgentTools.OptPriority | src/mastra/tools/requirement.ts:92-93 | an omitted priority is `undefined`; a given one is its stored name, which is truthy |
| AgentTools.OptStatus | src/mastra/tools/requirement.ts:94-95 | an omitted status is `undefined`; a given one is its stored name, which is truthy |
| AgentTools.OptBlocking | src/mastra/tools/defect.ts:92-93 | an omitted blocking level is `undefined`; a given one is its stored name, which is truthy |
| AgentTools.PutTruthy | src/mastra/tools/requirement.ts:88-96 | one `if` step: the update built so far grows by the next field exactly as the truthy filter says |
| AgentTools.PutFour | src/mastra/tools/requirement.ts:88-96 | four `if`s in a row build exactly the truthy-filtered update of their four fields |
| AgentTools.PutFive | src/mastra/tools/task.ts:89-99 | five `if`s in a row build exactly the truthy-filtered update of their five fields |
| AgentTools.RequirementUpdates | src/mastra/tools/requirement.ts:86-98 | the requirement update sends `Number(id)` and the truthy arguments among title, description, priority and status |
| AgentTools.DefectUpdates | src/mastra/tools/defect.ts:86-98 | the defect update sends `Number(id)` and the truthy arguments among title, description, blocking level and status |
| AgentTools.TaskUpdates | src/mastra/tools/task.ts:87-101 | the task update sends `Number(id)` and the truthy arguments among title, description, assignee (as `assigned_to`), priority and status |
| AgentTools.TruthyOnlyKeys | src/types/supabase.ts:166-179 | an update built from columns of a table only writes columns of that table |
| AgentTools.RequirementUpdateExact | src/mastra/tools/requirement.ts:88-96 | each requirement field is updated exactly when its argument is given and non-empty, with that value, and only requirement columns are written |
| AgentTools.DefectUpdateExact | src/mastra/tools/defect.ts:88-96 | each defect field is updated exactly when its argument is given and non-empty, with that value, and only defect columns are written |
| AgentTools.AssigneeKeyNotAColumn | src/mastra/tools/task.ts:94-95 | as written, a given assignee puts the key `assignee` in the update, which is not a column of the tasks table |
| AgentTools.TaskUpdateExact | src/mastra/tools/task.ts:88-99 | each task field, the assignee under `assigned_to`, is updated exactly when its argument is given and non-empty, and only task columns are written |
| AgentTools.GetTool | src/mastra/tools/task.ts:46-55 | the tool looks up `Number(id)` and reports the row or the error |
| AgentTools.GetToolDecimalId | src/mastra/tools/requirement.ts:48 | an id written in decimal is looked up as that number |
| AgentTools.ListTool | src/mastra/tools/task.ts:64-73 | the list tool reports every row or the error, whatever its placeholder argument |
| AgentTools.CreateIterationRow | src/mastra/tools/iteration.ts:19-23 | the new iteration has the project id through `Number` and both dates as given |
| AgentTools.Mapped | src/mastra/tools/iteration.ts:47-49 | `xs.map(f)` has the length of `xs` and holds `f` of each element, in order |
| AgentTools.Numbers | src/mastra/tools/iteration.ts:47-49 | each id text is converted through `Number`, in order |

| AgentTools.NumbersOf | src/mastra/tools/iteration.ts:47-49 | an omitted list becomes empty; a given one is converted element by element |
| AgentTools.AddItemsArgs | src/mastra/tools/iteration.ts:42-51 | the iteration id through `Number` and the three id lists converted, or empty when omitted |
| AgentTools.NumbersOfDecimals | src/mastra/tools/iteration.ts:47-49 | ids written in decimal arrive as those numbers, in order |

## Left out

- Network and database calls are not modelled. This covers the API modules under `src/api` and the auth provider. Each call is a parameter or an `Outcome` argument. Loading and refetching (`useRequest`, `refresh`) are not modelled.
- Locale formatting is not modelled: `toLocaleString` and `toLocaleDateString` pass times through as text. The clock is a parameter: "today" is a day number and "now" is text.
- Dates of iterations are day numbers. The code compares 'YYYY-MM-DD' strings; for well-formed dates that order is the order of days.
- Js.ToNumber: `Number(text)` is modelled only for blank text and decimal digits; everything else is NaN. Signs, fractions, exponents and hexadecimal, which JavaScript reads as numbers, are not modelled.
- The agent tools' input-schema validation (zod) is assumed to have run. The enum arguments hold enum values.
- Navigation and timers are not modelled. This covers the sign-up redirect three seconds after success, `navigate` after login and the route guards. The list pages' effect that opens the drawer from `?id=` is not modelled either.
- Console logging and the `message` toasts on the list and iteration pages are not modelled. The toasts of the configuration editor and the planning modal's warning are modelled.
- `assignWorkItemsToIteration` and the iteration lock and unlock APIs are called but not defined among the available files, so only the call each handler makes is modelled.
- Pages and components outside the core are not modelled. This covers login, password reset, the home page, the assistant integration, the mastra agents, the styles, and the page wrappers that feed `WorkitemTable`.
- WorkitemTable.IterationOptions: the caption is the iteration's `name`, which the iterations table does not have. The model keeps this as whatever the row holds, usually `undefined`.
- Register.Validate: password length is counted in characters. JavaScript counts UTF-16 code units, so the two differ only for characters outside the Basic Multilingual Plane.
- Dashboard.RecentItems: the contract does not fix the order of items with equal creation times. JavaScript's stable sort keeps their merged order.
- Iterations.Progress: a one-day window on its day yields NaN in the code. The model returns `None` for it and says nothing about how the progress bar shows NaN.
- Iterations.IterationsPage.HandleSubmit: the form validation is taken as given by the two date fields. Field-level messages and the date-picker conversion are not modelled.
- PlanIteration.PlanIterationModal.HandleSubmit: the modal sets `footer={null}` and renders no button of its own, and `handleSubmit` is bound only to `onOk`. As written it can never run (see Findings); the method models the handler's guard and call for a footer that shows the OK button.
- Percent.RoundPercent: the rounding is exact, while JavaScript computes `n / d * 100` in doubles first. The two differ when the double product falls just below a half: 23 of 40 gives 57.49999999999999 and rounds to 57 in JavaScript, where the model gives 58; 29 of 200 gives 14 against 15. WorkItemStats.CompletionPercent, Dashboard.TypePercent, Dashboard.CompletionRate, Iterations.StatsOf and Iterations.Progress inherit this.
- Js.UpperChar: case mapping is ASCII-only. JavaScript's `toUpperCase` also maps other letters ('é' to 'É') and can lengthen text ('ß' to 'SS').
- AppLayout.UserInitial: the initial is upper-cased by the ASCII-only Js.UpperChar, so a non-ASCII first letter is shown unchanged and 'ß' stays one character.
- DetailDrawer.AssigneeOf: the avatar initial is upper-cased by the ASCII-only Js.UpperChar, with the same difference for non-ASCII letters.
- Layout rendering, styling, icons and tooltips are not modelled.

## Findings

| source | as written | input that shows it | evidently intended | confidence | as-written member | corrected member |
|---|---|---|---|---|---|---|
| src/mastra/tools/task.ts:94-95 | the task update writes the assignee under the key `assignee`, which is not a column of the tasks table (src/types/supabase.ts:228-242) | `updateTask` with `taskId: "1"` and `assignee: "u1"` | the assignee goes under the tasks table's `assigned_to` column | not executed | AgentTools.AssigneeKeyNotAColumn | AgentTools.TaskUpdateExact |
| src/components/iteration/PlanIterationModal.tsx:289-294 | `handleSubmit` is bound only to `onOk`, but `footer={null}` hides the OK button and the modal renders no other button, so the handler is unreachable | open the modal on an iteration and tick any requirement: there is no button to click | the footer shows the OK button, guarded by the disabled condition, so that an enabled click assigns the selection | not executed | PlanIteration.NeverAssignsAsWritten | PlanIteration.AssignsWithDefaultFooter |
