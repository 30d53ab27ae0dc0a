# Daily reports, task table and sidebar: a Dafny model

This project models the daily-report feature of a task-management web
application. It also models two pieces of client logic that sit beside it.

The feature has a server side and a client side:

- **Server.** The `DailyReport` document schema, and the five HTTP handlers
  that list, create, update and delete reports. The update handler also
  mails the report's owner.
- **Client.** Two report pages:
  - the user's own daily-report page: write, edit, change status, delete;
  - the admin's per-user report page: remarks, and a spreadsheet download.

The two neighbouring pieces of client logic are:

- the task table's filter and its spreadsheet export;
- the sidebar's role-based link list and its active-link test.

Layout, one module per file:

- `basics.dfy` (`Basics`): the shared vocabulary.
  - `Option`/`Result`, document ids, and spreadsheet rows as (column, cell) pairs.
  - JavaScript's `value || fallback` on an optional string.
  - A generic order-preserving `Filter`, with its laws proved once and reused.
- `strings.dfy` (`Strings`): JavaScript's `join`, one-character `split` and `trim`.
- `daily_report_schema.dfy` (`DailyReportSchema`): the stored report, and the
  validation and defaults applied by the schema constructor.
- `daily_report_controller.dfy` (`DailyReportController`): the handlers. They
  are methods of a class `ReportStore`, which holds:
  - the collection, as a `map` from id to report;
  - the user directory;
  - an `outbox` sequence standing for the mail transporter.
- `task_table.dfy` (`TaskTable`): the task filter, the two Clear buttons and
  the task export.
- `client_reports.dfy` (`ClientReports`): what both report pages share:
  - the report as page state holds it;
  - the in-place newest-first sort, on an `array`;
  - the list updates;
  - the display placeholders;
  - the requests the pages send.
- `daily_report_page.dfy` (`DailyReportPage`): the user's page, as a class
  `DailyReportView` whose fields are the component state.
- `user_reports_page.dfy` (`UserReportsPage`): the admin's page, as a class
  `UserReportsView`, plus its spreadsheet export.
- `sidebar.dfy` (`Sidebar`): link selection and highlighting.

Modelling choices:

- **Timestamps.** They are integers.
- **Date formatting** (`formatDate`, `toLocaleString`). It is a function the
  caller supplies.
- **HTTP outcomes.** In the page classes the outcome of each HTTP call is a
  boolean parameter `ok`. Every request a page sends is appended to its
  `sent` field.
- **Mail.** Queuing a mail appends it to `ReportStore.outbox`.
- **Absent keys.** A key left out of an update body (`undefined`) leaves the
  stored field unchanged. This is how current versions of the ODM treat
  undefined keys in an update, and the model takes it as an assumption.
- **`date`.** `createReport` passes a `date` key, but the schema does not
  declare it, so it never reaches the stored document.

Behaviours of the handlers and pages that the model keeps as written:

- A create that fails validation answers 500, because the handler's catch
  turns every error into 500.
- Deleting an id that does not exist answers 200.
- An update mails the owner whenever the owner exists, whether or not a
  remark was sent. Without a remark, the body reads "Remark: undefined".
- `status` is a free string. The schema has no enum; the four values the
  client offers are only a convention.
- A missing owner answers 404 only after the status/remark write has been
  applied.
- The update handler writes only `status` and `remark`, so the content
  edit the user's page sends never reaches the store. The page still shows
  the new content locally.
- The admin page keeps the whole body of the user lookup as `userData`.
  That body carries the user document under a `user` key, which the page's
  title reads. The download, however, is named from a top-level `name` key.
  Unless the body also has such a key, the file is "User_Reports.xlsx"
  (`UserReportsPage.FileNameIgnoresUserDocument`).

## Model

| member | source | states |
|---|---|---|
| DailyReportSchema.MissingPaths | server/models/DailyReport.js:5-20 | `content` fails validation exactly when missing or empty, `userId` exactly when missing; no other path is required |
| DailyReportSchema.Build | server/models/DailyReport.js:3-23 | a document is built iff content is non-empty and the owner is given; otherwise the error lists exactly the failing paths; status defaults to "Todo", remark stays absent unless given, both timestamps are the creation instant |
| DailyReportSchema.BuildWellFormed | server/models/DailyReport.js:5-15 | every accepted report has content; without a status it is "Todo"; without a remark it has none |
| DailyReportSchema.StatusUnconstrained | server/models/DailyReport.js:9-12 | any status string is accepted and stored as given |
| DailyReportController.RemarkText | server/controllers/dailyReportController.js:80 | the remark as sent, or "undefined" when the request has none (template-literal rendering) |
| DailyReportController.UpdateMailText | server/controllers/dailyReportController.js:76-81 | the mail body is the fixed sentence followed by the remark, or by "undefined" when no remark was sent |
| DailyReportController.ApplyUpdate | server/controllers/dailyReportController.js:56-60 | an update changes only status and remark (an absent key keeps the stored value) and stamps updatedAt; id, content, owner and createdAt never change |
| DailyReportController.ApplyUpdateKeepsWellFormed | server/controllers/dailyReportController.js:52-60 | an update keeps a valid report valid |
| DailyReportController.StatusTransitionsFree | server/controllers/dailyReportController.js:56-60 | any status may follow any other, and a status-only update keeps the remark |
| DailyReportController.ReportStore.FindByOwner | server/controllers/dailyReportController.js:27 | the result holds exactly the stored reports of that owner, each once |
| DailyReportController.ReportStore.GetAllReports | server/controllers/dailyReportController.js:13-21 | 200 with exactly the stored reports whose owner is the query's user id |
| DailyReportController.ReportStore.GetDailyReports | server/controllers/dailyReportController.js:23-33 | 200 with exactly the stored reports whose owner is the path's user id, no document twice |
| DailyReportController.ReportStore.CreateReport | server/controllers/dailyReportController.js:35-48 | without content or owner: 500 listing the failing paths, store unchanged; otherwise one new report under a fresh id with the given content and owner, status "Todo", no remark, answered 201 with the saved report; no mail; store invariant kept |
| DailyReportController.ReportStore.UpdateReport | server/controllers/dailyReportController.js:50-99 | unknown id: 404 "Report not found", nothing changes; known id: the write is applied first; owner missing: 404 "User not found", no mail; owner found: 200 with the post-update record and exactly one mail to the owner's address, with the fixed sender and subject |
| DailyReportController.ReportStore.DeleteReport | server/controllers/dailyReportController.js:101-109 | always 200 "Report deleted successfully"; afterwards the id is gone and every other report is untouched |
| DailyReportController.LifecycleScenario | server/controllers/dailyReportController.js:35-109 | a create, three status changes (the last with remark ""), and two deletes of the same id: three mails are queued, content never changes, and the second delete still answers 200 |
| Strings.Join | client/src/components/task/Table.jsx:70 | joining nothing gives "", and joining one part gives that part |
| Strings.Split | client/src/components/Sidebar.jsx:71 | a split has at least one piece, and no piece contains the separator |
| Strings.JoinSplit | client/src/components/Sidebar.jsx:71 | joining the pieces of a split with the separator gives the string back |
| Strings.SplitFirst | client/src/components/Sidebar.jsx:87 | the first piece is everything before the first separator, and there is a second piece iff a separator occurs |
| Strings.TrimStart | client/src/pages/DailyReport.jsx:36 | the result is a suffix that starts with a non-blank character, and only whitespace was removed |
| Strings.TrimEnd | client/src/pages/DailyReport.jsx:36 | the result is a prefix that ends with a non-blank character, and only whitespace was removed |
| Strings.SplitWithoutSeparator | client/src/components/Sidebar.jsx:87 | a string without the separator splits into itself alone |
| Strings.Trim | client/src/pages/DailyReport.jsx:36 | the trimmed content is no longer than the content, and is empty iff the content is all whitespace |
| TaskTable.Keep | client/src/components/task/Table.jsx:52-61 | the filter callback; with no criteria every task passes, and with a stage chosen a task without a stage fails; characterised fully by KeepIff |
| TaskTable.KeepIff | client/src/components/task/Table.jsx:57-60 | a task is kept iff start <= createdAt when a start is set, createdAt <= end when an end is set, and its stage equals the chosen stage when one is chosen |
| TaskTable.FilterTasks | client/src/components/task/Table.jsx:52-61 | every task kept is from the input and passes the criteria |
| TaskTable.FilterNoCriteria | client/src/components/task/Table.jsx:52-61 | with no criteria the filter returns its input |
| TaskTable.FilterTasksIdempotent | client/src/components/task/Table.jsx:52-61 | filtering twice with the same criteria is filtering once |
| TaskTable.FilterTasksSubsequence | client/src/components/task/Table.jsx:52-61 | the result is an order-preserving subsequence of the input; a passing task survives as often as it occurs, and a failing one is gone |
| TaskTable.FilterInvertedRange | client/src/components/task/Table.jsx:57-58 | a start later than the end keeps nothing |
| TaskTable.ClearDates | client/src/components/task/Table.jsx:43-46 | the date Clear empties both bounds and keeps the stage |
| TaskTable.ClearStage | client/src/components/task/Table.jsx:48-50 | the stage Clear selects "All" and keeps both bounds |
| TaskTable.ClearStageKeepsDatesOnly | client/src/components/task/Table.jsx:48-50 | after the stage Clear only the date bounds decide |
| TaskTable.ClearDatesKeepsStageOnly | client/src/components/task/Table.jsx:43-46 | after the date Clear only the stage decides |
| TaskTable.ClearBothShowsAll | client/src/components/task/Table.jsx:43-50 | both Clears, in either order, show every task |
| TaskTable.MemberNames | client/src/components/task/Table.jsx:70 | one name per member, in team order |
| TaskTable.TeamCell | client/src/components/task/Table.jsx:70 | the Team cell is undefined exactly when the task has no team; an empty team gives "", a one-member team that member's name |
| TaskTable.StageCell | client/src/components/task/Table.jsx:71 | the Status cell is undefined exactly when the task has no stage, and otherwise the stage verbatim |
| TaskTable.TaskRow | client/src/components/task/Table.jsx:66-72 | an export row has the five columns Task Title, Assigned Date, Due Date, Team, Status, in that order |
| TaskTable.TaskRows | client/src/components/task/Table.jsx:66 | one row per task, in task order |
| TaskTable.DownloadExcel | client/src/components/task/Table.jsx:64-87 | the workbook is task_list.xlsx, its sheet "Tasks", and it has one row per filtered task |
| TaskTable.ExportRowsFollowFilter | client/src/components/task/Table.jsx:66-72 | row i is filtered task i: fixed columns, a missing or empty title as "No title", formatted dates, team names joined by ", ", and the stage verbatim |
| TaskTable.ExportWithoutCriteria | client/src/components/task/Table.jsx:52-72 | with no criteria the export has exactly one row per task |
| TaskTable.TeamJoin | client/src/components/task/Table.jsx:70 | a one-member team exports as that name; two members are separated by ", " |
| ClientReports.SortKey | client/src/pages/DailyReport.jsx:24 | a report's instant is its createdAt when present, else its dateTime; it has one iff either is present |
| ClientReports.SortNewestFirst | client/src/pages/DailyReport.jsx:23-25 | the array sorted in place: newest first by createdAt, falling back to dateTime, and a permutation of the original |
| ClientReports.SortedCopy | client/src/pages/UserReports.jsx:20-22 | the fetched list newest first by createdAt, falling back to dateTime, and holding the same reports |
| ClientReports.ReplaceContent | client/src/pages/DailyReport.jsx:42-46 | same length and order; the report with the id gets the new content and keeps every other field; every other report is unchanged |
| ClientReports.SetStatus | client/src/pages/DailyReport.jsx:108-110 | same length and order; only the report with the id changes, and only in its status |
| ClientReports.SetRemark | client/src/pages/UserReports.jsx:37-41 | same length and order; the report with the id gets the remark and an empty draft; everything else is unchanged |
| ClientReports.SetDraft | client/src/pages/UserReports.jsx:176-182 | same length and order; only the draft of the report with the id changes |
| ClientReports.UpdatesKeepIds | client/src/pages/DailyReport.jsx:42-46 | no list update moves a report: the id at every position is kept |
| ClientReports.SubmitThenDraftIsEmpty | client/src/pages/UserReports.jsx:39 | after a remark submission the row's draft is empty and it shows the remark, or "No remark yet" for "" |
| ClientReports.RemoveById | client/src/pages/DailyReport.jsx:129 | a report remains iff it was there and has a different id |
| ClientReports.RemoveByIdKeepsOthers | client/src/pages/DailyReport.jsx:129 | deletion keeps the other reports in order, each as often as before, and removes all reports with the id |
| ClientReports.DisplayStatus | client/src/pages/DailyReport.jsx:218 | the status when non-empty; "Todo" when it is missing or "" |
| ClientReports.DisplayRemark | client/src/pages/DailyReport.jsx:269 | the remark when non-empty; "No remark yet" when it is missing or ""; never empty |
| ClientReports.DisplayDate | client/src/pages/DailyReport.jsx:213 | a report with an instant shows that instant formatted by the caller's toLocaleString; one without shows "Invalid Date" |
| ClientReports.DraftOf | client/src/pages/UserReports.jsx:189 | the typed draft, or "" when nothing was typed |
| DailyReportPage.Toggle | client/src/pages/DailyReport.jsx:145-147 | the menu of the row opens iff it was not already open on that row, and closes iff it was |
| DailyReportPage.ToggleLaws | client/src/pages/DailyReport.jsx:145-147 | clicking the same menu twice returns to where it started when it was closed or already open on that row; opening a second row closes the first, since at most one row is open |
| DailyReportPage.TableRow | client/src/pages/DailyReport.jsx:209-269 | a table row has the six display columns in order |
| DailyReportPage.TableRows | client/src/pages/DailyReport.jsx:204 | one row per report, in list order |
| DailyReportPage.TableRowPlaceholders | client/src/pages/DailyReport.jsx:209-269 | row i is numbered i + 1; a missing status shows "Todo", a missing remark "No remark yet", and the remark cell is never empty |
| DailyReportPage.DailyReportView.FetchReports | client/src/pages/DailyReport.jsx:20-31 | on success the list is the fetched reports, newest first; on failure the list is kept and the fetch error is shown |
| DailyReportPage.DailyReportView.TypeContent | client/src/pages/DailyReport.jsx:165 | only the text box changes |
| DailyReportPage.DailyReportView.HandleSubmit | client/src/pages/DailyReport.jsx:33-91 | blank content only clears the error; while editing, a PUT with the content and the old remark, and on success only that report's content changes and edit mode ends; otherwise a POST of a "Todo" report with remark "" and the user's id, and on success the box is cleared; each failure shows its message |
| DailyReportPage.DailyReportView.SubmitEdit | client/src/pages/DailyReport.jsx:38-62 | the edit branch of submit, as above |
| DailyReportPage.DailyReportView.SubmitNew | client/src/pages/DailyReport.jsx:64-88 | the new-report branch of submit, as above |
| DailyReportPage.DailyReportView.HandleEdit | client/src/pages/DailyReport.jsx:93-97 | edit mode on that report, its content in the box, menu closed |
| DailyReportPage.DailyReportView.HandleCancelEdit | client/src/pages/DailyReport.jsx:99-103 | edit mode ends and the box is emptied |
| DailyReportPage.DailyReportView.HandleStatusChange | client/src/pages/DailyReport.jsx:105-124 | a PUT with only the status; on success only that report's status changes |
| DailyReportPage.DailyReportView.HandleDelete | client/src/pages/DailyReport.jsx:126-143 | a DELETE; on success exactly the reports with that id leave the list |
| DailyReportPage.DailyReportView.ToggleDropdown | client/src/pages/DailyReport.jsx:145-147 | only the open row changes, as Toggle states |
| UserReportsPage.ExportRow | client/src/pages/UserReports.jsx:90-96 | an export row has the five columns S.no, Report, Date & Time, Status, Remark |
| UserReportsPage.ExportRows | client/src/pages/UserReports.jsx:90 | one row per report, in displayed order |
| UserReportsPage.FileName | client/src/pages/UserReports.jsx:106 | the top-level `name` of the lookup's response body, or "User" when there is no body or that key is missing or empty, followed by "_Reports.xlsx" |
| UserReportsPage.FileNameIgnoresUserDocument | client/src/pages/UserReports.jsx:106-121 | a response with a named `user` document but no top-level `name` still downloads as "User_Reports.xlsx" |
| UserReportsPage.Download | client/src/pages/UserReports.jsx:88-107 | sheet "Reports", the file name above, one row per displayed report |
| UserReportsPage.DownloadRows | client/src/pages/UserReports.jsx:90-96 | row i is numbered i + 1 and holds report i's content, status or "Todo", and remark or "No remark yet" ("" counts as none); there is no Attachment column, though the screen table has one |
| UserReportsPage.UserReportsView.FetchReports | client/src/pages/UserReports.jsx:17-31 | on success the list is the fetched reports, newest first; on failure the fetch error is shown |
| UserReportsPage.UserReportsView.FetchUser | client/src/pages/UserReports.jsx:68-83 | the whole response body on success, the server's message on a refused lookup, a fixed message when unreachable |
| UserReportsPage.UserReportsView.EditDraft | client/src/pages/UserReports.jsx:175-183 | only that report's draft changes |
| UserReportsPage.UserReportsView.HandleRemarkSubmit | client/src/pages/UserReports.jsx:33-64 | a PUT with only the remark; on success the report gets the remark and an empty draft, and nothing else changes |
| UserReportsPage.UserReportsView.SubmitRow | client/src/pages/UserReports.jsx:186-190 | the row's Submit sends its draft, or "" when none was typed; on success only that report's remark and draft change and the error is kept; on failure the list is kept and the remark error is shown |
| Sidebar.SidebarLinks | client/src/components/Sidebar.jsx:73 | admins get all nine links; others get eight, which is every link except Trash |
| Sidebar.SidebarLinksInOrder | client/src/components/Sidebar.jsx:102-104 | either selection keeps the declared order |
| Sidebar.LabelsDistinct | client/src/components/Sidebar.jsx:17-63 | no two links share a label, the key of the rendered list |
| Sidebar.ActiveIff | client/src/components/Sidebar.jsx:87 | a link is highlighted iff the first path segment after the leading "/" equals its link's part before the first "/" |
| Sidebar.PathSegment | client/src/components/Sidebar.jsx:71 | the first segment after the leading "/" holds no "/", and a location without "/" has none |
| Sidebar.LinkHead | client/src/components/Sidebar.jsx:87 | a link's part before its first "/" holds no "/", and a link without "/" is its own head |
| Sidebar.IsActive | client/src/components/Sidebar.jsx:87 | the highlight test; only a location containing "/" can highlight a link; characterised fully by ActiveIff |
| Sidebar.NoSlashNoneActive | client/src/components/Sidebar.jsx:71 | a location without "/" has no first segment and highlights no link |

## Left out

- Network transport. The HTTP layer, routing, axios/fetch calls and JSON encoding are not modelled. On the client each call's outcome is the parameter `ok`; on the server each handler is a method.
- The server's 500 answers for database failures. Only the validation failure of a create is modelled, and it answers 500 like the rest.
- Malformed ids: an id that cannot be cast to a document id makes the server answer 500. Ids here are natural numbers.
- Mail delivery. The transporter's callback can try to answer 500 after the 200 has already been sent. That is a race between two responses and is not modelled. The transporter's credentials are not modelled.
- A missing `userId` query parameter on the list route. What the ODM does with it is version-dependent, so the model always takes a user id.
- DailyReportController.ReportStore.UpdateReport: assumes that keys left `undefined` in the update are dropped, so the stored field is kept; an ODM that writes them as null would clear the field. JSON `null` values in request bodies are not modelled.
- DailyReportController.ReportStore.CreateReport: models only the `content` and `userId` keys of the body; `date` is dropped as the strict schema drops it.
- ClientReports.SortNewestFirst: requires every report to have `createdAt` or `dateTime`. A report with neither gives the comparator NaN, and the resulting order depends on the engine. The order among reports with equal instants is not modelled: the engine's stable sort keeps their fetched order, and the contract leaves it open.
- ClientReports.SortedCopy, DailyReportPage.DailyReportView.FetchReports, UserReportsPage.UserReportsView.FetchReports: carry the same requirement that every fetched report has an instant, and leave the order among equal instants open (the engine's stable sort keeps the fetched order there).
- TaskTable.KeepIff: timestamps are integers. Date parsing, time zones and the Invalid Date that slips past both bounds (NaN compares false) are not modelled.
- Date formatting: `formatDate` and `toLocaleString` are functions passed in, never interpreted.
- Spreadsheet files: a workbook is its file name, sheet name and rows; the XLSX bytes and the browser download are not modelled.
- Rendering: JSX, styling, icons, the file-upload input that has no handler, toasts and `toast.dismiss()` are not modelled.
- DailyReportPage.DailyReportView.HandleSubmit: the list refresh that follows a successful POST is a separate `FetchReports` call, not part of the submit.
- The loading flag of the admin page: the user lookup calls a `setLoading` that does not exist in a `finally` block, so it throws on every path, after the user data or the error has already been set. The thrown error is not modelled.
- The task card and the user details page are rendering only. client/src/components/TaskCard.jsx and client/src/pages/UserDetails.jsx are not part of this model.
- The Express route files (server/routes) are wiring only and are not part of this model.
