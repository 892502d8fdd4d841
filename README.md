# UWA-PMS client pages, modelled in Dafny

UWA-PMS is a project-management system for a university. Its web client is
a React application over a PHP/JSON backend. Managers and members each
have a dashboard, project lists, a project page with a Kanban board, task
lists, calendars, notices and reports. The project coordinator manages
supervisors and assigns them to projects. Login and registration share one
page. The client library keeps the saved login in the browser's two stores.

This project models the logic those pages run between requests. Every
request is an input: a `Reply` (in `common.dfy`) that says whether the
request threw, whether the body was JSON, the HTTP status, the `success`
flag, the server's message and the payload. With replies, the current
time and parsed dates given as values, each handler becomes
deterministic. The model covers:

- the pure helpers, as functions with lemmas: date and relative-time
  formatting, percentages, status tables, counting, search/filter/sort,
  and the form checks with their ordered messages;
- the pages that change state, as classes. Each method's `ensures` states,
  for every outcome, what each field of the page holds afterwards and the
  requests it sent (a `sent` log);
- the Kanban lane store, with a loop that groups tasks and the drag-and-drop
  move proved against a functional specification;
- the coordinator's assignment record, built by a loop proved equal to a
  recursive definition.

Helpers that several pages copy word for word (`fmt`/`prettyDate`,
`formatRelative`, `timeAgo`, `getProgress`, `pct`) are modelled once in
`formatters.dfy`. The table below cites each copy against that one
definition.

Modules: `Common` (values and replies), `Text` (trim, lower-case, `Number`,
digits, split), `Seqs` (filter, splice, sort), `Http` (failure messages),
`Formatters`, `TaskCounts`, `ProjectLists` (the shared search/filter/sort),
`Notices` and `Calendar` (shared by two pages each), and one module per
page: `Api`, `AuthPage`, `Kanban`, `TaskList`, `ManagerProjectView`,
`MemberProjectView`, `ManagerProjectList`, `MemberProjectList`,
`ManagerDashboard`, `MemberDashboard`, `CoordinatorDashboard`,
`CoordinatorNoticePage`, `ManagerNoticePage`, `CoordinatorProjectList`,
`SupervisorPage`, `ManagerCalendarPage`, `MemberCalendarPage`,
`ManagerReportPage`, `NewProjectDialog`.

## Model

| member | source | states |
|---|---|---|
| Api.TrimSlashes | UWA-PMS-Frontend-main/src/lib/api.ts:2 | the result is a prefix of the input that does not end in '/', and everything removed was '/' |
| Api.BaseUrl | UWA-PMS-Frontend-main/src/lib/api.ts:2 | an unset setting gives ''; a set one gives it with its trailing slashes removed |
| Api.BaseUrlNoSlash | UWA-PMS-Frontend-main/src/lib/api.ts:2 | the base address never ends in '/', and trimming it again changes nothing |
| Api.GetAuth | UWA-PMS-Frontend-main/src/lib/api.ts:32-37 | a login is found exactly when a token and a user text are found (each from localStorage first, then sessionStorage, an empty value counting as missing) and the user text parses; the token is the one found and the user is the parsed user text |
| Api.Storage.constructor | UWA-PMS-Frontend-main/src/lib/api.ts:19-37 | the two stores start as given |
| Api.Storage.SaveAuth | UWA-PMS-Frontend-main/src/lib/api.ts:19-23 | both keys are written to localStorage when remember is set and to sessionStorage otherwise; the other store is untouched |
| Api.Storage.ClearAuth | UWA-PMS-Frontend-main/src/lib/api.ts:25-30 | both keys leave both stores and every other key stays |
| Api.ClearedHasNoAuth | UWA-PMS-Frontend-main/src/lib/api.ts:25-37 | after clearAuth, getAuth finds no login |
| Api.SavedAuthReadsBack | UWA-PMS-Frontend-main/src/lib/api.ts:19-37 | a remembered login reads back as saved; a session login reads back when localStorage holds no login; when localStorage already holds a token, that token is still the one read back after a session save |
| AuthPage.ScanOfSpec | src/components/pages/PublicPages/AuthPage.tsx:31 | the one-pass scan's flags mean: some A-Z character, some digit, no line break |
| AuthPage.IsPasswordStrongSpec | src/components/pages/PublicPages/AuthPage.tsx:31 | a password is strong exactly when it has at least 8 characters, an A-Z letter and a 0-9 digit, and no line break |
| AuthPage.RegisterCheck | src/components/pages/PublicPages/AuthPage.tsx:33-56 | registration passes exactly when all four fields are non-empty as typed, the raw email ends in one of the two university domains (case-sensitively), the password is strong and the confirmation equals it; each of the four checks in order gives its own message ('All fields are required.', 'Use a valid university email.', the password rule, 'Passwords do not match.'); the body sends the lower-cased, trimmed email |
| AuthPage.LoginCheck | src/components/pages/PublicPages/AuthPage.tsx:69-74 | login proceeds exactly when email and password are non-empty, otherwise 'Email and password are required.' |
| AuthPage.PostFailure | UWA-PMS-Frontend-main/src/lib/api.ts:4-14 | a request with no usable answer always yields a non-empty message |
| AuthPage.AuthForm.constructor | src/components/pages/PublicPages/AuthPage.tsx:15-29 | the page opens in register mode with empty fields, role member and remember set |
| AuthPage.AuthForm.Register | src/components/pages/PublicPages/AuthPage.tsx:33-67 | a failed check shows its message, sends nothing and leaves every field as it was; otherwise the effect of SendRegister; the email and remember flag never change |
| AuthPage.AuthForm.ApplyRegister | src/components/pages/PublicPages/AuthPage.tsx:33-67 | a refused check leaves the message set to its text, sends nothing and keeps name, passwords, role and mode; an accepted body has the register effect of SendRegister; the email and remember flag stay as they were |
| AuthPage.AuthForm.SendRegister | src/components/pages/PublicPages/AuthPage.tsx:52-66 | one register request; a success clears name, both passwords and role and switches to login; otherwise the fields stay and the message is the server's, 'Registration failed.' or the thrown error |
| AuthPage.AuthForm.Login | src/components/pages/PublicPages/AuthPage.tsx:69-97 | without email and password nothing is sent; otherwise one login request with the lower-cased, trimmed email; the credentials are saved (to the store remember selects) only when success, a token and a user all came back; otherwise the stores are untouched and the message says why; the mode, the form fields and the remember flag never change |
| AuthPage.LoginReadsBack | src/components/pages/PublicPages/AuthPage.tsx:83-85 | a remembered login reads back through getAuth as the token and user the server sent |
| Formatters.FormatDate | UWA-PMS-Frontend-main/src/components/pages/ManagerPages/ManagerProjectViewPage.tsx:627-632 | fmt: a missing or empty date gives '-'; the copy in MemberProjectView.tsx (lines 36-41) is the same code |
| Formatters.FormatDateValid | UWA-PMS-Frontend-main/src/components/pages/ManagerPages/ManagerProjectViewPage.tsx:629-631 | three non-zero digit pieces (and any further '-' pieces) give "DD-MM-Y", day and month padded to two digits, the year unpadded |
| Formatters.FormatDateIso | src/components/pages/MemberPages/MemberProjectView.tsx:38-40 | an ISO date "YYYY-MM-DD" of positive numbers reads back as "DD-MM-YYYY" |
| Formatters.FormatDateNoDash | UWA-PMS-Frontend-main/src/components/pages/ManagerPages/ManagerProjectViewPage.tsx:630 | non-empty text without '-' has no month or day and comes back unchanged |
| Formatters.FormatDateZeroPiece | UWA-PMS-Frontend-main/src/components/pages/ManagerPages/ManagerProjectViewPage.tsx:630 | a date with a zero piece comes back unchanged |
| Formatters.JsNumberOfDigits | UWA-PMS-Frontend-main/src/components/pages/ManagerPages/ManagerProjectViewPage.tsx:629 | Number reads a non-empty digit string as its decimal value |
| Formatters.SplitThree | UWA-PMS-Frontend-main/src/components/pages/ManagerPages/ManagerProjectViewPage.tsx:629 | split('-') of "a-b-c…" gives a, b and c first |
| Formatters.DigitsValuePadTwo | UWA-PMS-Frontend-main/src/components/pages/ManagerPages/ManagerProjectViewPage.tsx:631 | padStart(2, '0') of a number reads back as the same number |
| Formatters.FormatRelative | src/components/pages/ManagerPages/ManagerProjectListPage.tsx:28-42 | formatRelative gives '' exactly for a missing date; the copy in MemberProjectList.tsx (lines 23-38) is the same code |
| Formatters.FormatRelativeBuckets | src/components/pages/ManagerPages/ManagerProjectListPage.tsx:30-42 | on the millisecond difference: under a minute (negative included) 'just now', then whole minutes, hours, days, 30-day months and 360-day years, each by floor division; the copy in MemberProjectList.tsx (lines 25-37) is the same code |
| Formatters.DivDiv | src/components/pages/ManagerPages/ManagerProjectListPage.tsx:33-41 | flooring twice equals flooring once by the product, which lets each bucket be read on the millisecond difference |
| Formatters.DivLowerBound | src/components/pages/ManagerPages/ManagerProjectListPage.tsx:34-40 | floor(x / b) < k exactly when x < k·b |
| Formatters.TimeAgo | UWA-PMS-Frontend-main/src/components/pages/CoordinatorPages/CoordinatorNoticePage.tsx:20-35 | timeAgo is 'Just now' exactly when less than a minute has passed (a future date included); the copy in ManagerNoticePage.tsx (lines 21-36) is the same code |
| Formatters.TimeAgoBuckets | UWA-PMS-Frontend-main/src/components/pages/CoordinatorPages/CoordinatorNoticePage.tsx:24-34 | the buckets in order on the millisecond difference: more than 7 whole days gives weeks, then days, hours, minutes, else 'Just now'; 's' exactly when the count is above one; the copy in ManagerNoticePage.tsx (lines 25-35) is the same code |
| Formatters.TimeAgoWeekBoundary | UWA-PMS-Frontend-main/src/components/pages/CoordinatorPages/CoordinatorNoticePage.tsx:30-31 | exactly 7 days gives '7 days ago' and 8 days gives '1 week ago'; the copy in ManagerNoticePage.tsx (lines 31-32) is the same code |
| Formatters.AgoNotWeeks | UWA-PMS-Frontend-main/src/components/pages/CoordinatorPages/CoordinatorNoticePage.tsx:31-33 | a label in days, hours or minutes never reads as weeks |
| Formatters.IsNewWithinWeek | UWA-PMS-Frontend-main/src/components/pages/CoordinatorPages/CoordinatorNoticePage.tsx:87 | isNew holds exactly when less than 7·24·60·60·1000 ms have passed, and a new notice is never labelled in weeks; the copy in ManagerNoticePage.tsx (line 81) is the same code |
| Formatters.Pct | UWA-PMS-Frontend-main/src/components/pages/MemberPages/MemberDashboard.tsx:12 | pct is 0 for a zero denominator and otherwise the nearest whole percentage, halves rounded up; the copy in MemberProjectView.tsx (line 49) is the same code |
| Formatters.PctBounds | src/components/pages/MemberPages/MemberProjectView.tsx:49 | with done ≤ total the percentage lies in 0..100, is 100 when everything is done and 0 when nothing is |
| Formatters.ProgressOf | src/components/pages/MemberPages/MemberProjectView.tsx:43-50 | getProgress: the four counts as given, the total is their sum, and the percentage is Pct(done, total), the share done rounded half up, so at most 100, 0 for no tasks and 100 when every task is done; the copy in ManagerProjectListPage.tsx (lines 45-55) and the copy in MemberProjectList.tsx (lines 40-48) is the same code |
| Kanban.LaneOf | UWA-PMS-Frontend-main/src/components/ui/PublicUI/HomepageKanbanBoard.tsx:108-123 | a status names a lane only when it is that lane's key |
| Kanban.LaneOfKey | UWA-PMS-Frontend-main/src/components/ui/PublicUI/HomepageKanbanBoard.tsx:108-112 | each lane is found again from its own key, so the three keys are distinct |
| Kanban.GroupedGet | UWA-PMS-Frontend-main/src/components/ui/PublicUI/HomepageKanbanBoard.tsx:121-125 | each lane of the grouping is the task list filtered on that lane's status |
| Kanban.GroupedMatchesStatus | UWA-PMS-Frontend-main/src/components/ui/PublicUI/HomepageKanbanBoard.tsx:121-125 | after loading, every card sits in the lane its status names |
| Kanban.GroupedMembers | UWA-PMS-Frontend-main/src/components/ui/PublicUI/HomepageKanbanBoard.tsx:121-125 | a task is in a lane exactly when it was loaded with that lane's status; any other status lands in no lane |
| Kanban.GroupedKeepsOrder | UWA-PMS-Frontend-main/src/components/ui/PublicUI/HomepageKanbanBoard.tsx:121-125 | each lane keeps the order of the loaded list |
| Kanban.GroupedCount | UWA-PMS-Frontend-main/src/components/ui/PublicUI/HomepageKanbanBoard.tsx:105-127 | the lane sizes sum to the number of tasks with a lane status |
| Kanban.GroupedSnoc | UWA-PMS-Frontend-main/src/components/ui/PublicUI/HomepageKanbanBoard.tsx:122-124 | grouping one more task appends it to the lane its status names and to no other |
| Kanban.GroupedAllLanes | UWA-PMS-Frontend-main/src/components/ui/PublicUI/HomepageKanbanBoard.tsx:105-127 | when every status names a lane, every task is on the board |
| Kanban.Board.GroupTasks | UWA-PMS-Frontend-main/src/components/ui/PublicUI/HomepageKanbanBoard.tsx:108-125 | the push loop builds exactly the grouping |
| Kanban.Dropped | UWA-PMS-Frontend-main/src/components/ui/PublicUI/HomepageKanbanBoard.tsx:469-496 | a drop never changes the number of cards on the board |
| Kanban.DroppedMatchesStatus | UWA-PMS-Frontend-main/src/components/ui/PublicUI/HomepageKanbanBoard.tsx:486-496 | after a drop, every card still sits in the lane its status names |
| Kanban.DroppedSameLane | UWA-PMS-Frontend-main/src/components/ui/PublicUI/HomepageKanbanBoard.tsx:475-485 | a drop within a lane permutes that lane, puts the card at the clamped destination index and leaves the other lanes alone |
| Kanban.DroppedInPlace | UWA-PMS-Frontend-main/src/components/ui/PublicUI/HomepageKanbanBoard.tsx:477-485 | dropping a card on its own place leaves the board as it was |
| Kanban.DroppedAcrossLanes | UWA-PMS-Frontend-main/src/components/ui/PublicUI/HomepageKanbanBoard.tsx:486-496 | a drop across lanes takes exactly the card out of the source lane, puts it with the destination's status at the clamped index of the destination lane, and leaves the third lane untouched |
| Kanban.SaveTaskRequest | UWA-PMS-Frontend-main/src/components/ui/PublicUI/HomepageKanbanBoard.tsx:256-278 | no selected task or a blank title gives 'Task title is required.'; otherwise an update carrying the task's ids, the trimmed non-empty title and the status |
| Kanban.AvailableMembers | UWA-PMS-Frontend-main/src/components/ui/PublicUI/HomepageKanbanBoard.tsx:504-507 | the members offered are never more than those fetched |
| Kanban.AvailableMembersExactly | UWA-PMS-Frontend-main/src/components/ui/PublicUI/HomepageKanbanBoard.tsx:504-507 | a member is offered exactly when fetched and not assigned to the selected task, in fetched order |
| Kanban.Board.constructor | UWA-PMS-Frontend-main/src/components/ui/PublicUI/HomepageKanbanBoard.tsx:57-64 | the board starts with three empty lanes, loading and no error |
| Kanban.ReloadColumns | UWA-PMS-Frontend-main/src/components/ui/PublicUI/HomepageKanbanBoard.tsx:82-140 | the lanes fetchTasks leaves: without a project id or on any failure the lanes stay; a successful list puts in each lane exactly the tasks with that lane's status, in order; lanes matching their statuses stay so |
| Kanban.ReloadError | UWA-PMS-Frontend-main/src/components/ui/PublicUI/HomepageKanbanBoard.tsx:82-140 | the error fetchTasks leaves is empty exactly when there is a project id and the reply is a JSON success |
| Kanban.Board.FetchTasks | UWA-PMS-Frontend-main/src/components/ui/PublicUI/HomepageKanbanBoard.tsx:82-140 | without a project id only the error is set; otherwise one list request; a success replaces the lanes by the grouping (three empty lanes without a task list); each failure keeps the lanes and sets its message; so the lanes and error are ReloadColumns and ReloadError of the reply; loading ends false; lanes matching their statuses stay so |
| Kanban.Board.Mount | UWA-PMS-Frontend-main/src/components/ui/PublicUI/HomepageKanbanBoard.tsx:460-467 | with a project id the board sends one list request and holds the lanes and error that fetchTasks leaves (ReloadColumns, ReloadError), no longer loading; without one it reports 'No project ID provided' and sends nothing |
| Kanban.Board.OnDragEnd | UWA-PMS-Frontend-main/src/components/ui/PublicUI/HomepageKanbanBoard.tsx:469-501 | no destination changes nothing; a same-lane drop reorders and sends nothing; a cross-lane drop applies the move and sends exactly one status update with the card's id and the new lane; a success keeps the moved board and the error; a failure reloads, leaving ReloadColumns and ReloadError of the reload reply; lanes keep matching their statuses |
| Kanban.Board.SendMove | UWA-PMS-Frontend-main/src/components/ui/PublicUI/HomepageKanbanBoard.tsx:197-230 | a successful status update keeps the optimistic board, the error and the loading flag; a failed one (no JSON, bad status, no success, network error) reloads, leaving the lanes and error the reload gives |
| Kanban.Board.SaveTask | UWA-PMS-Frontend-main/src/components/ui/PublicUI/HomepageKanbanBoard.tsx:256-305 | the guard sets its message and sends nothing; otherwise the update's effect: a success sends the update then the list request, regroups the lanes from the reload and clears the error; a failure keeps the lanes and shows why |
| Kanban.Board.SendSave | UWA-PMS-Frontend-main/src/components/ui/PublicUI/HomepageKanbanBoard.tsx:262-303 | the update goes out; a success reloads (the lanes are ReloadColumns of the reload reply, the list request follows the update when there is a project id) and clears the error; a failure keeps the lanes and shows why |
| TaskList.ApiToUi | src/components/pages/ManagerPages/ManagerTaskListPage.tsx:23-31 | a known code maps to the status whose code it is; any other code maps to 'TODO' |
| TaskList.UiToApiInjective | src/components/pages/ManagerPages/ManagerTaskListPage.tsx:17-22 | the four statuses map to four distinct codes |
| TaskList.UiRoundTrip | src/components/pages/ManagerPages/ManagerTaskListPage.tsx:17-31 | apiToUi(uiToApi[s]) is s for every status |
| TaskList.ApiRoundTrip | src/components/pages/ManagerPages/ManagerTaskListPage.tsx:17-31 | uiToApi[apiToUi(c)] is c exactly for the four codes |
| TaskList.Loaded | src/components/pages/ManagerPages/ManagerTaskListPage.tsx:67-71 | a loaded task keeps its id, takes '' for a missing title; a missing status or an unknown code shows as 'TODO', and a known code shows as the status that maps back to it |
| TaskList.LoadedAll | src/components/pages/ManagerPages/ManagerTaskListPage.tsx:67-72 | the list is mapped task by task |
| TaskList.Created | src/components/pages/ManagerPages/ManagerTaskListPage.tsx:112-119 | the created task takes the typed title and chosen status where the reply has none |
| TaskList.TaskListPage.constructor | src/components/pages/ManagerPages/ManagerTaskListPage.tsx:34-41 | the page starts with no tasks, the dialog closed, an empty title and 'TODO' |
| TaskList.TaskListPage.Load | src/components/pages/ManagerPages/ManagerTaskListPage.tsx:44-81 | a successful reply replaces the list with the mapped tasks; a failure changes nothing |
| TaskList.TaskListPage.CreateTask | src/components/pages/ManagerPages/ManagerTaskListPage.tsx:84-133 | nothing without a project id; a blank title alerts 'Title is required' without a request and leaves the form and dialog as they were; otherwise one request with the trimmed title and the status code; a success prepends the created task, keeps the rest in order and resets the dialog; a failure keeps the form and alerts why |
| TaskList.TaskListPage.Submit | src/components/pages/ManagerPages/ManagerTaskListPage.tsx:88-132 | one request; a success prepends the created task and resets the dialog to '' and 'TODO'; a failure alerts the reason and changes nothing else |
| Common.NonEmpty | UWA-PMS-Frontend-main/src/components/pages/ManagerPages/ManagerProjectViewPage.tsx:284-285 | `x || null` on a form string: absent exactly for the empty string, otherwise the string as typed; the calendar's `x || undefined` in ManagerCalendarPage.tsx (lines 251-254) is the same test |
| ManagerProjectView.EditFormOf | UWA-PMS-Frontend-main/src/components/pages/ManagerPages/ManagerProjectViewPage.tsx:239-248 | the edit form takes the project's title and its description and dates, missing ones as '' |
| ManagerProjectView.SaveEditCheckSpec | UWA-PMS-Frontend-main/src/components/pages/ManagerPages/ManagerProjectViewPage.tsx:255-287 | without a project id nothing happens; a blank title is refused first; then the save is refused exactly when both dates are present and the end sorts before the start; a sent update carries the id, the trimmed non-empty title, the description as typed and empty dates as null |
| ManagerProjectView.SaveEditDatesPass | UWA-PMS-Frontend-main/src/components/pages/ManagerPages/ManagerProjectViewPage.tsx:262-265 | equal dates, or a missing date, never block the save |
| ManagerProjectView.SaveEditDatesOneWay | UWA-PMS-Frontend-main/src/components/pages/ManagerPages/ManagerProjectViewPage.tsx:262-265 | of two different dates, the save goes through in exactly one of the two orders |
| ManagerProjectView.Candidates | UWA-PMS-Frontend-main/src/components/pages/ManagerPages/ManagerProjectViewPage.tsx:336-348 | the members offered are never more than those fetched |
| ManagerProjectView.CandidatesExactly | UWA-PMS-Frontend-main/src/components/pages/ManagerPages/ManagerProjectViewPage.tsx:339-344 | a fetched member is offered exactly when no project member has the same String(id), in fetched order |
| ManagerProjectView.CandidatesExcludeMembers | UWA-PMS-Frontend-main/src/components/pages/ManagerPages/ManagerProjectViewPage.tsx:339-344 | a member already on the project is never offered again |
| ManagerProjectView.CreateTaskCheckSpec | UWA-PMS-Frontend-main/src/components/pages/ManagerPages/ManagerProjectViewPage.tsx:515-540 | creation is refused with 'Task title is required.' exactly when there is no project id or the title is blank; otherwise the task goes out with the project id, the trimmed title and the lower-cased status |
| ManagerProjectView.CreateTaskStatuses | UWA-PMS-Frontend-main/src/components/pages/ManagerPages/ManagerProjectViewPage.tsx:536-540 | the default 'TODO' is sent as 'todo' and the option values unchanged |
| ManagerProjectView.ManagerProjectViewPage.constructor | UWA-PMS-Frontend-main/src/components/pages/ManagerPages/ManagerProjectViewPage.tsx:47-85 | the page starts not editing, with an empty form, no error, status 'TODO' and the board key 0 |
| ManagerProjectView.ManagerProjectViewPage.StartEdit | UWA-PMS-Frontend-main/src/components/pages/ManagerPages/ManagerProjectViewPage.tsx:239-248 | with a project the form is filled from it and editing starts; without one nothing changes; the task-creation fields and the board key never change |
| ManagerProjectView.ManagerProjectViewPage.SaveEdit | UWA-PMS-Frontend-main/src/components/pages/ManagerPages/ManagerProjectViewPage.tsx:255-312 | the guards decide first and send nothing when they refuse; a successful update replaces the project with the returned one (if any) and ends editing; a failure keeps editing and shows why; the task-creation fields and the board key never change |
| ManagerProjectView.ManagerProjectViewPage.ApplySaveEdit | UWA-PMS-Frontend-main/src/components/pages/ManagerPages/ManagerProjectViewPage.tsx:266-312 | the save's effect for each verdict of the guards; the form, the task-creation fields and the board key never change |
| ManagerProjectView.ManagerProjectViewPage.CreateTaskFromPage | UWA-PMS-Frontend-main/src/components/pages/ManagerPages/ManagerProjectViewPage.tsx:515-588 | a refused guard sends nothing; a failed create shows why and keeps the task form; a created task is followed by a project refresh, taken only when it carries a project, and then the board key is bumped and the dialog closes and resets; a refresh that throws shows its message and keeps the task form; the edit form and editing flag never change |
| ManagerProjectView.ManagerProjectViewPage.ApplyCreate | UWA-PMS-Frontend-main/src/components/pages/ManagerPages/ManagerProjectViewPage.tsx:521-588 | the create's effect for each verdict of the guard and each reply, every task-creation field and the board key stated in each case; the edit form and editing flag never change |
| MemberProjectView.GetProgress | src/components/pages/MemberPages/MemberProjectView.tsx:43-50 | the four counts are read from the task counts (missing as 0), the total is their sum, and the percentage is Pct(done, total), at most 100 and 0 for no tasks |
| MemberProjectView.WithDefaultCounts | src/components/pages/MemberPages/MemberProjectView.tsx:86-87 | missing task counts become all zero; present ones are kept |
| MemberProjectView.DefaultCountsProgress | src/components/pages/MemberPages/MemberProjectView.tsx:43-50 | a project without task counts shows zero progress |
| MemberProjectView.DefaultCountsSameProgress | src/components/pages/MemberPages/MemberProjectView.tsx:43-87 | defaulting the counts never changes the progress shown |
| MemberProjectView.StatusMessage | src/components/pages/MemberPages/MemberProjectView.tsx:89-94 | a failed view always has a non-empty message |
| MemberProjectView.LoadProjectSpec | src/components/pages/MemberPages/MemberProjectView.tsx:60-102 | a project is shown exactly when there is an id and an ok, successful reply carries one; it is that project with counts present; every failure has a message |
| MemberProjectView.LoadProjectErrors | src/components/pages/MemberPages/MemberProjectView.tsx:60-98 | the message is 'Invalid project ID' without an id, the network message for a thrown request or a non-JSON body, and otherwise chosen by status 404, 401, 400, 500, else the server's message or 'Failed to load project' |
| ProjectLists.NormalQuery | src/components/pages/ManagerPages/ManagerProjectListPage.tsx:97-98 | the normalised search text is empty exactly when the query is blank |
| ProjectLists.FilterIf | src/components/pages/ManagerPages/ManagerProjectListPage.tsx:97-114 | a filter step only removes projects, and an inactive one keeps the list as it is |
| ProjectLists.FilterIfMembers | src/components/pages/ManagerPages/ManagerProjectListPage.tsx:97-114 | a project survives an active filter step exactly when it matches it |
| ProjectLists.KeyOrderTotal | src/components/pages/ManagerPages/ManagerProjectListPage.tsx:116-121 | comparing projects by a key under a total order is a total order |
| ProjectLists.Arranged | src/components/pages/ManagerPages/ManagerProjectListPage.tsx:116-121 | sorting keeps exactly the same projects |
| ProjectLists.ArrangedSorted | src/components/pages/ManagerPages/ManagerProjectListPage.tsx:116-121 | the recent order puts the latest first; the title order (a total localeCompare) puts titles in order |
| ProjectLists.ArrangedStable | src/components/pages/ManagerPages/ManagerProjectListPage.tsx:116-121 | the sort is stable: projects with the same stamp (recent order) or the same title (alpha order, total localeCompare) come out in the order they went in |
| ManagerProjectList.ProjectProgress | src/components/pages/ManagerPages/ManagerProjectListPage.tsx:45-55 | the four counts are the project's (missing ones as 0) and the total is their sum; the percentage is Pct(done, total), so at most 100, 0 for no tasks and 100 when all are done |
| ManagerProjectList.FilteredSpec | src/components/pages/ManagerPages/ManagerProjectListPage.tsx:95-123 | a project is listed exactly when it matches the search in title or description and the status filter; the list is a sub-multiset of the projects, all of them with no search and no filter, and sorted by the chosen order |
| ManagerProjectList.LoadProjectsSpec | src/components/pages/ManagerPages/ManagerProjectListPage.tsx:67-88 | the projects load exactly on an ok, successful JSON reply (a missing list as empty); a bad status gives 'HTTP n' and an unsuccessful reply the server's message or 'Failed to load projects' |
| MemberProjectList.WithDefaultCounts | src/components/pages/MemberPages/MemberProjectList.tsx:79-82 | missing status counts become all zero; present ones are kept |
| MemberProjectList.Processed | src/components/pages/MemberPages/MemberProjectList.tsx:79-82 | the list is processed project by project, keeping its length |
| MemberProjectList.ProcessedOnlyCounts | src/components/pages/MemberPages/MemberProjectList.tsx:79-82 | processing changes nothing but the counts, and never the progress shown |
| MemberProjectList.FilteredSpec | src/components/pages/MemberPages/MemberProjectList.tsx:98-115 | a project is listed exactly when it matches the search and the status filter; the list is a sub-multiset of the projects, all of them with no search and no filter, and sorted by the chosen order |
| MemberProjectList.HttpError | src/components/pages/MemberPages/MemberProjectList.tsx:70-74 | every HTTP failure has a non-empty message |
| MemberProjectList.LoadProjectsSpec | src/components/pages/MemberPages/MemberProjectList.tsx:61-92 | the projects load exactly on an ok, successful JSON reply, processed so that each has counts; every failure has a message |
| MemberProjectList.LoadProjectsHttpErrors | src/components/pages/MemberPages/MemberProjectList.tsx:70-74 | status 401 and 500 have their own messages; other bad statuses give 'HTTP error! status: n' |
| TaskCounts.Tally | src/components/pages/ManagerPages/ManagerDashboard.tsx:151-154 | the reduce maps each status seen to the number of tasks that have it |
| TaskCounts.OverviewOf | src/components/pages/ManagerPages/ManagerDashboard.tsx:107-113 | the overview takes each count or 0 and its total is their sum |
| TaskCounts.LaneCountsBound | src/components/pages/ManagerPages/ManagerDashboard.tsx:151-161 | the todo, in_progress and done counts never exceed the number of tasks and reach it exactly when every task has one of those statuses |
| ManagerDashboard.AutoSelect | src/components/pages/ManagerPages/ManagerDashboard.tsx:90-92 | a selection is kept; without one the first listed project is selected, so a non-empty list always leaves one selected |
| ManagerDashboard.LoadDashboardSpec | src/components/pages/ManagerPages/ManagerDashboard.tsx:52-122 | with four JSON answers no error is set; a carried project list sets the projects, their count and the auto-selection; a carried overview sets each count to the one sent (missing as 0), the total to their sum and total_tasks as sent; a carried events overview sets total_events (missing as 0); a carried upcoming list is taken; what is not carried stays |
| ManagerDashboard.LoadDashboardStops | src/components/pages/ManagerPages/ManagerDashboard.tsx:84-127 | a body that is not JSON sets the error and stops: later answers are not taken, earlier ones are kept |
| ManagerDashboard.ProjectCounts | src/components/pages/ManagerPages/ManagerDashboard.tsx:151-161 | the per-project breakdown counts the todo, in_progress and done tasks, and its total is the number of tasks |
| ManagerDashboard.ProjectCountsBound | src/components/pages/ManagerPages/ManagerDashboard.tsx:151-161 | the three counts stay within the total and fill it exactly when every status is one of the three |
| ManagerDashboard.RecountConsistent | src/components/pages/ManagerPages/ManagerDashboard.tsx:135-161 | recounting keeps the counts within the total, and nothing is recounted without a selected project |
| MemberDashboard.ReselectSpec | UWA-PMS-Frontend-main/src/components/pages/MemberPages/MemberDashboard.tsx:40-45 | after a reload with projects the selection names a listed project; a listed selection is kept; an empty list changes nothing |
| MemberDashboard.ProjectCounts | UWA-PMS-Frontend-main/src/components/pages/MemberPages/MemberDashboard.tsx:91-96 | the per-project total is the number of tasks |
| MemberDashboard.ProjectCountsSpec | UWA-PMS-Frontend-main/src/components/pages/MemberPages/MemberDashboard.tsx:87-96 | each count is that of the lane key when some task uses it, otherwise that of its display label; the three never exceed the total |
| MemberDashboard.DistinctKeysBound | UWA-PMS-Frontend-main/src/components/pages/MemberPages/MemberDashboard.tsx:87-96 | three distinct statuses together occur at most as often as there are tasks |
| MemberDashboard.TasksOverview | UWA-PMS-Frontend-main/src/components/pages/MemberPages/MemberDashboard.tsx:51-61 | the overview's total is the sum of its counts; totalTasks is total_tasks when truthy, else that sum |
| CoordinatorDashboard.UpcomingEventsSpec | UWA-PMS-Frontend-main/src/components/pages/CoordinatorPages/CoordinatorDashboard.tsx:100-107 | at most five events, each dated now or later, in listed order; all upcoming events when there are at most five |
| CoordinatorDashboard.LoadStatsSpec | UWA-PMS-Frontend-main/src/components/pages/CoordinatorPages/CoordinatorDashboard.tsx:54-119 | the load succeeds exactly when all three bodies are JSON; the totals are the three list lengths (missing lists as empty); the recent projects are the first min(5, n) in order; at most five upcoming events |
| Notices.NoticeOf | UWA-PMS-Frontend-main/src/components/pages/CoordinatorPages/CoordinatorNoticePage.tsx:82-97 | a listed notice keeps the server's id, title, content, priority, status, expiry and visibility; it is new exactly when dated less than seven days ago; without a date it reads 'Just now' and is not new; the copy in ManagerNoticePage.tsx (lines 76-91) is the same code |
| Notices.NoticesOf | UWA-PMS-Frontend-main/src/components/pages/CoordinatorPages/CoordinatorNoticePage.tsx:82-99 | the list is mapped item by item, keeping its length and order |
| Notices.LoadNotices | UWA-PMS-Frontend-main/src/components/pages/CoordinatorPages/CoordinatorNoticePage.tsx:54-107 | the notices load exactly when a JSON reply succeeds with a list; a thrown request or non-JSON body gives 'Server error while loading notices.'; otherwise the server's message or 'Failed to load notices'; the copy in ManagerNoticePage.tsx (lines 46-100) is the same code |
| Notices.MarkAsRead | UWA-PMS-Frontend-main/src/components/pages/CoordinatorPages/CoordinatorNoticePage.tsx:244-248 | marking read keeps the list's length |
| Notices.MarkAsReadSpec | UWA-PMS-Frontend-main/src/components/pages/CoordinatorPages/CoordinatorNoticePage.tsx:244-248 | marking read clears the new flag of exactly the notices with that id, changes nothing else, and doing it twice equals doing it once |
| Notices.WithoutNotice | UWA-PMS-Frontend-main/src/components/pages/CoordinatorPages/CoordinatorNoticePage.tsx:233-236 | deleting never lengthens the list |
| Notices.WithoutNoticeSpec | UWA-PMS-Frontend-main/src/components/pages/CoordinatorPages/CoordinatorNoticePage.tsx:233-236 | after a delete the list holds, in order, exactly the notices with another id |
| CoordinatorNoticePage.FormOf | UWA-PMS-Frontend-main/src/components/pages/CoordinatorPages/CoordinatorNoticePage.tsx:125-136 | the edit form takes the notice's fields, with priority 'normal', status 'active', no expiry and public as the defaults for missing ones |
| CoordinatorNoticePage.FormOfBare | UWA-PMS-Frontend-main/src/components/pages/CoordinatorPages/CoordinatorNoticePage.tsx:112-136 | a notice with no optional fields opens with the same defaults as a new notice |
| CoordinatorNoticePage.SubmitCheck | UWA-PMS-Frontend-main/src/components/pages/CoordinatorPages/CoordinatorNoticePage.tsx:138-160 | the save is refused with 'Title and content are required' exactly when the title or content is empty; the body carries the id only in edit mode, the form's fields, and is_public as 1 or 0 |
| CoordinatorNoticePage.NoticePage.constructor | UWA-PMS-Frontend-main/src/components/pages/CoordinatorPages/CoordinatorNoticePage.tsx:38-51 | the page starts with no notices, no error, the dialog closed and a blank form |
| CoordinatorNoticePage.NoticePage.FetchNotices | UWA-PMS-Frontend-main/src/components/pages/CoordinatorPages/CoordinatorNoticePage.tsx:54-107 | one list request; a load replaces the notices and clears the error; a failure keeps them and shows its message |
| CoordinatorNoticePage.NoticePage.OpenNew | UWA-PMS-Frontend-main/src/components/pages/CoordinatorPages/CoordinatorNoticePage.tsx:112-123 | the dialog opens on a blank form, not in edit mode |
| CoordinatorNoticePage.NoticePage.OpenEdit | UWA-PMS-Frontend-main/src/components/pages/CoordinatorPages/CoordinatorNoticePage.tsx:125-136 | the dialog opens on the notice's form, in edit mode for its id |
| CoordinatorNoticePage.NoticePage.Submit | UWA-PMS-Frontend-main/src/components/pages/CoordinatorPages/CoordinatorNoticePage.tsx:138-205 | a refused form sends nothing; a saved notice resets and closes the dialog, leaves edit mode and reloads the list, the notices and error then being those of LoadNotices on the reload reply; a failed save keeps the form and edit mode and shows the server's message or the server-error text |
| CoordinatorNoticePage.NoticePage.Delete | UWA-PMS-Frontend-main/src/components/pages/CoordinatorPages/CoordinatorNoticePage.tsx:207-242 | nothing unless confirmed; a deleted notice leaves the list; a failure keeps the list and shows why |
| CoordinatorNoticePage.NoticePage.MarkRead | UWA-PMS-Frontend-main/src/components/pages/CoordinatorPages/CoordinatorNoticePage.tsx:244-248 | only the new flag of the notices with that id changes; the form, dialog and edit mode stay |
| ManagerNoticePage.NoticePage.constructor | src/components/pages/ManagerPages/ManagerNoticePage.tsx:39-41 | the page starts with no notices and no error |
| ManagerNoticePage.NoticePage.FetchNotices | src/components/pages/ManagerPages/ManagerNoticePage.tsx:46-100 | a load replaces the notices and clears the error; a failure keeps them and shows its message |
| ManagerNoticePage.NoticePage.MarkRead | src/components/pages/ManagerPages/ManagerNoticePage.tsx:106-110 | only the new flag of the notices with that id changes |
| CoordinatorProjectList.EntryOf | UWA-PMS-Frontend-main/src/components/pages/CoordinatorPages/CoordinatorProjectList.tsx:86-104 | a project's entry comes from the first supervisor with its supervisor's name, or else from the project's own supervisor_id and name with no email or type |
| CoordinatorProjectList.InitialAssignmentsKeys | UWA-PMS-Frontend-main/src/components/pages/CoordinatorPages/CoordinatorProjectList.tsx:84-107 | the record has an entry for exactly the ids of projects that have a supervisor |
| CoordinatorProjectList.InitialAssignmentsEntries | UWA-PMS-Frontend-main/src/components/pages/CoordinatorPages/CoordinatorProjectList.tsx:84-107 | each entry is built from the last project with that id that has a supervisor |
| CoordinatorProjectList.BuildAssignments | UWA-PMS-Frontend-main/src/components/pages/CoordinatorPages/CoordinatorProjectList.tsx:84-106 | the forEach loop builds exactly the record |
| CoordinatorProjectList.Preselect | UWA-PMS-Frontend-main/src/components/pages/CoordinatorPages/CoordinatorProjectList.tsx:250-255 | the dialog preselects the recorded supervisor id exactly when the project has an entry with a truthy one |
| CoordinatorProjectList.AssignedEntry | UWA-PMS-Frontend-main/src/components/pages/CoordinatorPages/CoordinatorProjectList.tsx:268-278 | the written entry takes the chosen supervisor's id, name, email and type, or id 0 and empty fields when that supervisor is not listed |
| CoordinatorProjectList.CanUnassignSpec | UWA-PMS-Frontend-main/src/components/pages/CoordinatorPages/CoordinatorProjectList.tsx:295-300 | unassign is refused exactly when no entry names a supervisor for the project and the first project with that id has none |
| CoordinatorProjectList.FailureTextNonEmpty | UWA-PMS-Frontend-main/src/components/pages/CoordinatorPages/CoordinatorProjectList.tsx:148-222 | the message thrown by a failed request is never empty |
| CoordinatorProjectList.ProjectListPage.constructor | UWA-PMS-Frontend-main/src/components/pages/CoordinatorPages/CoordinatorProjectList.tsx:43-52 | the page starts empty, with no record, no selection and the dialog closed |
| CoordinatorProjectList.ProjectListPage.FetchProjects | UWA-PMS-Frontend-main/src/components/pages/CoordinatorPages/CoordinatorProjectList.tsx:54-111 | a load replaces the projects and rebuilds the record from them; a failure keeps both and reports 'Failed to load projects: …' |
| CoordinatorProjectList.ProjectListPage.Load | UWA-PMS-Frontend-main/src/components/pages/CoordinatorPages/CoordinatorProjectList.tsx:228-241 | supervisors load first and a failure there stops before the projects; the first failure is the error shown; a full load clears the error; the dialog and both selections stay |
| CoordinatorProjectList.ProjectListPage.OpenModal | UWA-PMS-Frontend-main/src/components/pages/CoordinatorPages/CoordinatorProjectList.tsx:250-255 | the dialog opens for the project with its recorded supervisor preselected |
| CoordinatorProjectList.ProjectListPage.Assign | UWA-PMS-Frontend-main/src/components/pages/CoordinatorPages/CoordinatorProjectList.tsx:257-293 | nothing without a project and a supervisor chosen; a failure shows why and changes no entry and no project; a success closes the dialog, clears the supervisor choice, writes the entry and reloads: a successful reload takes the reloaded projects and rebuilds the record from them and the unchanged supervisors; a failed one keeps the projects and the written entry; the supervisors and the selected project never change |
| CoordinatorProjectList.ProjectListPage.Unassign | UWA-PMS-Frontend-main/src/components/pages/CoordinatorPages/CoordinatorProjectList.tsx:295-324 | nothing when no supervisor is recorded; a failure shows why and keeps the projects and record; a success drops the entry and reloads: a successful reload takes the reloaded projects and rebuilds the record from them and the unchanged supervisors; a failed one keeps the projects; the supervisors, the dialog and both selections never change |
| SupervisorPage.PlusRuns | UWA-PMS-Frontend-main/src/components/pages/CoordinatorPages/SupervisorPage.tsx:68 | replacing each run of white space by '+' leaves no white space and never lengthens the name |
| SupervisorPage.PlusRunsNoSpace | UWA-PMS-Frontend-main/src/components/pages/CoordinatorPages/SupervisorPage.tsx:68 | a name without white space is unchanged |
| SupervisorPage.PlusRunsWord | UWA-PMS-Frontend-main/src/components/pages/CoordinatorPages/SupervisorPage.tsx:68 | a leading word is kept as it is |
| SupervisorPage.PlusRunsJoin | UWA-PMS-Frontend-main/src/components/pages/CoordinatorPages/SupervisorPage.tsx:68 | two words separated by any run of white space become word+word |
| SupervisorPage.PlusRunsGap | UWA-PMS-Frontend-main/src/components/pages/CoordinatorPages/SupervisorPage.tsx:68 | a whole run of white space becomes a single '+' |
| SupervisorPage.GapTrim | UWA-PMS-Frontend-main/src/components/pages/CoordinatorPages/SupervisorPage.tsx:68 | skipping a run of white space lands on the next word |
| SupervisorPage.WithAvatars | UWA-PMS-Frontend-main/src/components/pages/CoordinatorPages/SupervisorPage.tsx:66-69 | each supervisor keeps the server's fields and gains the avatar address built from its name |
| SupervisorPage.LoadSupervisors | UWA-PMS-Frontend-main/src/components/pages/CoordinatorPages/SupervisorPage.tsx:38-80 | supervisors load exactly when a JSON reply succeeds with a list; a thrown request or non-JSON body gives the server-error text; otherwise the server's message or 'Failed to load supervisors' |
| SupervisorPage.FormOf | UWA-PMS-Frontend-main/src/components/pages/CoordinatorPages/SupervisorPage.tsx:100-112 | the edit form takes the supervisor's name, email, contact, type, faculty, department and about |
| SupervisorPage.SubmitCheck | UWA-PMS-Frontend-main/src/components/pages/CoordinatorPages/SupervisorPage.tsx:114-131 | the save is refused exactly when name, email, faculty or department is empty; the body is the form, with the id only in edit mode |
| SupervisorPage.WithoutSupervisor | UWA-PMS-Frontend-main/src/components/pages/CoordinatorPages/SupervisorPage.tsx:203-204 | deleting never lengthens the list |
| SupervisorPage.WithoutSupervisorSpec | UWA-PMS-Frontend-main/src/components/pages/CoordinatorPages/SupervisorPage.tsx:203-204 | after a delete the list holds, in order, exactly the supervisors with another id |
| SupervisorPage.SupervisorList.constructor | UWA-PMS-Frontend-main/src/components/pages/CoordinatorPages/SupervisorPage.tsx:20-36 | the page starts with no supervisors, no error, the dialog closed and a blank form |
| SupervisorPage.SupervisorList.FetchSupervisors | UWA-PMS-Frontend-main/src/components/pages/CoordinatorPages/SupervisorPage.tsx:38-80 | a load replaces the list and clears the error; a failure keeps it and shows its message |
| SupervisorPage.SupervisorList.OpenNew | UWA-PMS-Frontend-main/src/components/pages/CoordinatorPages/SupervisorPage.tsx:86-98 | the dialog opens on a blank form, not in edit mode |
| SupervisorPage.SupervisorList.OpenEdit | UWA-PMS-Frontend-main/src/components/pages/CoordinatorPages/SupervisorPage.tsx:100-112 | the dialog opens on the supervisor's form, in edit mode for its id |
| SupervisorPage.SupervisorList.Submit | UWA-PMS-Frontend-main/src/components/pages/CoordinatorPages/SupervisorPage.tsx:114-175 | a refused form sends nothing; a save resets and closes the dialog, leaves edit mode and reloads, the supervisors and error then being those of LoadSupervisors on the reload reply; a failure keeps the form and edit mode and shows why |
| SupervisorPage.SupervisorList.Delete | UWA-PMS-Frontend-main/src/components/pages/CoordinatorPages/SupervisorPage.tsx:177-212 | nothing unless confirmed; a deleted supervisor leaves the list; a failure keeps it and shows why |
| Calendar.Normalize | UWA-PMS-Frontend-main/src/components/pages/ManagerPages/ManagerCalendarPage.tsx:156-163 | an event takes the id as text, missing fields as '' and at most the first five characters of the time; the copy in MemberCalendarPage.tsx (lines 128-140) is the same code |
| Calendar.NormalizeTime | UWA-PMS-Frontend-main/src/components/pages/ManagerPages/ManagerCalendarPage.tsx:160 | a time of at most five characters is kept, a longer one cut to its first five |
| Calendar.NormalizeAll | UWA-PMS-Frontend-main/src/components/pages/ManagerPages/ManagerCalendarPage.tsx:156-163 | the list is normalised item by item, keeping length and order |
| Calendar.LoadEvents | UWA-PMS-Frontend-main/src/components/pages/ManagerPages/ManagerCalendarPage.tsx:126-173 | events load exactly when a JSON reply carries a list; a thrown request or non-JSON body gives the server-error text; otherwise the server's message or 'Failed to load events' |
| Calendar.EventsOnDate | UWA-PMS-Frontend-main/src/components/pages/ManagerPages/ManagerCalendarPage.tsx:236 | every event listed for the day is on that date |
| Calendar.EventsOnDateSpec | src/components/pages/MemberPages/MemberCalendarPage.tsx:169 | the day's list holds, in order, exactly the events on that date |
| ManagerCalendarPage.AddCheck | UWA-PMS-Frontend-main/src/components/pages/ManagerPages/ManagerCalendarPage.tsx:238-287 | the save is refused exactly when the title is blank or the date empty; a form with an id updates that event and one without creates; the title and date go as typed and empty optional fields are left out |
| ManagerCalendarPage.Refreshed | UWA-PMS-Frontend-main/src/components/pages/ManagerPages/ManagerCalendarPage.tsx:303-337 | only an ok JSON reply carrying events replaces the list after a save |
| ManagerCalendarPage.WithoutEvent | UWA-PMS-Frontend-main/src/components/pages/ManagerPages/ManagerCalendarPage.tsx:384-389 | deleting never lengthens the list |
| ManagerCalendarPage.WithoutEventSpec | UWA-PMS-Frontend-main/src/components/pages/ManagerPages/ManagerCalendarPage.tsx:384-389 | after a delete the list holds, in order, exactly the events with another id |
| ManagerCalendarPage.CalendarPage.constructor | UWA-PMS-Frontend-main/src/components/pages/ManagerPages/ManagerCalendarPage.tsx:106-120 | the page starts with no events, no selection, a blank form and the dialog closed |
| ManagerCalendarPage.CalendarPage.FetchEvents | UWA-PMS-Frontend-main/src/components/pages/ManagerPages/ManagerCalendarPage.tsx:126-173 | a load replaces the events and clears the error; a failure keeps them and shows its message; the form, selections and dialog stay |
| ManagerCalendarPage.CalendarPage.DateClick | UWA-PMS-Frontend-main/src/components/pages/ManagerPages/ManagerCalendarPage.tsx:180-183 | the day is selected and becomes the form's date; the rest of the form, the selected event and the dialog stay |
| ManagerCalendarPage.CalendarPage.EventClick | UWA-PMS-Frontend-main/src/components/pages/ManagerPages/ManagerCalendarPage.tsx:185-234 | a successful detail request opens the normalised event; otherwise the error says why |
| ManagerCalendarPage.CalendarPage.AddEvent | UWA-PMS-Frontend-main/src/components/pages/ManagerPages/ManagerCalendarPage.tsx:238-347 | a refused form sends nothing and shows why; otherwise the save's effect; the selections and the dialog stay |
| ManagerCalendarPage.CalendarPage.SaveAndRefresh | UWA-PMS-Frontend-main/src/components/pages/ManagerPages/ManagerCalendarPage.tsx:259-347 | a failed save shows why and changes nothing else; a save reloads the list and clears the form, unless the reload throws, which keeps the form and shows its message; the selections and the dialog stay |
| ManagerCalendarPage.CalendarPage.Delete | UWA-PMS-Frontend-main/src/components/pages/ManagerPages/ManagerCalendarPage.tsx:349-399 | nothing unless confirmed; a delete drops the events with that id and clears the form only when it was editing that event; a failure shows why; the selections and the dialog stay |
| ManagerCalendarPage.CalendarPage.Edit | UWA-PMS-Frontend-main/src/components/pages/ManagerPages/ManagerCalendarPage.tsx:401-410 | the form takes the event's fields, its id included; nothing else changes |
| ManagerCalendarPage.CalendarPage.ClearForm | UWA-PMS-Frontend-main/src/components/pages/ManagerPages/ManagerCalendarPage.tsx:412-415 | the form is blank and the error cleared; nothing else changes |
| MemberCalendarPage.Loaded | src/components/pages/MemberPages/MemberCalendarPage.tsx:97-143 | a load replaces the events and clears the error; a failure keeps them and shows its message |
| MemberCalendarPage.DateClick | src/components/pages/MemberPages/MemberCalendarPage.tsx:155-157 | the clicked day becomes the selected date and nothing else changes |
| MemberCalendarPage.EventClickSpec | src/components/pages/MemberPages/MemberCalendarPage.tsx:159-167 | a click on a listed id opens the first event with it; an unlisted id changes nothing |
| MemberCalendarPage.DayEvents | src/components/pages/MemberPages/MemberCalendarPage.tsx:169 | the day's list holds exactly the events on the selected date |
| ManagerReportPage.NormalizeProject | src/components/pages/ManagerPages/ManagerReportPage.tsx:57-60 | a project keeps its id and takes its title, or 'Project #id' without one |
| ManagerReportPage.NormalizeReport | src/components/pages/ManagerPages/ManagerReportPage.tsx:94-101 | a report keeps its ids and takes the project name, file name and address or their defaults; the creation time is the server's when non-empty, else now |
| ManagerReportPage.NormalizeProjects | src/components/pages/ManagerPages/ManagerReportPage.tsx:57-60 | the projects are normalised one by one, keeping length and order |
| ManagerReportPage.NormalizeReports | src/components/pages/ManagerPages/ManagerReportPage.tsx:94-101 | the reports are normalised one by one, keeping length and order |
| ManagerReportPage.Preselect | src/components/pages/ManagerPages/ManagerReportPage.tsx:62 | a chosen project is kept; with none chosen the first listed project is selected |
| ManagerReportPage.FilteredReports | src/components/pages/ManagerPages/ManagerReportPage.tsx:116-126 | the search never lengthens the list |
| ManagerReportPage.FilteredReportsSpec | src/components/pages/ManagerPages/ManagerReportPage.tsx:116-126 | an empty term shows every report; otherwise exactly the reports whose project name or file name contains the term ignoring case, in order |
| ManagerReportPage.GenerateCheck | src/components/pages/ManagerPages/ManagerReportPage.tsx:128-135 | generation goes ahead exactly when Number of the selection is a positive number, which is the id sent; otherwise 'Please select a valid project.' |
| ManagerReportPage.GenerateCheckOfId | src/components/pages/ManagerPages/ManagerReportPage.tsx:62-135 | a preselected positive project id always passes the check as itself |
| ManagerReportPage.WithoutReport | src/components/pages/ManagerPages/ManagerReportPage.tsx:199-201 | deleting never lengthens the list |
| ManagerReportPage.WithoutReportSpec | src/components/pages/ManagerPages/ManagerReportPage.tsx:199-201 | after a delete the list holds, in order, exactly the reports with another id |
| ManagerReportPage.ReportPage.constructor | src/components/pages/ManagerPages/ManagerReportPage.tsx:19-31 | the page starts with no projects, no selection, no reports, no search and no messages |
| ManagerReportPage.ReportPage.LoadProjects | src/components/pages/ManagerPages/ManagerReportPage.tsx:34-70 | a load replaces the projects and preselects; a failure keeps them and shows why |
| ManagerReportPage.ReportPage.LoadReports | src/components/pages/ManagerPages/ManagerReportPage.tsx:73-109 | a load replaces the reports and clears the error; a failure keeps them and shows why |
| ManagerReportPage.ReportPage.Search | src/components/pages/ManagerPages/ManagerReportPage.tsx:116-126 | the shown reports are the search of the list by the new term; nothing else changes |
| ManagerReportPage.ReportPage.GeneratePdf | src/components/pages/ManagerPages/ManagerReportPage.tsx:128-171 | a bad selection shows 'Please select a valid project.', clears the message, sends nothing and keeps the reports; otherwise the generate request's effect |
| ManagerReportPage.ReportPage.SendGenerate | src/components/pages/ManagerPages/ManagerReportPage.tsx:136-171 | one generate request for the id; a success shows the server's message or 'PDF generated successfully.' and reloads the reports; a failure shows why and keeps them |
| ManagerReportPage.ReportPage.DeleteReportById | src/components/pages/ManagerPages/ManagerReportPage.tsx:173-208 | nothing unless confirmed; a delete drops the report and says 'Report deleted successfully.'; a failure keeps it and shows why |
| NewProjectDialog.Validate | UWA-PMS-Frontend-main/src/components/pages/ManagerPages/NewProjectDialogPage.tsx:42-49 | no problem exactly when the title is not blank, both dates are given and the end is not before the start; otherwise the first missing field is named |
| NewProjectDialog.CanSaveValidates | UWA-PMS-Frontend-main/src/components/pages/ManagerPages/NewProjectDialogPage.tsx:42-102 | an enabled save button always passes the check; a passing check with two real dates enables it; a start that is not a date keeps it disabled although the check passes |
| NewProjectDialog.PayloadOf | UWA-PMS-Frontend-main/src/components/pages/ManagerPages/NewProjectDialogPage.tsx:65-70 | the body has the trimmed title, the trimmed description or null when it is blank, and the two dates as typed |
| NewProjectDialog.Dialog.constructor | UWA-PMS-Frontend-main/src/components/pages/ManagerPages/NewProjectDialogPage.tsx:21-27 | the dialog starts closed with empty fields and no error |
| NewProjectDialog.Dialog.SetOpen | UWA-PMS-Frontend-main/src/components/pages/ManagerPages/NewProjectDialogPage.tsx:30-40 | closing clears the four fields and the error; opening changes nothing else |
| NewProjectDialog.Dialog.Create | UWA-PMS-Frontend-main/src/components/pages/ManagerPages/NewProjectDialogPage.tsx:51-99 | a problem found by the check is shown, nothing is sent and every field stays; otherwise the create request's effect |
| NewProjectDialog.Dialog.Send | UWA-PMS-Frontend-main/src/components/pages/ManagerPages/NewProjectDialogPage.tsx:58-99 | one create request; a created project closes the dialog, clears the fields and tells the list once; otherwise the four fields stay and the error says why |

## Left out

- Network, JSON and the browser: `fetch`, response parsing, `FormData`, `alert`/`confirm`, navigation, `location.reload` and console logging are not modelled. Each request's outcome is a `Reply` parameter. Each confirmation dialog is a `confirmed` flag. `JSON.parse`/`JSON.stringify` of the saved user are `parse`/`stringify` parameters.
- `postJSON` (`UWA-PMS-Frontend-main/src/lib/api.ts:4-14`) is modelled only through the messages its failures give (`AuthPage.PostFailure`). The text of the `TypeError` that a non-JSON success body raises is the `typeError` parameter.
- Clocks and date parsing: `Date.now()`, `new Date(x)` and `getTime()` are integer parameters (milliseconds). An unparsable date is `None`; where the source compares such a date (NaN), it is treated as false. `toLocaleDateString`, dayjs and the calendar widget are not modelled.
- Floating point: `Math.round(done / total * 100)` is modelled as exact rational rounding with halves rounded up. IEEE doubles may differ from it at exact .5 boundaries.
- JavaScript `Number(s)`: the model reads blank text as 0, decimal digit strings (optionally surrounded by white space) as their value, and everything else as NaN. Signs, decimals, exponents and hexadecimal forms are therefore NaN here, although they are numbers in JavaScript. This affects `Formatters.FormatDate`, `ManagerReportPage.GenerateCheck` and the `Number(id)` project id in `TaskList.TaskListPage.CreateTask`.
- Library string semantics: `trim`, `toLowerCase` and `\s` are ASCII only. `localeCompare` is an abstract order passed as `localeLe`; the alpha sort's order lemma assumes that order is total.
- String length: Dafny counts characters, while JavaScript's `.length` counts UTF-16 code units. The password rule's "at least 8 characters" (`AuthPage.IsPasswordStrong`) therefore differs for text outside the Basic Multilingual Plane, which counts twice in JavaScript.
- Prototype keys: the source groups tasks and maps status codes through plain JavaScript objects. A server status that names an inherited property, such as "constructor" or "toString", behaves differently there: `groupedTasks[task.status].push` throws, so `fetchTasks` shows the error and keeps the lanes, and `map[s] ?? 'TODO'` yields the inherited value. The model (`Kanban.LaneOf`, `Kanban.Grouped`, `TaskList.ApiToUi`) treats every unknown code alike: the task is left off the board, and the status reads as TODO.
- Concurrency: the `Promise.all` fan-out, `alive` unmount flags, overlapping requests, and loading/submitting flags are not modelled. A chain of requests is a sequence of replies taken in order. The Kanban board's un-awaited reload after a failed move is modelled as completing before the handler returns.
- React rendering, hooks and the drag-and-drop library: a drop is a plain record. `Kanban.Board.OnDragEnd` requires a source position that exists, which the library guarantees. The `key` bump that reloads the board is a counter (`kanbanKey`). The focus timer of the new-project dialog is not modelled. Its `onClose`/`onProjectCreated` callbacks are the `open` flag and the `created` counter.
- `CoordinatorProjectList`: `fetchProjects` reads a `supervisors` list captured before the state update renders, so on first load its name lookup sees an empty list. The model passes the current supervisors explicitly and does not reproduce this stale read.
- `MemberDashboard`: the four-request `refreshAll` chain is not modelled as one operation. Its parts are: the selection rule, the overview with its `totalTasks` fallback, and the per-project counts. The request chain has the same shape as `ManagerDashboard.LoadDashboard`.
- `Kanban`: the per-task assignment fetches, the member assign/unassign handlers and the task dialog's rendering are not modelled. The board's lanes, drag-and-drop, status update, task save guard and member filter are modelled.
- `SupervisorPage.WithAvatars`: `full_name` is a string. A missing name, which the source would print as `undefined` in the avatar address, is not modelled.
- `ManagerProfilePage.tsx`, `Header.tsx`, `vite.config.ts` and the axios set-up in `UWA-PMS-Frontend-main/src/api.ts` load or save a profile, preview a file or configure the build. They hold no logic that this model covers.
- The report page's `formatDate`, the notice pages' badge colours and every page's markup are presentation only.
