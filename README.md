# TaskFlow task dashboard — a Dafny model

TaskFlow is a small Next.js/React dashboard for personal tasks. This project
models its logic in Dafny and proves properties of that model:

- **The browser-local task store** (`useLocalTasks`, module `LocalTasks`). An
  ordered list of `Task` records is mirrored to one storage slot under the key
  `taskflow_tasks`. It supports:
  - a load that falls back to a five-record seed;
  - append-create, map-based update and filter-based delete;
  - clear and reset;
  - the statistics.
- **The API-backed store** (`useTasks`, module `RemoteTasks`). It has a
  four-record fallback and a status line (`apiStatus`). A status move there
  needs a known id and does not stamp `updated_date`.
- **The analytics computation** (`useAnalytics`, module `Analytics`):
  - counts per status and per priority;
  - the rounded completion rate;
  - the overdue and this-week counts.
- **The rules on the pages and components that decide what the user sees:**
  - the kanban board's dragged-task state machine (`TasksPage`);
  - the form's defaults, edits, blank-title check and reset (`TaskForm`);
  - the chart rows (`ChartCard`);
  - the analytics page's colours, insight thresholds, summary and overdue
    banner (`AnalyticsPage`);
  - the user list's initials, role badges and load fallback (`UserList`);
  - the light/dark theme provider (`Theme`).

Shared definitions live in three modules:

- `Tasks`: the `Task` record, the order-preserving `Filter`, the queries and
  the rounded `Percent`.
- `Text`: the JavaScript string operations the code relies on.
- `Wrappers`: `Option` and `Result`.

Conventions:

- **Time is a parameter.**
  - A calendar date `YYYY-MM-DD` is a day number (days since 1970-01-01).
    `new Date('YYYY-MM-DD')` is midnight UTC of that day (`DayStart`).
  - "Now" is an instant in milliseconds.
  - "Today" is a day-number parameter of the operations that stamp dates
    (`CreateTask`, `UpdateTask`, `UpdateTaskStatus`). Callers are expected
    to pass `DayOf(now)`, the day number of the current instant's UTC date,
    which is what `toISOString().split('T')[0]` gives. No contract checks
    that they do.
- **Ids are parameters.** `Date.now()` ids are passed in.
- **Statuses, priorities and themes are raw strings.** Their declared union
  types are not checked at run time: records come from parsed JSON and from
  casts. Validity is a predicate (`ValidStatus`, `ValidPriority`,
  `ValidTheme`), and every count identity states what happens when it fails.
- **Storage is abstract.**
  - Storage slots are `Option<string>`.
  - `JSON.stringify` and `JSON.parse` are functions the store is built with. A
    parse failure is `None`.
  - A failing access to the slot of the task list is a boolean parameter of the
    operation (`Load`, `SaveEffect`, `ClearAllTasks`, `ResetTasks`).
- **Records the code modifies in place are classes.** Each method states the
  whole new state. Pure computations are functions with lemmas.

Behaviour that follows the code rather than its obvious reading:

- `clearAllTasks` removes the slot. The save effect that runs after the list
  changes then writes the empty list back, so the store does not return to
  the seed on the next load.
- `resetTasks` writes without a `try`, so a failing write escapes after the
  list has been replaced (`ResetTasks` returns `ok == false`).
- The saved theme is used whenever it is non-empty, whatever the string, and
  `toggleTheme` maps every value other than `light` to `light`.
  - For the two themes, toggling twice restores the theme.
  - For any other stored string, toggling twice gives `dark` (`ToggleTwice`).
- The status chart's label replaces only the first `-` (`String.replace` with
  a string pattern).
- Pending tasks share the grey bar colour of an unknown status.
- The role badge is case-sensitive, so the capitalised roles the API's own
  sample users carry (`Admin`, `User`) get the grey default.

## Model

| member | source | states |
|---|---|---|
| Tasks.Filter | src/hooks/useLocalTasks.ts:147-154 | the per-status and per-priority queries return an order-preserving subsequence of the list, no longer than it, holding exactly the members that match |
| Tasks.DayOf | src/hooks/useLocalTasks.ts:106-107 | the date of an instant is the day whose start is at most the instant and whose successor starts after it |
| Tasks.DayOfUnique | src/hooks/useLocalTasks.ts:106-107 | that day is the only one containing the instant |
| Tasks.FilterMultiplicity | src/hooks/useLocalTasks.ts:143 | a filter keeps every passing record as many times as it occurs and drops every failing one |
| Tasks.FilterKeepsAll | src/hooks/useLocalTasks.ts:142-144 | a filter returns the list unchanged exactly when every element passes |
| Tasks.FilterWeaker | src/hooks/useLocalTasks.ts:190-207 | filtering by a weaker condition keeps at least as many records |
| Tasks.FilterDisjoint | src/hooks/useLocalTasks.ts:190-197 | two filters with exclusive conditions keep at most the whole list between them |
| Tasks.OverdueAndThisWeek | src/hooks/useLocalTasks.ts:190-207 | no overdue task is completed; overdue plus completed is at most the total; later instants never have fewer overdue tasks or more this-week tasks |
| Tasks.FindById | src/hooks/useLocalTasks.ts:157-159 | `getTaskById` is none exactly when no record has the id, otherwise the first record with it |
| Tasks.StatusPartition | src/hooks/useLocalTasks.ts:175-178 | the three per-status counts plus the records with any other status make up the whole list |
| Tasks.StatusCountsSum | src/hooks/useLocalTasks.ts:175-178 | pending + in progress + completed is at most the total, and equals it exactly when every status is one of the three |
| Tasks.PriorityPartition | src/hooks/useAnalytics.ts:83-88 | the four per-priority counts plus the records with any other priority make up the whole list |
| Tasks.PriorityCountsSum | src/hooks/useAnalytics.ts:83-88 | the per-priority counts add up to at most the total, and to the total exactly when every priority is one of the four |
| Tasks.Percent | src/hooks/useLocalTasks.ts:185 | the completion rate is 0 for an empty list, otherwise 100·value/total rounded half up (r − ½ ≤ 100·value/total < r + ½) |
| Tasks.PercentUnique | src/hooks/useAnalytics.ts:57 | that rounding band has exactly one integer in it, so the rate is determined |
| Tasks.PercentInRange | src/components/ChartCard.tsx:22 | a share of a total is a percentage between 0 and 100 |
| Text.FirstIndex | src/hooks/useTasks.ts:101 | the position of the first occurrence: none before it, the character at it, and the length exactly when the character is absent |
| Text.ReplaceFirst | src/hooks/useTasks.ts:101 | `replace('-', ' ')` puts a space at the first `-` and changes nothing else; without a `-` the string is unchanged |
| Text.ReplaceFirstAbsent | src/app/analytics/page.tsx:183 | a key without `-` is its own label |
| Text.TrimStart | src/components/TaskFormModal.tsx:39 | dropping leading whitespace leaves a suffix that starts with a non-space |
| Text.TrimEnd | src/components/TaskFormModal.tsx:39 | dropping trailing whitespace leaves a prefix that ends with a non-space |
| Text.TrimEmptyIffBlank | src/components/TaskFormModal.tsx:39 | `title.trim()` is empty exactly when every character of the title is JavaScript whitespace |
| Text.Split | src/components/UserList.tsx:89 | `split(' ')` gives at least one segment and no segment contains a space |
| Text.JoinSplit | src/components/UserList.tsx:89 | joining the segments back with the separator gives the string |
| Text.SplitCount | src/components/UserList.tsx:89 | there is one segment more than there are separators |
| Text.HeadsOfSplit | src/components/UserList.tsx:88-91 | the first characters of the segments, with empty segments adding nothing, are exactly the characters that start a word |
| Text.Upper | src/components/UserList.tsx:92 | upper-casing keeps the length and upper-cases each ASCII letter in place |
| Text.Take | src/components/UserList.tsx:93 | `slice(0, n)` is the prefix of exactly n characters, or the whole string when it is shorter |
| Text.Decimal | src/app/analytics/page.tsx:231 | a number is printed as decimal digits without a leading zero |
| Text.DecimalRoundTrip | src/app/analytics/page.tsx:231 | reading the printed digits back gives the number |
| Text.DecimalInjective | src/app/analytics/page.tsx:231 | different counts print differently |
| Text.NumberTextRoundTrip | src/app/analytics/page.tsx:55 | an interpolated integer, negative ones included, reads back as itself |
| LocalTasks.InitialTasksShape | src/hooks/useLocalTasks.ts:19-65 | the seed is five well-formed records with ids 1 to 5 in order |
| LocalTasks.Updated | src/hooks/useLocalTasks.ts:122-131 | the update keeps the length and the order; a record with the id becomes the patch merged over it with today's `updated_date`, and every other record is unchanged |
| LocalTasks.UpdatedAbsent | src/hooks/useLocalTasks.ts:123-129 | updating an id no record has leaves the list unchanged |
| LocalTasks.StatusUpdated | src/hooks/useLocalTasks.ts:137-139 | after a status update every record with the id has the new status and today's date and keeps its other fields |
| LocalTasks.FindAfterStatusUpdate | src/hooks/useLocalTasks.ts:137-139 | looking the id up after a status update finds the first such record with the new status and date |
| LocalTasks.DeleteAbsent | src/hooks/useLocalTasks.ts:142-144 | deleting an id no record has leaves the list unchanged |
| LocalTasks.DeleteRemoves | src/hooks/useLocalTasks.ts:142-144 | after a delete no record has the id, every other record is still there, and the order is kept |
| LocalTasks.ReloadAfterSave | src/hooks/useLocalTasks.ts:74-76 | a slot the save effect wrote loads back as the same list when the parser inverts the encoder |
| LocalTasks.LoadedFallback | src/hooks/useLocalTasks.ts:72-87 | the load gives the seed exactly when the slot is absent, empty or unparseable, and the parsed list otherwise |
| LocalTasks.GetTaskStats | src/hooks/useLocalTasks.ts:174-187 | the statistics count each status; their sum is at most the total, and equals it exactly when every status is valid; the rate is 0..100, 0 for an empty list and otherwise the rounded share of completed tasks |
| LocalTasks.StatsOfEmpty | src/hooks/useLocalTasks.ts:162-165 | a cleared store reports all-zero statistics |
| LocalTasks.LocalTaskStore.constructor | src/hooks/useLocalTasks.ts:68-69 | a new store has no tasks and is loading |
| LocalTasks.LocalTaskStore.Load | src/hooks/useLocalTasks.ts:72-88 | loading ends; the list is the parsed slot, or the seed when the slot is empty, unparseable or unreadable; the seed is written back only for an empty slot |
| LocalTasks.LocalTaskStore.SaveEffect | src/hooks/useLocalTasks.ts:91-99 | once loaded, the slot holds the encoded list; a failed write leaves it as it was |
| LocalTasks.LocalTaskStore.CreateTask | src/hooks/useLocalTasks.ts:102-112 | exactly one record is appended, earlier ones are unchanged, and it is created and updated today with the given id and the draft's fields |
| LocalTasks.LocalTaskStore.UpdateTask | src/hooks/useLocalTasks.ts:115-134 | the list becomes `Updated` of the old list |
| LocalTasks.LocalTaskStore.UpdateTaskStatus | src/hooks/useLocalTasks.ts:137-139 | a status update is an update with a patch holding only the status |
| LocalTasks.LocalTaskStore.DeleteTask | src/hooks/useLocalTasks.ts:142-144 | the list keeps exactly the records with other ids, in order |
| LocalTasks.LocalTaskStore.ClearAllTasks | src/hooks/useLocalTasks.ts:162-165 | the list is empty; the slot is removed, or kept when the removal throws, and then the error reaches the caller |
| LocalTasks.LocalTaskStore.ResetTasks | src/hooks/useLocalTasks.ts:168-171 | the list is the seed whatever came before; the slot holds the encoded seed, or the failure is reported |
| LocalTasks.ReloadScenario | src/hooks/useLocalTasks.ts:72-99 | load, a status move and the save effect, then a second store on the same slot reads back the same list |
| RemoteTasks.MockTasksShape | src/hooks/useTasks.ts:30-67 | the fallback is four well-formed records with ids 1 to 4 |
| RemoteTasks.MoveMessageInProgress | src/hooks/useTasks.ts:101 | a move to `in-progress` is reported as "moved to in progress" |
| Tasks.InProgressSpaced | src/hooks/useTasks.ts:101 | the first `-` of `in-progress` becomes a space, giving "in progress" |
| Tasks.NoDashToReplace | src/app/analytics/page.tsx:183 | `pending` and `completed` have no `-`, so their labels are unchanged |
| RemoteTasks.ReplaceById | src/hooks/useTasks.ts:98-100 | the map keeps length and order and replaces exactly the records with the id |
| RemoteTasks.MoveStatusEffect | src/hooks/useTasks.ts:93-100 | a move keeps length and positions; other records are untouched; a record with the id changes its status only, stamping no `updated_date`, when ids are unique |
| RemoteTasks.UniqueFind | src/hooks/useTasks.ts:93 | with unique ids, the record found is the one at that id's position |
| RemoteTasks.TaskService.constructor | src/hooks/useTasks.ts:14-16 | a new store has no tasks, is loading, and has an empty status line |
| RemoteTasks.TaskService.LoadTasks | src/hooks/useTasks.ts:18-72 | loading ends; the fetched list and status, or the four fallback records and the "API unavailable" message |
| RemoteTasks.TaskService.CreateTask | src/hooks/useTasks.ts:74-90 | one record is appended, created today, with no `updated_date`; success is reported |
| RemoteTasks.TaskService.UpdateTaskStatus | src/hooks/useTasks.ts:92-108 | true exactly when the id is known; an unknown id changes nothing; otherwise the move and its message |
| RemoteTasks.TaskService.DeleteTask | src/hooks/useTasks.ts:110-120 | every record with the id is removed and success is reported even when none matched |
| Analytics.Lookup | src/app/analytics/page.tsx:119-121 | reading a key of a count record is none exactly when the key is missing, and otherwise an entry's value |
| Analytics.StatusEntriesSum | src/hooks/useAnalytics.ts:76-80 | the status record has the three keys in order and its values add up to the three status counts |
| Analytics.PriorityEntriesSum | src/hooks/useAnalytics.ts:83-88 | the priority record has the four keys in order and its values add up to the four priority counts |
| Analytics.ComputeAnalytics | src/hooks/useAnalytics.ts:55-88 | total is the list's length; the rate is 0..100, 0 for none, and otherwise the rounded share; overdue and this-week are counts within the total; each record's sum is at most the total, and equals it exactly when every value is valid |
| Analytics.EmptyIsDefault | src/hooks/useAnalytics.ts:26-43 | the analytics of an empty list are the all-zero defaults |
| Analytics.AnalyticsHook.constructor | src/hooks/useAnalytics.ts:46-47 | the hook starts with the defaults and loading |
| Analytics.AnalyticsHook.CalculateAnalytics | src/hooks/useAnalytics.ts:49-105 | loading ends; the metrics of the fetched list, or the previous metrics when the fetch fails |
| TasksPage.EachTaskInOneColumn | src/app/tasks/page.tsx:26-30 | a task with a valid status is shown in exactly one column and a task with any other status in none |
| TasksPage.BannerClass | src/app/tasks/page.tsx:79-83 | the status line is green exactly when it contains the check mark, otherwise yellow |
| TasksPage.BannerColours | src/app/tasks/page.tsx:78-85 | created, deleted and moved messages are green; the fallback message is yellow |
| TasksPage.TasksPage.constructor | src/app/tasks/page.tsx:23-24 | the form is hidden and nothing is dragged |
| TasksPage.TasksPage.OpenAddTask | src/app/tasks/page.tsx:97 | the add button shows the form |
| TasksPage.TasksPage.CloseAddTask | src/app/tasks/page.tsx:111 | closing hides the form |
| TasksPage.TasksPage.HandleAddTask | src/app/tasks/page.tsx:32-35 | a new record is created in the store, then the form is hidden |
| TasksPage.TasksPage.HandleDragStart | src/app/tasks/page.tsx:37-40 | the given record becomes the dragged one |
| TasksPage.TasksPage.HandleDrop | src/app/tasks/page.tsx:47-57 | the drag is always cleared; with no dragged task, or a drop on its own status, the store is untouched; otherwise the store's status move runs |
| TasksPage.TasksPage.HandleDeleteTask | src/app/tasks/page.tsx:59-62 | the store deletes only when the confirmation is accepted |
| TaskForm.Merge | src/components/TaskFormModal.tsx:14-21 | a partial form overrides exactly the fields it names |
| TaskForm.MergeIdempotent | src/components/TaskFormModal.tsx:31-35 | merging the same initial data again changes nothing |
| TaskForm.FullPatchOverrides | src/components/TaskFormModal.tsx:14-21 | initial data naming every field determines the form |
| TaskForm.Apply | src/components/TaskFormModal.tsx:52-56 | an edit changes only its own field |
| TaskForm.EditIsPatch | src/components/TaskFormModal.tsx:52-56 | an edit is the one-field partial merge, and a later edit of the same field overwrites it |
| TaskForm.TaskFormModal.constructor | src/components/TaskFormModal.tsx:14-21 | the form starts as the defaults with the initial data over them |
| TaskForm.TaskFormModal.ApplyInitialData | src/components/TaskFormModal.tsx:31-35 | new initial data is merged over the current fields |
| TaskForm.TaskFormModal.HandleChange | src/components/TaskFormModal.tsx:52-56 | the form becomes the edited form |
| TaskForm.TaskFormModal.HandleSubmit | src/components/TaskFormModal.tsx:37-50 | nothing is submitted, and the form is kept, exactly when the title is blank; otherwise the current fields are submitted untrimmed and the form is reset to the defaults, without the initial data |
| TaskForm.SubmitToBoard | src/components/TaskFormModal.tsx:37-50 | a task reaches the store exactly when the title is not blank, carrying the form's fields; then the form is reset and the status line reports the creation, otherwise form, list and status line are unchanged |
| ChartCard.ChartData | src/components/ChartCard.tsx:19-24 | one row per entry in order, with the formatted label, the value, the colour of the key, and a percentage that is 0 without a total and the rounded share otherwise |
| ChartCard.DefaultLabels | src/components/ChartCard.tsx:17 | without `formatLabel` the labels are the keys |
| ChartCard.EmptyChart | src/components/ChartCard.tsx:22 | with a zero total every bar is 0% |
| ChartCard.BarsInRange | src/components/ChartCard.tsx:22 | with non-negative counts adding up to at most the total, every bar is between 0% and 100% |
| AnalyticsPage.PriorityColor | src/app/analytics/page.tsx:14-22 | a priority gets a non-grey colour exactly when it is one of the four |
| AnalyticsPage.PriorityColorsDistinct | src/app/analytics/page.tsx:14-22 | the four priorities have four different colours |
| AnalyticsPage.StatusColor | src/app/analytics/page.tsx:24-31 | the bar is grey exactly when the status is neither completed nor in progress |
| AnalyticsPage.InsightMessage | src/app/analytics/page.tsx:33-50 | goal: ≥ 80, 60–79, below 60; time: ≤ 3, 4–7, above 7; weekly: ≥ 5, 2–4, below 2 — each band has its message and only it |
| AnalyticsPage.InsightMonotone | src/app/analytics/page.tsx:33-50 | a higher rate or weekly count, or a lower completion time, never gets a lesser message |
| AnalyticsPage.GoalDescriptionShows | src/app/analytics/page.tsx:100 | the goal card shows the completion rate, readable back as the rate, and ends with the goal insight for that rate |
| AnalyticsPage.WeeklyDescriptionShows | src/app/analytics/page.tsx:112 | the weekly card opens with the week's count, readable back as the count, and ends with the weekly insight for it |
| AnalyticsPage.CompletionRateText | src/app/analytics/page.tsx:55 | the metric is the rate's digits, readable back as the rate, followed by `%` |
| AnalyticsPage.SummaryData | src/app/analytics/page.tsx:117-122 | the summary is the total and the three status counts, a missing key reading 0 |
| AnalyticsPage.SummaryOfComputed | src/app/analytics/page.tsx:117-122 | on computed analytics the summary shows the status counts, which add up to the total exactly when every status is valid |
| AnalyticsPage.StatusLabels | src/app/analytics/page.tsx:183 | the status chart reads "pending", "in progress" and "completed" |
| AnalyticsPage.StatusChartOfComputed | src/app/analytics/page.tsx:178-184 | the status chart has the three bars in order, and its completed bar is the completion rate |
| AnalyticsPage.ChartsInRange | src/app/analytics/page.tsx:171-184 | every bar of both charts is between 0% and 100% |
| AnalyticsPage.OverdueBanner | src/app/analytics/page.tsx:222 | the action banner appears exactly when something is overdue |
| AnalyticsPage.OverdueBannerCount | src/app/analytics/page.tsx:231 | the banner shows the count, which reads back as that count, and "tasks" exactly when it is above one |
| UserList.SampleUsersShape | src/components/UserList.tsx:31-71 | three sample users with distinct ids, the roles admin, manager and user, and statistics that add up |
| UserList.DisplayedRole | src/components/UserList.tsx:162-163 | a missing or empty role is shown as "user", any other role as itself |
| UserList.RoleColor | src/components/UserList.tsx:78-85 | the badge is grey exactly when the role is not admin, manager or user |
| UserList.RoleColors | src/components/UserList.tsx:78-85 | the known roles have distinct badges; a missing role gets the user badge; capitalised roles are not recognised |
| UserList.Initials | src/components/UserList.tsx:87-94 | initials have at most two characters |
| UserList.InitialsAreWordStarts | src/components/UserList.tsx:88-93 | the initials are the first two word starts, upper-cased, in order |
| UserList.CompactStatistics | src/components/UserList.tsx:213-216 | the compact statistic is the completed count, a `/`, then the total, each readable back as its number |
| UserList.Render | src/components/UserList.tsx:101-129 | the spinner exactly while loading, "No users found" exactly for an empty list, else the list with a notice exactly when there is an error |
| UserList.UserListState.constructor | src/components/UserList.tsx:12-14 | the list starts empty, loading and without an error |
| UserList.UserListState.LoadUsers | src/components/UserList.tsx:20-76 | loading ends; the response's users (none when missing) and no error, or the three sample users and the failure message |
| UserList.ViewAfterLoad | src/components/UserList.tsx:123-129 | after a failure the sample users are listed under the failure notice |
| Theme.Toggled | src/contexts/ThemeContext.tsx:51-57 | a toggle yields a valid theme, dark exactly from light |
| Theme.ToggleTwice | src/contexts/ThemeContext.tsx:51-57 | on the two themes a toggle switches and two toggles restore; any other string toggles to light and twice to dark |
| Theme.InitialTheme | src/contexts/ThemeContext.tsx:22-25 | the saved value when it is non-empty, unvalidated; otherwise dark exactly when the system prefers dark |
| Theme.ApplyClasses | src/contexts/ThemeContext.tsx:36-39 | the root keeps its other classes, loses light and dark, and gains the theme |
| Theme.ApplyClassesProperties | src/contexts/ThemeContext.tsx:32-45 | a valid theme leaves exactly that one of light/dark; applying twice is applying once; the last application wins |
| Theme.UseTheme | src/contexts/ThemeContext.tsx:76-81 | the hook fails with its message exactly when there is no provider value |
| Theme.ThemeProvider.constructor | src/contexts/ThemeContext.tsx:17-18 | the provider starts light and unmounted |
| Theme.ThemeProvider.Context | src/contexts/ThemeContext.tsx:64-73 | a value is provided exactly once mounted, and it carries the theme |
| Theme.ThemeProvider.InitEffect | src/contexts/ThemeContext.tsx:21-28 | the initial theme is chosen and the provider is mounted |
| Theme.ThemeProvider.ApplyEffect | src/contexts/ThemeContext.tsx:31-49 | once mounted, the root's classes, the saved key and `data-theme` carry the theme; before mount nothing changes |
| Theme.ThemeProvider.ToggleTheme | src/contexts/ThemeContext.tsx:51-57 | the theme is toggled and applied; before mount the document and storage are untouched |
| Theme.ThemeProvider.SetTheme | src/contexts/ThemeContext.tsx:59-62 | the theme is exactly the given one, and applied; before mount the document and storage are untouched |
| Theme.Mount | src/contexts/ThemeContext.tsx:20-49 | after mounting, the chosen theme is applied and saved, the next mount picks the same theme, and `useTheme` succeeds |
| Theme.SavedThemeIsKept | src/contexts/ThemeContext.tsx:22-25 | a saved non-empty theme wins over the system preference |

## Left out

- JSON encoding and parsing are injected functions. A parsed value that is not an array of records is not modelled.
- Dates that do not parse (`Invalid Date` compares false with everything) are not modelled: every due and created date is a valid day number.
- A date input's empty string is the same as an absent due date (`None`), because every rule treats them alike.
- Clock time is a parameter. Local-time day arithmetic in `setDate(getDate() - 7)` across a daylight-saving change is not modelled: the week is exactly seven times 86 400 000 ms.
- Tasks.Percent: rounds the exact rational 100·value/total half up, not the IEEE double product `(value / total) * 100`. When the exact share ends in .5, the double product can fall just below it and round down. For 23 of 40 the double is 57.49999999999999, so the program shows 57 where `Percent` gives 58; 29 of 200 (14 against 15) and 57 of 200 (28 against 29) behave alike. `LocalTasks.GetTaskStats`, `Analytics.ComputeAnalytics` and `ChartCard.ChartData` take their percentages from `Percent` and share this gap. Away from those ties the two agree, but that is not proved.
- LocalTasks.GetTaskStats: its completion rate is `Tasks.Percent`, so it has the rounding gap at exact .5 shares described above.
- Analytics.ComputeAnalytics: its completion rate is `Tasks.Percent`, so it has the same rounding gap.
- ChartCard.ChartData: its bar percentages are `Tasks.Percent`, so they have the same rounding gap.
- `averageCompletionTime` is random (`Math.random`), so it is left out of `AnalyticsData`. The "Time Efficiency" insight's thresholds are modelled on an integer value.
- LocalTasks.LocalTaskStore.UpdateTask: does not state the returned record. The hook assigns it inside a deferred state updater, so a caller may receive `undefined`.
- LocalTasks.LocalTaskStore.CreateTask: takes the fresh id as a parameter. `Date.now()` ids can collide, so nothing about id uniqueness is claimed.
- RemoteTasks.TaskService.CreateTask: does not model the `catch` branches of `createTask`, `updateTaskStatus` and `deleteTask`. Their bodies cannot throw.
- In a `Partial<Task>` or `Partial<TaskFormData>`, a key present with the value `undefined` is not modelled. Such a key erases the field when spread; a patch field is either absent or a value.
- `String.prototype.toUpperCase` is ASCII only here. Characters whose upper case is longer (`ß`), and names with code points outside the Basic Multilingual Plane (where `n[0]` is half a surrogate pair), are not modelled.
- `toLocaleDateString` in the user list depends on the locale and is not modelled. Neither are the avatar image and the class names that differ between the compact and the full layout; the compact layout's "completed/total" statistic is modelled (`CompactStatistics`).
- The theme provider's storage accesses (`getItem` at mount, `setItem` in the apply effect) are not guarded and are modelled as always succeeding. A throw there escapes the effect and is left out.
- The chart card's "No data available" note is markup shown for a zero total; only the zero percentages it goes with are modelled.
- `classList.add` throws for a theme string with whitespace. A stored theme like that is not modelled.
- `console` logging, focus handling, `e.preventDefault()` and `dataTransfer` settings have no state the model keeps.
- React scheduling is not modelled: effects run in order, updaters apply at once, and the closure over stale `tasks` in the API store's `updateTaskStatus` is read as the current list.
- The API clients (`src/utils/api.ts`, `src/lib/api.ts`) are not part of this model. Their results are parameters.
- The settings page and the dashboard page are not part of this model: one holds transient UI state only, and the other calls a `clearAllTasks` it never obtains from the hook.
- The presentational components are not part of this model: Navigation, Layout, ThemeToggle, HeroSection, MetricCard, InsightCard, Loading, StatsCards, TaskCard, KanbanColumn, RecentTasks, StatusBanner and ClientLayoutWrapper. Neither are the lookup tables in `src/utils/ui.ts`.
