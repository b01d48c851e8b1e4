# Task manager: a Dafny model of the server reconciler and the client task state

The task manager has two halves:

- **The server** keeps every user's tasks in one collection. It serves five
  single-task handlers, plus a bulk `syncTasks` handler that merges a
  client's offline copy back into the collection.
- **The client** keeps the list it shows, an offline cache of the same
  tasks, and the filter options. It also has forms that check what the
  user types, views derived from the list (calendar grid, statistics
  cards, dashboard), and a sign-in hook with a demo mode.

This project models that logic in Dafny and proves what each part promises.

One module per source file:

| module | source |
|---|---|
| `TaskSchema` (task_schema.dfy) | server/src/models/Task.js |
| `TaskController` (task_controller.dfy) | server/src/controllers/taskController.js |
| `Lib` (lib.dfy) | src/lib/index.ts |
| `TasksApi` (tasks_api.dfy) | src/api/tasks.ts |
| `UseTasks` (use_tasks.dfy) | src/hooks/useTasks.ts |
| `TaskForm` (task_form.dfy) | src/components/TaskForm.tsx |
| `Calendar` (calendar.dfy) | src/pages/Calendar.tsx |
| `StatsCards` (stats_cards.dfy) | src/components/StatsCards.tsx |
| `Dashboard` (dashboard.dfy) | src/pages/Dashboard.tsx |
| `FilterBar` (filter_bar.dfy) | src/components/FilterBar.tsx |
| `UseAuth` (use_auth.dfy) | src/hooks/useAuth.ts |
| `Signup` (signup.dfy) | src/pages/Signup.tsx |
| `Common` (common.dfy) | helpers: counting, filtering, a stable sort, prefixes, ASCII case mapping |

## The server

**The schema.** It is a function, `Validate`. It takes a submitted
document whose paths may be missing (`Draft`). It either fills in the
defaults and returns a `Fields` value, or refuses the document with every
error the schema finds.

**The store.** It is a map from task identifier to `Record`, held by the
class `TaskStore`. Each handler is a method on that class:

- `findById`, `findOne`, `create`, `findByIdAndUpdate` and `deleteOne`
  become map lookups and map updates.
- A database call that throws (an identifier that cannot be cast, say) is
  modelled by a set `badIds`. Every store operation on an identifier in
  that set fails.
- The schema's `timestamps` option stamps `createdAt` and `updatedAt`. The
  current time is a parameter. A creation time the client supplies is not
  modelled (see "## Left out").

**The sync loop.** `syncTasks` is specified by `Reconcile`, a left fold of
`SyncStep` over the batch. `TaskStore.SyncTasks` runs the same walk in
place, and its loop invariant proves it ends where the fold ends.

The lemmas about `SyncStep` and `Reconcile` state the handler's rules:

- an unseen record is created, owned by the caller;
- a strictly later server version is reported as a conflict and kept;
- a tie or a later client version overwrites the server version;
- a record whose lookup, create or update throws is skipped;
- other users' records and records the batch does not mention are left
  alone;
- the reply reports at most one entry per record;
- a final listing that throws fails the request after the writes.

## The client

**`TaskClient`.** The hook's state is the class `TaskClient`, with fields
for the list, the cache (a map from identifier to task), the online flag
and the filters. Its methods take the server's `TaskStore` as a parameter,
so the online paths are specified against the server model. A request that
does not reach the server is a `reachable` flag that is false.

**Sync.** `SyncWithServer` proves these outcomes:

- The cache and the list become exactly the caller's tasks on the server.
- A task deleted only locally comes back when the server still holds it.
- A cached task the server skipped, and does not hold, disappears.
- When the server's final listing throws, the server keeps the batch's
  writes while the list and the cache stay as they were.

**The query string.** `TasksApi.BuildQueryParams` builds the query string
by four conditional appends. It is proved to be read back by the server
as exactly the filters the client meant.

**The rest.** The filter pipeline, the forms, the calendar grid, the
counters and the auth helpers are functions, with lemmas relating them to
independent statements of what they compute.

Timestamps are integers. A timestamp's calendar day in local time is an
abstract function `dayOf`, because the source relies on the platform's
`Date` for it.

## Model

| member | source | states |
|---|---|---|
| Lib.ParsePriority | src/lib/index.ts:10-15 | a string is a priority exactly when it is one of the four wire names, and it parses to the member with that name |
| Lib.ParseStatus | src/lib/index.ts:17-21 | a string is a status exactly when it is one of the three wire names, and it parses to the member with that name |
| Lib.ParseTaskType | src/lib/index.ts:23 | a string is a task type exactly when it is "reminder", "email" or "calendar", and it parses to that member |
| Lib.EnumerationsAreExact | src/lib/index.ts:10-23 | the enumerations have exactly four, three and three members, each listed once, and each member's name parses back to it |
| Lib.IsOverdue | src/lib/index.ts:69-73 | a completed task is never overdue; any other task is overdue exactly when its due time is strictly before now |
| Lib.PriorityLabel | src/lib/index.ts:75-88 | each priority's name gets that priority's label; "Normal" is returned exactly for strings outside the enumeration |
| Lib.PriorityLabelsDistinct | src/lib/index.ts:76-84 | two priorities get the same label only when they are the same priority, and no priority is labelled "Normal" |
| Lib.MergeFilters | src/hooks/useTasks.ts:244-246 | every key the patch carries replaces the old value, and every other key keeps its old value |
| Lib.MergeFiltersLaws | src/hooks/useTasks.ts:244-246 | an empty patch changes nothing; merging the same patch twice is merging it once; a patch carrying every key replaces everything |
| TaskSchema.ParseSyncStatus | server/src/models/Task.js:40-44 | a string is a sync status exactly when it is "synced", "pending" or "conflict", and it parses to that member |
| TaskSchema.Trim | server/src/models/Task.js:8 | the trimmed title starts and ends with no white space and is no longer than the input |
| TaskSchema.TrimDropsOnlyWhitespace | server/src/models/Task.js:8 | the trim occurs in the input with only white space before and after it |
| TaskSchema.TrimOfTrimmed | server/src/models/Task.js:8 | a string with no white space at either end is its own trim |
| TaskSchema.TrimIdempotent | server/src/models/Task.js:8 | trimming twice is trimming once |
| TaskSchema.Errors | server/src/models/Task.js:5-48 | a document has no errors exactly when every path accepts it: a trimmed title of 1 to 200 characters, a description of at most 1000, enumerated values inside their enumerations, and a type, due date and owner that are present |
| TaskSchema.ErrorsReportEachPath | server/src/models/Task.js:5-39 | a missing title, type, due date or owner is reported as required; a title too long after trimming is reported as too long; an unknown priority, status or type is reported as outside the enumeration |
| TaskSchema.Validate | server/src/models/Task.js:3-53 | a document is refused, with all its errors, exactly when some path rejects it. An admitted document gets the trimmed title, description "" by default, priority medium, status todo, sync status synced, `lastSyncedAt` now, and the type, due date and owner it gave |
| TaskSchema.NamesParseBack | server/src/models/Task.js:16-44 | each enumeration member's stored name is accepted as that member |
| TaskSchema.ValidateToDraft | server/src/models/Task.js:3-53 | an admitted document, validated again, comes back unchanged |
| TaskSchema.Overlay | server/src/controllers/taskController.js:107-110 | each path the update carries replaces the stored value, and every other path keeps it |
| TaskSchema.OverlayKeepsUntouched | server/src/controllers/taskController.js:107-110 | an empty update changes nothing, and every path an update leaves out keeps its old value |
| TaskController.Authorize | server/src/controllers/taskController.js:41-56 | the shared checks: a failing lookup is an error; a missing record is 404 whoever asks; another user's record is 403; only the caller's own record passes |
| TaskController.FindOwned | server/src/controllers/taskController.js:174-177 | the lookup finds a record only when that identifier holds a record owned by the caller, and never another user's record |
| TaskController.RawPriorityRankIsStringOrder | server/src/controllers/taskController.js:18-20 | sorting by priority sorts the stored strings alphabetically, so the rank agrees with string order and an urgent task sorts after a low one |
| TaskController.SortKey | server/src/controllers/taskController.js:16-22 | "createdAt" sorts newest first and "priority" by stored string; "dueDate", a missing value and any other value sort by ascending due date |
| TaskController.SyncStep | server/src/controllers/taskController.js:171-216 | one record adds at most one entry to at most one of the two lists; the store gains at most that record's identifier; a conflict leaves the store as it was; every other identifier keeps its record; a change needs a working lookup and a record that is new or the caller's |
| TaskController.ServerWins | server/src/controllers/taskController.js:190-193 | the server version wins exactly when the client's time is given and strictly earlier; a tie, or a client record without a time, goes to the client |
| TaskController.SyncCreateDraft | server/src/controllers/taskController.js:181-186 | the created document is the client's, except that the owner is the caller and it is stamped synced now |
| TaskController.SyncUpdatePatch | server/src/controllers/taskController.js:201-207 | the update is the client's document stamped synced now; the owner the client sends is kept, not replaced by the caller |
| TaskController.Reconcile | server/src/controllers/taskController.js:171-216 | the walk only appends to the two lists, adds at most one entry per record, and never removes a record |
| TaskController.ReconcileExtend | server/src/controllers/taskController.js:171 | walking one more record of the batch is one more step after the walk so far |
| TaskController.ReadSyncPayload | server/src/controllers/taskController.js:159-166 | the body holds a task list exactly when its key `tasks` holds an array, as `Array.isArray` tests; a missing key or a value that is not an array is refused, and the list is the array's records |
| TaskController.SyncStepSkipsFaults | server/src/controllers/taskController.js:213-215 | a record whose lookup throws changes neither the store nor the lists |
| TaskController.SyncStepCreates | server/src/controllers/taskController.js:179-187 | a record the caller does not have is created if the schema admits it: owned by the caller whatever owner the client sent, stamped synced now, stored under its identifier and appended to the synced list; a refused record changes nothing |
| TaskController.SyncStepConflict | server/src/controllers/taskController.js:190-198 | a server record updated strictly after the client's copy is reported as a conflict with both versions, and neither the store nor the synced list changes |
| TaskController.SyncStepClientWins | server/src/controllers/taskController.js:199-211 | a client copy as recent as the server's (a tie included), or one without a timestamp, overwrites the server record. The client's fields replace the server's and the rest stay. The record is stamped synced, keeps its creation time and is appended to the synced list. An owner the client sends replaces the caller |
| TaskController.ReconcileSparesOthers | server/src/controllers/taskController.js:174-177 | the walk leaves alone other users' records, records at throwing identifiers, and records the batch does not mention; new records appear only at identifiers the batch mentions whose lookups work |
| TaskController.SyncReportsAtMostBatch | server/src/controllers/taskController.js:168-216 | synced entries plus conflicts are at most the batch size |
| TaskController.SyncSingleNewRecord | server/src/controllers/taskController.js:179-187 | syncing one unseen, valid record stores it under its identifier, owned by the caller, reports exactly it, and leaves every other record as it was |
| TaskController.UpdatedRecord | server/src/controllers/taskController.js:88-119 | an update is written exactly when the shared checks pass and the overlaid document validates; the record written keeps the identifier and creation time, is stamped now and satisfies the schema |
| TaskController.TaskStore.constructor | server/src/models/Task.js:60 | the collection starts empty |
| TaskController.TaskStore.Select | server/src/controllers/taskController.js:10-24 | `find(query)` returns exactly the stored records the query selects, each once |
| TaskController.TaskStore.GetTasks | server/src/controllers/taskController.js:6-34 | the result is exactly the caller's records matching every present filter that is not "all", each once, sorted on the key `sortBy` names |
| TaskController.TaskStore.GetTask | server/src/controllers/taskController.js:39-65 | the record is returned exactly when the lookup works and the caller owns it; otherwise the reply is the shared check's error, 404 before 403 |
| TaskController.TaskStore.CreateTask | server/src/controllers/taskController.js:70-83 | the body with the caller written in as owner is validated. An admitted body is stored under a fresh identifier, stamped now and owned by the caller. A refused body or a taken identifier changes nothing |
| TaskController.TaskStore.UpdateTask | server/src/controllers/taskController.js:88-119 | after the shared checks, the update is spread over the stored document and validated. An admitted result replaces the record, keeping its creation time and stamping a new update time. Any failure changes nothing. The reply is a record exactly when `UpdatedRecord` gives one, and then it is that record |
| TaskController.TaskStore.DeleteTask | server/src/controllers/taskController.js:124-152 | after the shared checks the record is removed and nothing else changes; a failed check changes nothing |
| TaskController.TaskStore.Put | server/src/controllers/taskController.js:181-209 | a write files the record under its own identifier, changes no other identifier, and keeps every record filed under its own identifier |
| TaskController.TaskStore.SyncOne | server/src/controllers/taskController.js:172-215 | one iteration carried out on the store ends in the state `SyncStep` describes |
| TaskController.TaskStore.SyncTasks | server/src/controllers/taskController.js:157-230 | a body without a task array is refused with 400 and changes nothing. Otherwise the store ends as `Reconcile` describes, the reply carries its synced and conflict lists, and `serverTasks` is exactly the caller's records afterwards, each once. When the final listing throws, the store still ends as `Reconcile` describes and the reply is the error passed to `next` |
| TasksApi.ReadQueryTakesFirst | server/src/controllers/taskController.js:8 | for each key the server reads nothing when no pair has the key, and otherwise the value of the first pair that has it; this agrees with the handler only for query strings that carry each key at most once, which is what `BuildQueryParams` sends |
| TasksApi.AppendParam | src/api/tasks.ts:29-32 | a conditional append adds the pair at the end exactly when its condition holds, keeps the keys in order with no "all" filter value, and makes the server read that value for that key |
| TasksApi.BuildQueryParams | src/api/tasks.ts:28-32 | the params come out in the order status, priority, type, sortBy, at most four, none empty. No filter key carries "all". There are none without filters. The server reads back exactly the filters given, with `sortBy` kept even when it is "dueDate" |
| TasksApi.ToClientRecord | src/api/tasks.ts:57-62 | a local task travels with its identifier, its update time, its owner and its due date, and no sync stamp |
| TasksApi.SyncRequestBodyIsRead | src/api/tasks.ts:57-62 | the server finds the list under the key the client uses: one record per local task, in order, carrying the same identifiers |
| UseTasks.PriorityWeight | src/hooks/useTasks.ts:13-18 | each weight lies between 1 and 4, urgent alone weighs 4 and low alone weighs 1 |
| UseTasks.PriorityWeightOrder | src/hooks/useTasks.ts:13-18 | the weights run from 1 to 4, one per priority, rising with urgency |
| UseTasks.MatchesValue | src/hooks/useTasks.ts:120-125 | "all" matches every task, any other value only a task with that value, and a missing key matches no task |
| UseTasks.MatchesSearch | src/hooks/useTasks.ts:126-129 | a missing or empty search matches every task; otherwise a task matches only when its lower-cased title or description contains the lower-cased search, and always when its title does |
| UseTasks.SearchIgnoresCase | src/hooks/useTasks.ts:126-129 | a search and its lower-cased form match the same tasks, and a task matches a search for its own title |
| UseTasks.Matches | src/hooks/useTasks.ts:119-131 | a task matches only when all three select keys are present and the search matches; with every select on "all", the search alone decides |
| UseTasks.ClientSortKey | src/hooks/useTasks.ts:133-146 | due date ascending, weight descending, creation time descending, or a key that ranks every task equal for any other `sortBy` |
| UseTasks.FilteredTasks | src/hooks/useTasks.ts:117-147 | a task is shown exactly when its status, priority and type each match the filter or the filter is "all", and the search is empty or occurs, ignoring case, in its title or description. Nothing is invented or duplicated, and the result is sorted by the chosen key |
| UseTasks.FilteredTasksOrder | src/hooks/useTasks.ts:133-146 | "dueDate" gives non-decreasing due dates, "priority" non-increasing weights, "createdAt" non-increasing creation times; any other value keeps the list's own order |
| UseTasks.InitialFiltersShowAll | src/hooks/useTasks.ts:25-31 | under the initial filters every task is shown, earliest due date first |
| UseTasks.ToggledStatus | src/hooks/useTasks.ts:236-239 | the new status is completed exactly when the old one was not, and it is never in-progress |
| UseTasks.ToggleTwice | src/hooks/useTasks.ts:236-239 | toggling twice restores a todo or completed task; an in-progress task ends up todo |
| UseTasks.OfflineTask | src/hooks/useTasks.ts:157-170 | the offline task has the new identifier, both timestamps now and the owner "offline-user". Each given value is kept, a missing or empty title becomes "Untitled Task", and the other defaults are "", medium, todo, reminder and due now |
| UseTasks.ApplyPatch | src/hooks/useTasks.ts:195-199 | on every path a sync request carries, the offline update does what the server's spread of the same update does; the identifier and creation time come from the update when it has them, and the update time is now |
| UseTasks.ApplyPatchLaws | src/hooks/useTasks.ts:195-199 | an empty update only moves `updatedAt`; applying an update twice is applying it once; a status in the update becomes the task's status |
| UseTasks.PatchToDraft | src/api/tasks.ts:48-51 | the update body carries exactly the keys of the partial task, each enumeration value under a name that parses back to it, and no sync stamp |
| UseTasks.ResyncUnchanged | server/src/controllers/taskController.js:199-211 | a cached server record sent back unchanged is rewritten with the same fields, stamped synced at the new time |
| UseTasks.FindById | src/hooks/useTasks.ts:192 | the lookup finds a task exactly when the list has one with that identifier, and then it is the first such task |
| UseTasks.ReplaceById | src/hooks/useTasks.ts:202 | every task with that identifier is replaced by the updated task, and every other task stays in its place |
| UseTasks.RemoveById | src/hooks/useTasks.ts:222 | no task with that identifier remains, every other task does, and nothing is added |
| UseTasks.CacheOf | src/hooks/useTasks.ts:62-65 | the cache rebuilt from a list has exactly the list's identifiers as keys, each holding a task of the list filed under its own identifier |
| UseTasks.CacheOfHoldsEach | src/hooks/useTasks.ts:62-65 | with distinct identifiers, every task of the list is cached under its identifier |
| UseTasks.TaskClient.constructor | src/hooks/useTasks.ts:21-31 | the hook starts with an empty list and the initial filters, over the persistent cache as it finds it, offline edits included |
| UseTasks.TaskClient.Shown | src/hooks/useTasks.ts:117-147 | the shown list holds exactly the tasks of the list that the current filters keep |
| UseTasks.TaskClient.CachedTasks | src/hooks/useTasks.ts:58 | reading the cache returns every cached task once and nothing else |
| UseTasks.TaskClient.ReplaceCache | src/hooks/useTasks.ts:62-65 | clearing the cache and adding each task leaves the cache built from that list, and changes nothing else |
| UseTasks.TaskClient.UpdateFilters | src/hooks/useTasks.ts:244-246 | the filters become the old ones merged with the patch, and nothing else changes |
| UseTasks.TaskClient.CreateTask | src/hooks/useTasks.ts:149-181 | offline, the default-filled task is appended and cached and the server is untouched. Online, the server's validated record is appended and cached, owned by the caller. A refused or unreachable request changes nothing |
| UseTasks.TaskClient.UpdateTask | src/hooks/useTasks.ts:183-210 | offline, an unknown identifier fails with nothing changed; otherwise the first task with the identifier is overlaid and stamped now, and replaces that identifier's tasks in the list and the cache. Online and reachable, the update succeeds exactly when the server writes `UpdatedRecord`; the server then stores that record, and it replaces the task in the list and the cache. Any failure changes nothing |
| UseTasks.TaskClient.UpdateRemote | src/hooks/useTasks.ts:185-189 | an unreachable server fails; otherwise the update succeeds exactly when the server writes `UpdatedRecord`, the server then stores that record, and it replaces the task in the list and the cache; a failure changes nothing |
| UseTasks.TaskClient.AdoptUpdated | src/hooks/useTasks.ts:187-188 | the updated task replaces that identifier's tasks in the list and is filed in the cache |
| UseTasks.TaskClient.UpdateLocal | src/hooks/useTasks.ts:190-203 | "Task not found" exactly for an identifier not in the list; otherwise the existing task overlaid with the updates and stamped now replaces it in the list and the cache |
| UseTasks.TaskClient.DeleteTask | src/hooks/useTasks.ts:212-230 | offline, only the list and the cache lose the task and the server keeps it. Online, the server deletes first, and a refusal or an unreachable server changes nothing |
| UseTasks.TaskClient.ToggleComplete | src/hooks/useTasks.ts:232-242 | an identifier not in the list does nothing; offline, the task's status becomes its toggled value, stamped now. Online, it succeeds exactly when the server is reachable and writes the status update; the stored record then has the toggled status and replaces the task in the list and the cache, and a failure changes nothing |
| UseTasks.TaskClient.SyncWithServer | src/hooks/useTasks.ts:54-75 | offline or unreachable, nothing changes. Otherwise every cached task is sent and the server reconciles them. The list and the cache become exactly the caller's tasks on the server, so a task deleted only locally comes back and a skipped task the server does not hold disappears. When the server reconciles the batch but its final listing throws, the server keeps the writes and the list and cache stay as they were |
| UseTasks.TaskClient.FetchTasks | src/hooks/useTasks.ts:77-111 | online, the list is the server's answer unchanged: the caller's stored tasks selected by the current filters, each once, in the server's sort order, with the cache rebuilt from it. Offline or on failure, the list is read back from the cache |
| UseTasks.CacheOfClientTasks | src/hooks/useTasks.ts:63-67 | caching records with distinct identifiers files each one under its identifier, with no other keys |
| UseTasks.SyncSparesUnsent | src/hooks/useTasks.ts:58-59 | a sync leaves alone every server record the client did not send and every record at a throwing identifier, and never creates a record at a throwing identifier |
| UseTasks.SyncOutcome | src/hooks/useTasks.ts:62-67 | after a sync, the cache holds a caller's task the client did not send, unchanged, and holds nothing at a throwing identifier the caller does not own on the server |
| TaskForm.FormIssues | src/components/TaskForm.tsx:28-36 | each rule is reported exactly when it fails: title empty or over 100 characters, description over 1000, priority or type not a member, no due date |
| TaskForm.ValidateForm | src/components/TaskForm.tsx:28-36 | the form passes exactly when no rule fails, with every value unchanged and the description defaulting to ""; otherwise it fails with every broken rule |
| TaskForm.SubmitPayload | src/components/TaskForm.tsx:65-73 | the payload carries the validated values, the edited task's status (todo for a new task) and `updatedAt` now; it has no identifier, owner or creation time |
| TaskForm.NewFormNeedsTitle | src/components/TaskForm.tsx:56-62 | a new form's starting values break exactly one rule, the empty title |
| TaskForm.EditUnchangedRoundTrip | src/components/TaskForm.tsx:56-73 | editing a task that fits the form's limits and submitting it unchanged reproduces the task, apart from its update time |
| TaskForm.OfflineCreateKeepsFormValues | src/components/TaskForm.tsx:65-73 | a new task submitted offline keeps every value the form accepted and starts as todo |
| Calendar.PrevMonth | src/pages/Calendar.tsx:50 | month 0 steps back to month 11 of the year before; the result is one month earlier |
| Calendar.NextMonth | src/pages/Calendar.tsx:65 | month 11 steps on to month 0 of the next year; the result is one month later |
| Calendar.CalendarDays | src/pages/Calendar.tsx:44-70 | the three loops build exactly 42 cells, each the cell `GridCell` describes |
| Calendar.GridShape | src/pages/Calendar.tsx:47-68 | each day of the month sits at position `firstDayOfMonth + day - 1`; the padding before it counts up to the previous month's last day; the padding after it starts at day 1 of the next month |
| Calendar.GridMonthCells | src/pages/Calendar.tsx:55-60 | exactly `daysInMonth` cells belong to the current month |
| Calendar.TasksForDate | src/pages/Calendar.tsx:84-93 | exactly the tasks due on that day, in list order, nothing added |
| Calendar.TasksForSelectedDate | src/pages/Calendar.tsx:72-82 | no task while no day is selected; otherwise exactly the selected day's tasks |
| Calendar.DifferentDaysDisjoint | src/pages/Calendar.tsx:84-93 | two different days share no task, so their lists together are no longer than the whole list |
| Calendar.Preview | src/pages/Calendar.tsx:207 | a day cell lists at most two tasks, the first ones, and all of them when there are at most two |
| Calendar.MoreNote | src/pages/Calendar.tsx:224-226 | "+ n more" is shown exactly when more than two tasks are due, with n the number not previewed |
| Calendar.DailySummary | src/pages/Calendar.tsx:296 | the done count is the day's completed tasks, the total is the day's tasks, and the done count never exceeds the total |
| StatsCards.ComputeStats | src/components/StatsCards.tsx:51-64 | total is the list length; completed, overdue and today count exactly the tasks each rule picks; completed plus overdue, and completed plus today, never exceed the total |
| StatsCards.StatsIgnoreOrder | src/components/StatsCards.tsx:55-64 | the counters do not depend on the order of the list |
| StatsCards.StatsOfAppend | src/components/StatsCards.tsx:55-64 | one more task raises the total by one and each counter by one exactly when the task qualifies for it |
| Dashboard.RecentTasks | src/pages/Dashboard.tsx:26-30 | the recent list has min(4, n) tasks, taken from the list, ordered newest first |
| Dashboard.LeftOutAreOlder | src/pages/Dashboard.tsx:27-29 | no task left out of the recent list was created after any task in it |
| Dashboard.PendingCount | src/pages/Dashboard.tsx:66 | the pending count is at most the list length, and zero exactly when every task is completed |
| Dashboard.TypeCounts | src/pages/Dashboard.tsx:190-201 | the three per-type active counts add up to the pending count |
| Dashboard.PerTypeSumsToPending | src/pages/Dashboard.tsx:190-201 | every pending task is counted under exactly one of the three types |
| FilterBar.ActiveFilterCount | src/components/FilterBar.tsx:61-63 | the count is at most five, at most four without a search key, and zero exactly when every present value is "all" or "dueDate" |
| FilterBar.ActiveFilterCountOfChoice | src/components/FilterBar.tsx:61-63 | choosing a sort order or a status changes the count by that key alone: "all" or "dueDate" makes it inactive, anything else makes it active |
| FilterBar.FilterBarState.constructor | src/components/FilterBar.tsx:26-32 | the bar starts with every filter "all", sorted by due date, with an empty search and no active filter |
| FilterBar.FilterBarState.UpdateFilters | src/components/FilterBar.tsx:34-40 | the keys passed replace the old ones, the others stay, the merged options are reported, and the search is kept. No search key ever enters the filters, so at most four filters are active |
| FilterBar.FilterBarState.HandleSearch | src/components/FilterBar.tsx:42-46 | the text is kept and reported, and the filters are untouched |
| FilterBar.FilterBarState.HandleReset | src/components/FilterBar.tsx:48-59 | the starting filters come back, the search is cleared, both are reported, and no filter is active |
| UseAuth.LocalPart | src/hooks/useAuth.ts:72 | the text before the first '@', or the whole address when it has none |
| UseAuth.ReplaceSeparators | src/hooks/useAuth.ts:73 | every '.' and '_' becomes a space, everything else stays, and the length is kept |
| UseAuth.Split | src/hooks/useAuth.ts:74 | splitting at spaces gives at least one piece, and no piece contains a space |
| UseAuth.JoinSplit | src/hooks/useAuth.ts:74-76 | joining the pieces of a split with single spaces gives the text back |
| UseAuth.CapitalizeWord | src/hooks/useAuth.ts:75 | a capitalised word is as long as the word |
| UseAuth.CapitalizeAll | src/hooks/useAuth.ts:75 | each word is capitalised in place |
| UseAuth.CapFromAt | src/hooks/useAuth.ts:74-76 | the reference capitalisation upper-cases a character exactly when it starts the text or follows a space, and keeps every other character |
| UseAuth.JoinCapitalized | src/hooks/useAuth.ts:74-76 | capitalising words one by one and joining them is the reference capitalisation of the joined text |
| UseAuth.WordsCapitalized | src/hooks/useAuth.ts:74-76 | split, capitalise and join together equal the reference capitalisation |
| UseAuth.DisplayName | src/hooks/useAuth.ts:72-76 | the name is as long as the local part, each character starting a word is upper-cased and every other one kept, and no '@', '.' or '_' remains |
| UseAuth.MockToken | src/hooks/useAuth.ts:85 | a mock token is the prefix followed by the time, longer than the prefix |
| UseAuth.MockTokensAreDemo | src/hooks/useAuth.ts:27 | every mock token the hook issues is recognised as a demo token on restore |
| UseAuth.IsBackendAvailable | src/hooks/useAuth.ts:66-67 | a backend is available exactly when its address is set, non-empty, and not the local default |
| UseAuth.MockUser | src/hooks/useAuth.ts:78-83 | the demo user keeps the address and name given, with identifier "usr_" and the random part |
| UseAuth.Restore | src/hooks/useAuth.ts:19-57 | a user is restored only from a token and a stored user, and an empty or missing token or a missing stored user restores nothing and leaves both entries as they are. A demo token restores the stored user. Another token takes the backend's user and stores it, or, when the backend call throws, falls back to the stored user. A stored user that does not parse clears both entries and leaves no user |
| UseAuth.DemoSessionRestored | src/hooks/useAuth.ts:25-30 | a demo sign-in survives a reload whatever the backend would answer |
| UseAuth.AuthState.constructor | src/hooks/useAuth.ts:14-15 | the hook starts loading, with no user, over the storage as it is |
| UseAuth.AuthState.InitializeAuth | src/hooks/useAuth.ts:19-57 | the session becomes what `Restore` describes and loading ends |
| UseAuth.AuthState.SignInDemo | src/hooks/useAuth.ts:78-88 | the demo user is signed in and stored, with a fresh mock token, and loading ends |
| UseAuth.AuthState.Login | src/hooks/useAuth.ts:62-133 | without a backend, or when the backend throws, the user signs in as a demo user named after the address by the same derivation on both paths; otherwise the backend's user is kept and stored, with its token when it sends one |
| UseAuth.AuthState.Register | src/hooks/useAuth.ts:138-198 | as login, but a demo user keeps the name given |
| UseAuth.AuthState.Logout | src/hooks/useAuth.ts:203-208 | both storage entries are removed and the user is cleared |
| Signup.SignupIssues | src/pages/Signup.tsx:17-25 | each rule is reported exactly when it fails: name under 2 characters, an address the email check rejects, password under 6 characters, confirmation different from the password |
| Signup.ValidateSignup | src/pages/Signup.tsx:17-25 | the form passes, unchanged, exactly when all four rules hold; otherwise it fails with every broken rule |
| Signup.MismatchReportedOnConfirmation | src/pages/Signup.tsx:22-25 | the only rule shown under the confirmation field is "Passwords don't match", and a mismatch is always reported there |

## Left out

- HTTP transport, the Express routes, the axios client, toasts, loading and error state, console output and the React render cycle are not modelled. Each hook's state is a set of plain fields.
- The MongoDB query engine and identifier casting are replaced by a map and the set `badIds` of identifiers whose operations throw. A sync create keeps the client's identifier as the key. An identifier held by another user's record makes the create fail as a duplicate key, and the record is skipped.
- TaskController.TaskStore.CreateTask: the model stamps both `createdAt` and `updatedAt` with now and ignores any timestamp in the body. Under Mongoose's `timestamps` option a new document keeps a `createdAt` it is given, and its `updatedAt` is set to that `createdAt`. `createTask` passes the body on as it comes (server/src/controllers/taskController.js:72-74), so a body carrying `createdAt` would keep it. The client's forms send none.
- TaskController.SyncStep: a sync create spreads the whole client task, `createdAt` included (server/src/controllers/taskController.js:181-186). So the source keeps the client's creation time for both stamps of the new record. The model's client record carries no `createdAt`, and the model stamps both with now.
- TaskController.SyncStep: a `null` entry in the batch is not modelled. The source throws on it inside the `try`, throws again in the `catch` when it logs `clientTask.id`, and leaves the loop. The request then fails with the records before it already written and the records after it never processed. The model's batch holds only records, so every entry is either applied or skipped.
- TasksApi.ReadQueryTakesFirst: a key repeated in the query string reaches the handler (server/src/controllers/taskController.js:8) as an array of every value, which passes the `!== 'all'` tests and becomes an `$in` filter, or for `sortBy` falls back to the due date. The model's query values are single strings, so it reads the first value instead. The client never repeats a key, as `BuildQueryParams` proves.
- TaskController.TaskStore.UpdateTask: update validation checks the whole overlaid document, not only the paths in the update. An update to an admitted document is refused for the same reasons either way.
- TaskController.TaskStore.GetTasks: the `priorityOrder` table at server/src/controllers/taskController.js:19 is unused in the source, so priority sorts by the stored string. The model does the same, and `RawPriorityRankIsStringOrder` shows the resulting order. The order of ties is not fixed by the database and is not modelled.
- The offline cache in src/lib/storage.ts is not part of this model. It is modelled as a map from identifier to task, where add and update file the task under its identifier, delete removes it, and clear empties the map.
- `_id` and `id` are one field, `id`. `userId` is a plain string, not an object identifier.
- The browser's online and offline events are not modelled. The online flag is a field that the methods read.
- `Date` parsing, time zones and `setHours` truncation are not modelled. Timestamps are integers. The calendar day of a timestamp is the abstract function `dayOf`. The grid takes the month's length, the weekday of its first day and the previous month's length as inputs.
- The Calendar summary's percentage bar is floating point and is left out. The `formatDate` and locale formatting calls are left out too.
- Case mapping covers ASCII letters only. Lengths count characters, not UTF-16 code units.
- `Math.random`, `crypto.randomUUID` and `Date.now` are parameters.
- UseTasks.OfflineTask: the due date is an integer here, so the source's fall back to now for an empty due-date string is not modelled.
- FilterBar.ActiveFilterCount: a key that is present with the value `undefined` is not modelled; a key is either given a string or absent.
- `updateProfile` in src/hooks/useAuth.ts is not modelled. It is a backend call whose result replaces the stored user. The Login and Settings pages and the layout and task-card components are left out as presentation.
- The email format check belongs to the form library and is a parameter `isEmail`.
- Query keys are the datatype `QueryKey`, with `KeyName` for their spelling in the query string. Percent-encoding of values is not modelled.
- Offline creates and updates do not mark a task "pending". The source never sets that status on the client, and the model follows the source.
- Concurrent syncs from several devices are not modelled.
