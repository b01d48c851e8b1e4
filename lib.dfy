/**
 * The client's shared vocabulary (src/lib/index.ts): the three task
 * enumerations, the Task record, the filter options, and the two small
 * helpers `isOverdue` and `getPriorityLabel`.
 *
 * Timestamps (`dueDate`, `createdAt`, `updatedAt`, the current time) are
 * integers; a calendar day is a `CivilDate` whose month counts from 0, as
 * JavaScript's `Date.getMonth` does.
 */
module Lib {
  import opened Common

  datatype Priority = Low | Medium | High | Urgent
  datatype TaskStatus = Todo | InProgress | Completed
  datatype TaskType = Reminder | Email | CalendarInvite

  const AllPriorities: seq<Priority> := [Low, Medium, High, Urgent]
  const AllStatuses: seq<TaskStatus> := [Todo, InProgress, Completed]
  const AllTaskTypes: seq<TaskType> := [Reminder, Email, CalendarInvite]

  /** The string each enumeration member stands for on the wire. */
  function PriorityName(p: Priority): string {
    match p
    case Low => "low"
    case Medium => "medium"
    case High => "high"
    case Urgent => "urgent"
  }

  function StatusName(s: TaskStatus): string {
    match s
    case Todo => "todo"
    case InProgress => "in-progress"
    case Completed => "completed"
  }

  function TaskTypeName(t: TaskType): string {
    match t
    case Reminder => "reminder"
    case Email => "email"
    case CalendarInvite => "calendar"
  }

  /** The member a wire string names, if any. */
  function ParsePriority(s: string): (r: Option<Priority>)
    ensures r.Some? ==> PriorityName(r.value) == s
    ensures r.None? <==> forall p :: PriorityName(p) != s
  {
    if s == "low" then Some(Low)
    else if s == "medium" then Some(Medium)
    else if s == "high" then Some(High)
    else if s == "urgent" then Some(Urgent)
    else None
  }

  function ParseStatus(s: string): (r: Option<TaskStatus>)
    ensures r.Some? ==> StatusName(r.value) == s
    ensures r.None? <==> forall t :: StatusName(t) != s
  {
    if s == "todo" then Some(Todo)
    else if s == "in-progress" then Some(InProgress)
    else if s == "completed" then Some(Completed)
    else None
  }

  function ParseTaskType(s: string): (r: Option<TaskType>)
    ensures r.Some? ==> TaskTypeName(r.value) == s
    ensures r.None? <==> forall t :: TaskTypeName(t) != s
  {
    if s == "reminder" then Some(Reminder)
    else if s == "email" then Some(Email)
    else if s == "calendar" then Some(CalendarInvite)
    else None
  }

  /**
   * The enumerations have exactly four, three and three members, each
   * listed once, and distinct members have distinct wire names, so parsing
   * a member's name gives the member back.
   */
  lemma EnumerationsAreExact()
    ensures |AllPriorities| == 4 && |AllStatuses| == 3 && |AllTaskTypes| == 3
    ensures forall p :: p in AllPriorities
    ensures forall s :: s in AllStatuses
    ensures forall t :: t in AllTaskTypes
    ensures forall i, j :: 0 <= i < j < 4 ==> AllPriorities[i] != AllPriorities[j]
    ensures forall i, j :: 0 <= i < j < 3 ==> AllStatuses[i] != AllStatuses[j]
    ensures forall i, j :: 0 <= i < j < 3 ==> AllTaskTypes[i] != AllTaskTypes[j]
    ensures forall p :: ParsePriority(PriorityName(p)) == Some(p)
    ensures forall s :: ParseStatus(StatusName(s)) == Some(s)
    ensures forall t :: ParseTaskType(TaskTypeName(t)) == Some(t)
  {
    forall p: Priority
      ensures p in AllPriorities
    {
      var i := match p case Low => 0 case Medium => 1 case High => 2 case Urgent => 3;
      assert AllPriorities[i] == p;
    }
    forall s: TaskStatus
      ensures s in AllStatuses
    {
      var i := match s case Todo => 0 case InProgress => 1 case Completed => 2;
      assert AllStatuses[i] == s;
    }
    forall t: TaskType
      ensures t in AllTaskTypes
    {
      var i := match t case Reminder => 0 case Email => 1 case CalendarInvite => 2;
      assert AllTaskTypes[i] == t;
    }
  }

  /** The client's task record (`interface Task`). */
  datatype Task = Task(
    id: string,
    title: string,
    description: string,
    priority: Priority,
    status: TaskStatus,
    taskType: TaskType,
    dueDate: int,
    createdAt: int,
    updatedAt: int,
    userId: string)

  /** A calendar day in local time; `month` runs from 0 (January) to 11. */
  datatype CivilDate = CivilDate(year: int, month: int, day: int)

  /**
   * `isOverdue`: a completed task is never overdue; any other task is
   * overdue exactly when its due time lies strictly before now.
   */
  function IsOverdue(dueDate: int, status: TaskStatus, now: int): (r: bool)
    ensures status == Completed ==> !r
    ensures status != Completed ==> (r <==> dueDate < now)
  {
    if status == Completed then false else dueDate < now
  }

  /** The four labels shown for the members of `Priority`. */
  function PriorityDisplay(p: Priority): string {
    match p
    case Low => "Low"
    case Medium => "Medium"
    case High => "High"
    case Urgent => "Urgent"
  }

  /**
   * `getPriorityLabel` takes whatever string the task carries: a member's
   * name gets that member's label, anything else gets "Normal".
   */
  function PriorityLabel(priority: string): (r: string)
    ensures forall p :: priority == PriorityName(p) ==> r == PriorityDisplay(p)
    ensures r == "Normal" <==> ParsePriority(priority).None?
  {
    match ParsePriority(priority)
    case Some(p) => PriorityDisplay(p)
    case None => "Normal"
  }

  /** The four labels are pairwise distinct, and none of them is "Normal". */
  lemma PriorityLabelsDistinct(p: Priority, q: Priority)
    ensures PriorityLabel(PriorityName(p)) == PriorityLabel(PriorityName(q)) <==> p == q
    ensures PriorityLabel(PriorityName(p)) != "Normal"
  {
  }

  /**
   * `FilterOptions`. Every key is optional; `status`, `priority` and `type`
   * hold a member's wire name or "all", `sortBy` one of "dueDate",
   * "priority", "createdAt".
   */
  datatype FilterOptions = FilterOptions(
    status: Option<string>,
    priority: Option<string>,
    taskType: Option<string>,
    search: Option<string>,
    sortBy: Option<string>)

  /** `{ ...prev, ...patch }`: each key the patch carries replaces the old value. */
  function MergeFilters(prev: FilterOptions, patch: FilterOptions): (r: FilterOptions)
    ensures r.status == (if patch.status.Some? then patch.status else prev.status)
    ensures r.priority == (if patch.priority.Some? then patch.priority else prev.priority)
    ensures r.taskType == (if patch.taskType.Some? then patch.taskType else prev.taskType)
    ensures r.search == (if patch.search.Some? then patch.search else prev.search)
    ensures r.sortBy == (if patch.sortBy.Some? then patch.sortBy else prev.sortBy)
  {
    FilterOptions(
      Override(prev.status, patch.status),
      Override(prev.priority, patch.priority),
      Override(prev.taskType, patch.taskType),
      Override(prev.search, patch.search),
      Override(prev.sortBy, patch.sortBy))
  }

  /** One key of an object spread: the later object's value wins when it has one. */
  function Override<T>(earlier: Option<T>, later: Option<T>): Option<T> {
    if later.Some? then later else earlier
  }

  /** The empty patch: no key given. */
  const NoFilters := FilterOptions(None, None, None, None, None)

  /**
   * Merging is idempotent and an empty patch changes nothing; merging a
   * patch that carries every key yields the patch itself.
   */
  lemma MergeFiltersLaws(prev: FilterOptions, patch: FilterOptions)
    ensures MergeFilters(prev, NoFilters) == prev
    ensures MergeFilters(MergeFilters(prev, patch), patch) == MergeFilters(prev, patch)
    ensures (patch.status.Some? && patch.priority.Some? && patch.taskType.Some?
             && patch.search.Some? && patch.sortBy.Some?) ==> MergeFilters(prev, patch) == patch
  {
  }
}
