/**
 * The client's task state (src/hooks/useTasks.ts): the task list shown on
 * screen, the offline cache, the online flag and the filter options, with
 * the hook's operations as methods.
 *
 * The offline cache (`taskStorage`) is a map from identifier to task: an
 * add or update files the task under its identifier, a delete removes the
 * identifier, `clearAll` empties the map. The server is the `TaskStore` of
 * the controller model; a request that does not reach it is a `reachable`
 * flag that is false, and such a request throws before anything changes.
 */
module UseTasks {
  import opened Common
  import opened Lib
  import opened TaskSchema
  import opened TaskController
  import opened TasksApi

  // ---------------------------------------------------------------------
  // filteredTasks
  // ---------------------------------------------------------------------

  /** `PRIORITY_WEIGHTS`: urgent weighs most, low least. */
  function PriorityWeight(p: Priority): (w: int)
    ensures 1 <= w <= 4
    ensures w == 4 <==> p == Urgent
    ensures w == 1 <==> p == Low
  {
    match p
    case Urgent => 4
    case High => 3
    case Medium => 2
    case Low => 1
  }

  /** The weights run 1 to 4, one per priority, rising with urgency. */
  lemma PriorityWeightOrder(p: Priority, q: Priority)
    ensures 1 <= PriorityWeight(p) <= 4
    ensures PriorityWeight(p) == PriorityWeight(q) <==> p == q
    ensures PriorityWeight(Low) < PriorityWeight(Medium) < PriorityWeight(High) < PriorityWeight(Urgent)
  {
  }

  /**
   * A filter value matches when it is "all" or names the task's own value.
   * A filter object without the key hides every task, since an undefined
   * value equals neither "all" nor any wire name.
   */
  predicate MatchesValue(filterValue: Option<string>, actual: string): (m: bool)
    ensures filterValue.None? ==> !m
    ensures filterValue == Some("all") ==> m
    ensures m && filterValue != Some("all") ==> filterValue == Some(actual)
  {
    filterValue == Some("all") || filterValue == Some(actual)
  }

  /** An empty search matches; otherwise the title or the description must contain it, ignoring case. */
  predicate MatchesSearch(t: Task, search: Option<string>): (m: bool)
    ensures search.None? || search == Some("") ==> m
    ensures search.Some? && Contains(Lower(t.title), Lower(search.value)) ==> m
    ensures m && search.Some? && search.value != "" ==>
      Contains(Lower(t.title), Lower(search.value)) || Contains(Lower(t.description), Lower(search.value))
  {
    || search.None? || search.value == ""
    || Contains(Lower(t.title), Lower(search.value))
    || Contains(Lower(t.description), Lower(search.value))
  }

  /**
   * The filter of `filteredTasks`: every select key must match and so must
   * the search. With all three selects on "all" only the search decides.
   */
  predicate Matches(t: Task, f: FilterOptions): (m: bool)
    ensures m ==> f.status.Some? && f.priority.Some? && f.taskType.Some? && MatchesSearch(t, f.search)
    ensures f.status == Some("all") && f.priority == Some("all") && f.taskType == Some("all") ==>
      (m <==> MatchesSearch(t, f.search))
  {
    && MatchesValue(f.status, StatusName(t.status))
    && MatchesValue(f.priority, PriorityName(t.priority))
    && MatchesValue(f.taskType, TaskTypeName(t.taskType))
    && MatchesSearch(t, f.search)
  }

  /**
   * The search ignores case: a search text and its lower-cased form match
   * the same tasks, and a task always matches a search for its own title.
   */
  lemma SearchIgnoresCase(t: Task, text: string)
    ensures MatchesSearch(t, Some(text)) == MatchesSearch(t, Some(Lower(text)))
    ensures MatchesSearch(t, Some(t.title))
  {
    assert Lower(Lower(text)) == Lower(text);
    assert OccursAt(Lower(t.title), Lower(t.title), 0);
  }

  function Matcher(f: FilterOptions): Task -> bool {
    (t: Task) => Matches(t, f)
  }

  /**
   * The sort key of the comparator: ascending due date, descending weight,
   * descending creation time, or a comparator that always answers 0.
   */
  function ClientSortKey(sortBy: Option<string>): (key: Task -> int)
    ensures sortBy == Some("dueDate") ==> forall t :: key(t) == t.dueDate
    ensures sortBy == Some("priority") ==> forall t :: key(t) == -PriorityWeight(t.priority)
    ensures sortBy == Some("createdAt") ==> forall t :: key(t) == -t.createdAt
    ensures sortBy !in {Some("dueDate"), Some("priority"), Some("createdAt")} ==> forall t :: key(t) == 0
  {
    if sortBy == Some("dueDate") then (t: Task) => t.dueDate
    else if sortBy == Some("priority") then (t: Task) => -PriorityWeight(t.priority)
    else if sortBy == Some("createdAt") then (t: Task) => -t.createdAt
    else (t: Task) => 0
  }

  /**
   * `filteredTasks`: the tasks the filter keeps, each as often as in the
   * list and no other, sorted by the chosen key.
   */
  function FilteredTasks(tasks: seq<Task>, f: FilterOptions): (r: seq<Task>)
    ensures forall t :: t in r <==> t in tasks && Matches(t, f)
    ensures multiset(r) <= multiset(tasks)
    ensures |r| == Count(tasks, Matcher(f))
    ensures SortedBy(r, ClientSortKey(f.sortBy))
  {
    var kept := Filter(tasks, Matcher(f));
    var r := SortBy(kept, ClientSortKey(f.sortBy));
    SameElements(r, kept);
    r
  }

  /**
   * The orders `filteredTasks` produces: non-decreasing due date,
   * non-increasing weight, non-increasing creation time, or, for any other
   * `sortBy`, the list's own order.
   */
  lemma FilteredTasksOrder(tasks: seq<Task>, f: FilterOptions)
    ensures var r := FilteredTasks(tasks, f);
      && (f.sortBy == Some("dueDate") ==> forall i, j :: 0 <= i < j < |r| ==> r[i].dueDate <= r[j].dueDate)
      && (f.sortBy == Some("priority") ==>
            forall i, j :: 0 <= i < j < |r| ==> PriorityWeight(r[i].priority) >= PriorityWeight(r[j].priority))
      && (f.sortBy == Some("createdAt") ==> forall i, j :: 0 <= i < j < |r| ==> r[i].createdAt >= r[j].createdAt)
      && (f.sortBy !in {Some("dueDate"), Some("priority"), Some("createdAt")} ==> r == Filter(tasks, Matcher(f)))
  {
    var r := FilteredTasks(tasks, f);
    var key := ClientSortKey(f.sortBy);
    assert forall i, j :: 0 <= i < j < |r| ==> key(r[i]) <= key(r[j]);
    if f.sortBy !in {Some("dueDate"), Some("priority"), Some("createdAt")} {
      SortByConstantKey(Filter(tasks, Matcher(f)), key);
    }
  }

  /** The initial filter state of the hook. */
  const InitialFilters := FilterOptions(Some("all"), Some("all"), Some("all"), Some(""), Some("dueDate"))

  /** Under the initial filters every task is shown, earliest due date first. */
  lemma InitialFiltersShowAll(tasks: seq<Task>)
    ensures multiset(FilteredTasks(tasks, InitialFilters)) == multiset(tasks)
    ensures SortedBy(FilteredTasks(tasks, InitialFilters), (t: Task) => t.dueDate)
  {
    var f := InitialFilters;
    assert forall t :: Matches(t, f);
    FilterAll(tasks, Matcher(f));
    var r := FilteredTasks(tasks, f);
    assert forall i, j :: 0 <= i < j < |r| ==> r[i].dueDate <= r[j].dueDate by {
      assert SortedBy(r, ClientSortKey(f.sortBy));
    }
  }

  /** A filter every element passes keeps the whole sequence. */
  lemma {:induction false} FilterAll<T(!new)>(s: seq<T>, p: T -> bool)
    requires forall x :: p(x)
    ensures Filter(s, p) == s
  {
    if s != [] {
      FilterAll(s[1..], p);
      assert s == [s[0]] + s[1..];
    }
  }

  // ---------------------------------------------------------------------
  // Task records on the client
  // ---------------------------------------------------------------------

  /** `Partial<Task>`: each key given or not. */
  datatype TaskPatch = TaskPatch(
    id: Option<string>,
    title: Option<string>,
    description: Option<string>,
    priority: Option<Priority>,
    status: Option<TaskStatus>,
    taskType: Option<TaskType>,
    dueDate: Option<int>,
    createdAt: Option<int>,
    updatedAt: Option<int>,
    userId: Option<string>)

  const EmptyPatch := TaskPatch(None, None, None, None, None, None, None, None, None, None)

  /** The status `toggleComplete` sets: completed becomes todo, anything else completed. */
  function ToggledStatus(s: TaskStatus): (r: TaskStatus)
    ensures r == Completed <==> s != Completed
    ensures r != InProgress
  {
    if s == Completed then Todo else Completed
  }

  /** Toggling twice restores a todo or completed task; an in-progress task ends up todo. */
  lemma ToggleTwice(s: TaskStatus)
    ensures s != InProgress ==> ToggledStatus(ToggledStatus(s)) == s
    ensures s == InProgress ==> ToggledStatus(ToggledStatus(s)) == Todo
  {
  }

  /**
   * The task created while offline: each given value, where a missing or
   * empty title becomes "Untitled Task", and the fixed defaults otherwise;
   * both timestamps are now and the owner is "offline-user".
   */
  function OfflineTask(data: TaskPatch, uuid: string, now: int): (t: Task)
    ensures t.id == uuid && t.createdAt == now && t.updatedAt == now && t.userId == "offline-user"
    ensures t.title == (if data.title.Some? && data.title.value != "" then data.title.value else "Untitled Task")
    ensures t.title != ""
    ensures t.description == data.description.GetOr("")
    ensures t.priority == data.priority.GetOr(Medium) && t.status == data.status.GetOr(Todo)
    ensures t.taskType == data.taskType.GetOr(Reminder) && t.dueDate == data.dueDate.GetOr(now)
  {
    Task(
      uuid,
      if data.title.Some? && data.title.value != "" then data.title.value else "Untitled Task",
      data.description.GetOr(""),
      data.priority.GetOr(Medium),
      data.status.GetOr(Todo),
      data.taskType.GetOr(Reminder),
      data.dueDate.GetOr(now),
      now, now,
      "offline-user")
  }

  /**
   * `{ ...existing, ...updates, updatedAt: now }`. On the paths a sync
   * request carries, the offline update does what the server's spread of
   * the same update does to the synced document; the identifier and
   * creation time are taken from the update when it carries them, and the
   * update time is now.
   */
  function ApplyPatch(t: Task, p: TaskPatch, now: int): (r: Task)
    ensures ToClientRecord(r).body == Overlay(ToClientRecord(t).body, PatchToDraft(p))
    ensures r.id == p.id.GetOr(t.id) && r.createdAt == p.createdAt.GetOr(t.createdAt)
    ensures r.updatedAt == now
  {
    Task(
      p.id.GetOr(t.id), p.title.GetOr(t.title), p.description.GetOr(t.description),
      p.priority.GetOr(t.priority), p.status.GetOr(t.status), p.taskType.GetOr(t.taskType),
      p.dueDate.GetOr(t.dueDate), p.createdAt.GetOr(t.createdAt), now, p.userId.GetOr(t.userId))
  }

  /**
   * An offline update changes exactly the keys it carries and the update
   * time: an empty update only moves `updatedAt`, and applying the same
   * update twice is applying it once.
   */
  lemma ApplyPatchLaws(t: Task, p: TaskPatch, now: int, later: int)
    ensures ApplyPatch(t, EmptyPatch, now) == t.(updatedAt := now)
    ensures ApplyPatch(ApplyPatch(t, p, now), p, later) == ApplyPatch(t, p, later)
    ensures p.status.Some? ==> ApplyPatch(t, p, now).status == p.status.value
    ensures p.id.None? ==> ApplyPatch(t, p, now).id == t.id
  {
  }

  /** The update `toggleComplete` sends: the status only. */
  function StatusPatch(s: TaskStatus): TaskPatch {
    EmptyPatch.(status := Some(s))
  }

  /** The JSON body of a `Partial<Task>` as the server receives it. */
  function PatchToDraft(p: TaskPatch): (d: Draft)
    ensures d.title == p.title && d.description == p.description && d.dueDate == p.dueDate
    ensures d.userId == p.userId && d.syncStatus.None? && d.lastSyncedAt.None?
    ensures p.priority.Some? <==> d.priority.Some?
    ensures p.priority.Some? ==> ParsePriority(d.priority.value) == p.priority
    ensures p.status.Some? <==> d.status.Some?
    ensures p.status.Some? ==> ParseStatus(d.status.value) == p.status
    ensures p.taskType.Some? <==> d.taskType.Some?
    ensures p.taskType.Some? ==> ParseTaskType(d.taskType.value) == p.taskType
  {
    EnumerationsAreExact();
    Draft(
      p.title, p.description,
      if p.priority.Some? then Some(PriorityName(p.priority.value)) else None,
      if p.status.Some? then Some(StatusName(p.status.value)) else None,
      if p.taskType.Some? then Some(TaskTypeName(p.taskType.value)) else None,
      p.dueDate, p.userId, None, None)
  }

  /** A stored record as the client receives it. */
  function ToClientTask(r: Record): (t: Task)
    ensures t.id == r.id && t.userId == r.fields.userId
    ensures t.createdAt == r.createdAt && t.updatedAt == r.updatedAt
  {
    Task(
      r.id, r.fields.title, r.fields.description, r.fields.priority, r.fields.status,
      r.fields.taskType, r.fields.dueDate, r.createdAt, r.updatedAt, r.fields.userId)
  }

  function ToClientTasks(rs: seq<Record>): (ts: seq<Task>)
    ensures |ts| == |rs| && forall i :: 0 <= i < |rs| ==> ts[i] == ToClientTask(rs[i])
  {
    seq(|rs|, i requires 0 <= i < |rs| => ToClientTask(rs[i]))
  }

  /** The client tasks of a list of records are exactly the conversions of its members. */
  lemma ClientTasksMembers(rs: seq<Record>)
    ensures forall t :: t in ToClientTasks(rs) <==> exists x :: x in rs && t == ToClientTask(x)
  {
    var ts := ToClientTasks(rs);
    forall t
      ensures t in ts <==> exists x :: x in rs && t == ToClientTask(x)
    {
      if t in ts {
        var i :| 0 <= i < |ts| && ts[i] == t;
        assert rs[i] in rs;
      }
      if exists x :: x in rs && t == ToClientTask(x) {
        var x :| x in rs && t == ToClientTask(x);
        var i :| 0 <= i < |rs| && rs[i] == x;
        assert ts[i] == t;
      }
    }
  }

  /**
   * A server record that comes back unchanged in a later sync, with its
   * own timestamp, is written again with the same fields, stamped synced
   * at the new time.
   */
  lemma ResyncUnchanged(st: SyncState, caller: string, r: Record, now: int, badIds: set<string>)
    requires r.id !in badIds && r.id in st.store && st.store[r.id] == r
    requires r.fields.userId == caller && FieldsValid(r.fields)
    ensures var c := ToClientRecord(ToClientTask(r));
      var f := r.fields.(syncStatus := Synced, lastSyncedAt := now);
      SyncStep(st, caller, c, now, badIds)
        == SyncState(st.store[r.id := Record(r.id, f, r.createdAt, now)], st.synced + [Record(r.id, f, r.createdAt, now)], st.conflicts)
  {
    var c := ToClientRecord(ToClientTask(r));
    var f := r.fields.(syncStatus := Synced, lastSyncedAt := now);
    assert Overlay(ToDraft(r.fields), SyncUpdatePatch(c, now)) == ToDraft(f);
    assert FieldsValid(f);
    ValidateToDraft(f, now);
  }

  /** The first task with the given identifier (`tasks.find`). */
  function FindById(tasks: seq<Task>, id: string): (r: Option<Task>)
    ensures r.Some? ==> r.value in tasks && r.value.id == id
    ensures r.Some? ==> exists i :: 0 <= i < |tasks| && tasks[i] == r.value && forall j :: 0 <= j < i ==> tasks[j].id != id
    ensures r.None? <==> forall t :: t in tasks ==> t.id != id
  {
    if tasks == [] then None
    else if tasks[0].id == id then Some(tasks[0])
    else FindById(tasks[1..], id)
  }

  /** `prev.map(t => t.id === id ? updated : t)` */
  function ReplaceById(tasks: seq<Task>, id: string, updated: Task): (r: seq<Task>)
    ensures |r| == |tasks|
    ensures forall i :: 0 <= i < |tasks| ==> r[i] == if tasks[i].id == id then updated else tasks[i]
  {
    seq(|tasks|, i requires 0 <= i < |tasks| => if tasks[i].id == id then updated else tasks[i])
  }

  function WithoutId(id: string): Task -> bool {
    (t: Task) => t.id != id
  }

  /** `prev.filter(t => t.id !== id)`: no task with that identifier remains, every other one does. */
  function RemoveById(tasks: seq<Task>, id: string): (r: seq<Task>)
    ensures forall t :: t in r <==> t in tasks && t.id != id
    ensures multiset(r) <= multiset(tasks)
  {
    Filter(tasks, WithoutId(id))
  }

  /** The cache after `clearAll` and one `addTask` per task, in order. */
  function CacheOf(ts: seq<Task>): (m: map<string, Task>)
    ensures m.Keys == set t | t in ts :: t.id
    ensures forall k :: k in m ==> m[k].id == k && m[k] in ts
    decreases |ts|
  {
    if ts == [] then map[]
    else
      var front := ts[..|ts| - 1];
      var last := ts[|ts| - 1];
      assert ts == front + [last];
      CacheOf(front)[last.id := last]
  }

  /** No identifier occurs twice among the tasks. */
  predicate DistinctTaskIds(ts: seq<Task>) {
    forall i, j :: 0 <= i < j < |ts| ==> ts[i].id != ts[j].id
  }

  /** With distinct identifiers, every task is cached under its own identifier. */
  lemma {:induction false} CacheOfHoldsEach(ts: seq<Task>)
    requires DistinctTaskIds(ts)
    ensures forall t :: t in ts ==> CacheOf(ts)[t.id] == t
    decreases |ts|
  {
    if ts != [] {
      var front := ts[..|ts| - 1];
      var last := ts[|ts| - 1];
      assert ts == front + [last];
      CacheOfHoldsEach(front);
      forall t | t in front
        ensures t.id != last.id
      {
        var i :| 0 <= i < |front| && front[i] == t;
        assert ts[i] == t;
      }
    }
  }

  /** Converting records keeps distinct identifiers distinct. */
  lemma ClientTasksDistinct(rs: seq<Record>)
    requires DistinctIds(rs)
    ensures DistinctTaskIds(ToClientTasks(rs))
  {
  }

  // ---------------------------------------------------------------------
  // The hook's state and operations
  // ---------------------------------------------------------------------

  class TaskClient {
    var tasks: seq<Task>
    var cache: map<string, Task>
    var isOnline: bool
    var filters: FilterOptions

    /** Every cached task is filed under its own identifier. */
    predicate CacheValid()
      reads this
    {
      forall k :: k in cache ==> cache[k].id == k
    }

    /**
     * The hook mounts with an empty list over the persistent cache as it
     * finds it, which may still hold edits made offline before a reload.
     */
    constructor(online: bool, cache0: map<string, Task>)
      requires forall k :: k in cache0 ==> cache0[k].id == k
      ensures tasks == [] && cache == cache0 && isOnline == online && filters == InitialFilters
      ensures CacheValid()
    {
      tasks := [];
      cache := cache0;
      isOnline := online;
      filters := InitialFilters;
    }

    /** `filteredTasks` over the current state. */
    function Shown(): (r: seq<Task>)
      reads this
      ensures forall t :: t in r <==> t in tasks && Matches(t, filters)
    {
      FilteredTasks(tasks, filters)
    }

    /** `taskStorage.getAllTasks()`: every cached task once, in the order the scan meets them. */
    method CachedTasks() returns (local: seq<Task>)
      requires CacheValid()
      ensures forall t :: t in local <==> t.id in cache && cache[t.id] == t
      ensures DistinctTaskIds(local)
    {
      local := [];
      var rest := cache.Keys;
      while rest != {}
        invariant rest <= cache.Keys
        invariant forall t :: t in local <==> t.id in cache.Keys - rest && cache[t.id] == t
        invariant DistinctTaskIds(local)
        decreases rest
      {
        var k :| k in rest;
        local := local + [cache[k]];
        rest := rest - {k};
      }
    }

    /** `clearAll` followed by one `addTask` per task. */
    method ReplaceCache(ts: seq<Task>)
      modifies this
      ensures cache == CacheOf(ts) && CacheValid()
      ensures tasks == old(tasks) && isOnline == old(isOnline) && filters == old(filters)
    {
      cache := map[];
      for i := 0 to |ts|
        invariant cache == CacheOf(ts[..i])
        invariant tasks == old(tasks) && isOnline == old(isOnline) && filters == old(filters)
      {
        assert ts[..i + 1][..i] == ts[..i];
        cache := cache[ts[i].id := ts[i]];
      }
      assert ts[..|ts|] == ts;
    }

    /** `updateFilters`: the keys given replace the old ones. */
    method UpdateFilters(patch: FilterOptions)
      modifies this
      ensures filters == MergeFilters(old(filters), patch)
      ensures tasks == old(tasks) && cache == old(cache) && isOnline == old(isOnline)
    {
      filters := MergeFilters(filters, patch);
    }

    /**
     * `createTask`. Online, the server creates the task and the reply is
     * cached and appended; a refused or unreachable request throws and
     * changes nothing. Offline, the task is built locally with its defaults.
     */
    method CreateTask(data: TaskPatch, server: TaskStore, caller: string, reachable: bool,
                      newId: string, uuid: string, now: int) returns (ok: bool)
      requires CacheValid() && server.Valid()
      modifies this, server
      ensures CacheValid() && server.Valid()
      ensures isOnline == old(isOnline) && filters == old(filters)
      ensures !old(isOnline) ==>
        var t := OfflineTask(data, uuid, now);
        && ok && tasks == old(tasks) + [t] && cache == old(cache)[uuid := t]
        && server.tasks == old(server.tasks)
      ensures old(isOnline) && !reachable ==>
        !ok && tasks == old(tasks) && cache == old(cache) && server.tasks == old(server.tasks)
      ensures old(isOnline) && reachable ==>
        var v := Validate(PatchToDraft(data).(userId := Some(caller)), now);
        && (ok <==> v.Ok? && newId !in old(server.tasks))
        && (ok ==>
              var t := ToClientTask(Record(newId, v.value, now, now));
              && tasks == old(tasks) + [t] && cache == old(cache)[newId := t] && t.userId == caller
              && server.tasks == old(server.tasks)[newId := Record(newId, v.value, now, now)])
        && (!ok ==> tasks == old(tasks) && cache == old(cache) && server.tasks == old(server.tasks))
    {
      if isOnline {
        if !reachable {
          return false;
        }
        var reply := server.CreateTask(caller, PatchToDraft(data), newId, now);
        if reply.Created? {
          var t := ToClientTask(reply.task);
          cache := cache[t.id := t];
          tasks := tasks + [t];
          ok := true;
        } else {
          ok := false;
        }
      } else {
        var t := OfflineTask(data, uuid, now);
        cache := cache[t.id := t];
        tasks := tasks + [t];
        ok := true;
      }
    }

    /**
     * `updateTask`. Online, the server's reply replaces the task in the
     * cache and in the list. Offline, an unknown identifier throws "Task not
     * found"; otherwise the first task with that identifier is overlaid
     * with the updates and stamped now, and replaces every task with that
     * identifier in the list.
     */
    method UpdateTask(id: string, updates: TaskPatch, server: TaskStore, caller: string, reachable: bool,
                      now: int, badIds: set<string>) returns (ok: bool)
      requires CacheValid() && server.Valid()
      modifies this, server
      ensures CacheValid() && server.Valid()
      ensures isOnline == old(isOnline) && filters == old(filters)
      ensures !old(isOnline) ==>
        && server.tasks == old(server.tasks)
        && (ok <==> FindById(old(tasks), id).Some?)
        && (!ok ==> tasks == old(tasks) && cache == old(cache))
        && (ok ==>
              var u := ApplyPatch(FindById(old(tasks), id).value, updates, now);
              tasks == ReplaceById(old(tasks), id, u) && cache == old(cache)[u.id := u])
      ensures old(isOnline) && !reachable ==>
        !ok && tasks == old(tasks) && cache == old(cache) && server.tasks == old(server.tasks)
      ensures old(isOnline) && reachable ==>
        var written := UpdatedRecord(old(server.tasks), caller, id, PatchToDraft(updates), now, badIds);
        && (ok <==> written.Some?)
        && (ok ==>
              var t := ToClientTask(written.value);
              && server.tasks == old(server.tasks)[id := written.value]
              && tasks == ReplaceById(old(tasks), id, t) && cache == old(cache)[id := t])
      ensures old(isOnline) && !ok ==> tasks == old(tasks) && cache == old(cache) && server.tasks == old(server.tasks)
    {
      if isOnline {
        ok := UpdateRemote(id, PatchToDraft(updates), server, caller, reachable, now, badIds);
      } else {
        ok := UpdateLocal(id, updates, now);
      }
    }

    /** The online branch of `updateTask`: the server's reply replaces the task. */
    method UpdateRemote(id: string, patch: Draft, server: TaskStore, caller: string, reachable: bool,
                        now: int, badIds: set<string>) returns (ok: bool)
      requires CacheValid() && server.Valid()
      modifies this, server
      ensures CacheValid() && server.Valid()
      ensures isOnline == old(isOnline) && filters == old(filters)
      ensures !reachable ==> !ok
      ensures reachable ==>
        var written := UpdatedRecord(old(server.tasks), caller, id, patch, now, badIds);
        && (ok <==> written.Some?)
        && (ok ==>
              var t := ToClientTask(written.value);
              && server.tasks == old(server.tasks)[id := written.value]
              && tasks == ReplaceById(old(tasks), id, t) && cache == old(cache)[id := t])
      ensures !ok ==> tasks == old(tasks) && cache == old(cache) && server.tasks == old(server.tasks)
    {
      if !reachable {
        return false;
      }
      var reply := server.UpdateTask(caller, id, patch, now, badIds);
      if reply.Found? {
        AdoptUpdated(id, ToClientTask(reply.task));
        ok := true;
      } else {
        ok := false;
      }
    }

    /** The answer of a successful update replaces the task in the list and in the cache. */
    method AdoptUpdated(id: string, t: Task)
      requires CacheValid() && t.id == id
      modifies this
      ensures CacheValid()
      ensures tasks == ReplaceById(old(tasks), id, t) && cache == old(cache)[id := t]
      ensures isOnline == old(isOnline) && filters == old(filters)
    {
      cache := cache[id := t];
      tasks := ReplaceById(tasks, id, t);
    }

    /** The offline branch of `updateTask`: the first task with the identifier, overlaid and stamped now. */
    method UpdateLocal(id: string, updates: TaskPatch, now: int) returns (ok: bool)
      requires CacheValid()
      modifies this
      ensures CacheValid()
      ensures isOnline == old(isOnline) && filters == old(filters)
      ensures ok <==> FindById(old(tasks), id).Some?
      ensures !ok ==> tasks == old(tasks) && cache == old(cache)
      ensures ok ==>
        var u := ApplyPatch(FindById(old(tasks), id).value, updates, now);
        tasks == ReplaceById(old(tasks), id, u) && cache == old(cache)[u.id := u]
    {
      var existing := FindById(tasks, id);
      if existing.None? {
        return false;
      }
      var u := ApplyPatch(existing.value, updates, now);
      cache := cache[u.id := u];
      tasks := ReplaceById(tasks, id, u);
      ok := true;
    }

    /**
     * `deleteTask`. Online, the server deletes first and a refusal throws.
     * Offline, only the cache and the list lose the task; the server keeps
     * it.
     */
    method DeleteTask(id: string, server: TaskStore, caller: string, reachable: bool,
                      badIds: set<string>) returns (ok: bool)
      requires CacheValid() && server.Valid()
      modifies this, server
      ensures CacheValid() && server.Valid()
      ensures isOnline == old(isOnline) && filters == old(filters)
      ensures !old(isOnline) ==>
        ok && tasks == RemoveById(old(tasks), id) && cache == old(cache) - {id}
        && server.tasks == old(server.tasks)
      ensures old(isOnline) ==>
        && (ok <==> reachable && Authorize(old(server.tasks), caller, id, badIds).Ok?)
        && (ok ==> tasks == RemoveById(old(tasks), id) && cache == old(cache) - {id}
                   && server.tasks == old(server.tasks) - {id})
        && (!ok ==> tasks == old(tasks) && cache == old(cache) && server.tasks == old(server.tasks))
    {
      if isOnline {
        if !reachable {
          return false;
        }
        var reply := server.DeleteTask(caller, id, badIds);
        if reply != Deleted {
          return false;
        }
      }
      cache := cache - {id};
      tasks := RemoveById(tasks, id);
      ok := true;
    }

    /**
     * `toggleComplete`: an identifier not in the list does nothing;
     * otherwise the task's status is updated to its toggled value.
     */
    method ToggleComplete(id: string, server: TaskStore, caller: string, reachable: bool,
                          now: int, badIds: set<string>) returns (ok: bool)
      requires CacheValid() && server.Valid()
      modifies this, server
      ensures CacheValid() && server.Valid()
      ensures FindById(old(tasks), id).None? ==>
        && ok && tasks == old(tasks) && cache == old(cache) && server.tasks == old(server.tasks)
      ensures !old(isOnline) && FindById(old(tasks), id).Some? ==>
        var t := FindById(old(tasks), id).value;
        var u := t.(status := ToggledStatus(t.status), updatedAt := now);
        ok && tasks == ReplaceById(old(tasks), id, u) && cache == old(cache)[t.id := u]
      ensures old(isOnline) && FindById(old(tasks), id).Some? ==>
        var t := FindById(old(tasks), id).value;
        var written := UpdatedRecord(old(server.tasks), caller, id, PatchToDraft(StatusPatch(ToggledStatus(t.status))), now, badIds);
        && (ok <==> reachable && written.Some?)
        && (ok ==>
              && written.value.fields.status == ToggledStatus(t.status)
              && server.tasks == old(server.tasks)[id := written.value]
              && tasks == ReplaceById(old(tasks), id, ToClientTask(written.value))
              && cache == old(cache)[id := ToClientTask(written.value)])
        && (!ok ==> tasks == old(tasks) && cache == old(cache) && server.tasks == old(server.tasks))
    {
      var t := FindById(tasks, id);
      if t.None? {
        return true;
      }
      ok := UpdateTask(id, StatusPatch(ToggledStatus(t.value.status)), server, caller, reachable, now, badIds);
    }

    /**
     * `syncWithServer`. Offline, or when the request fails, nothing
     * changes. Otherwise every cached task is sent, the server reconciles
     * the batch, and both the cache and the list become the server's list of
     * the caller's tasks: a task deleted only locally comes back whenever
     * the server still holds it, and a cached task the server skipped and
     * does not hold disappears. When the server's final listing throws
     * (`listThrows`), the server keeps the reconciled batch but the reply
     * is an error, and the list and cache stay as they were.
     */
    method SyncWithServer(server: TaskStore, caller: string, reachable: bool, now: int, badIds: set<string>,
                          listThrows: bool)
      returns (ghost sent: seq<Task>, ghost serverTasks: seq<Record>)
      requires CacheValid() && server.Valid()
      modifies this, server
      ensures CacheValid() && server.Valid()
      ensures isOnline == old(isOnline) && filters == old(filters)
      ensures !old(isOnline) || !reachable ==>
        tasks == old(tasks) && cache == old(cache) && server.tasks == old(server.tasks)
      ensures old(isOnline) && reachable ==>
        && (forall t :: t in sent <==> t.id in old(cache) && old(cache)[t.id] == t)
        && server.tasks == Reconcile(SyncState(old(server.tasks), [], []), caller,
                                     ToClientRecords(sent), now, badIds).store
      ensures old(isOnline) && reachable && listThrows ==> tasks == old(tasks) && cache == old(cache)
      ensures old(isOnline) && reachable && !listThrows ==>
        && (forall x :: x in serverTasks <==> server.Stored(x) && x.fields.userId == caller)
        && tasks == ToClientTasks(serverTasks)
        && cache == CacheOf(tasks)
        && cache.Keys == set x | x in serverTasks :: x.id
      ensures old(isOnline) && reachable && !listThrows ==>
        forall id :: (id in old(server.tasks) && old(server.tasks)[id].fields.userId == caller
                      && id !in old(cache)) ==> id in cache && cache[id] == ToClientTask(old(server.tasks)[id])
      ensures old(isOnline) && reachable && !listThrows ==>
        forall id :: (id in old(cache) && id in badIds
                      && (id !in old(server.tasks) || old(server.tasks)[id].fields.userId != caller))
                     ==> id !in cache
    {
      sent, serverTasks := [], [];
      if !isOnline || !reachable {
        return;
      }
      var local := CachedTasks();
      sent := local;
      var batch := ToClientRecords(local);
      SyncRequestBodyIsRead(local);
      assert ReadSyncPayload(SyncRequestBody(local)) == TaskList(batch);
      ghost var store0 := server.tasks;
      var reply := server.SyncTasks(caller, TaskList(batch), now, badIds, listThrows);
      if reply.SyncFailed? {
        return;
      }
      serverTasks := reply.serverTasks;
      var ts := ToClientTasks(reply.serverTasks);
      ReplaceCache(ts);
      tasks := ts;
      SyncSparesUnsent(store0, caller, old(cache), local, now, badIds);
      SyncOutcome(store0, caller, old(cache).Keys, badIds, server.tasks, serverTasks);
    }

    /**
     * `fetchTasks`. Online, the server's answer to the current filters
     * becomes the list and the whole cache, so tasks the filters leave out
     * drop out of the cache too. Offline, or when the request fails, the
     * list is read back from the cache.
     */
    method FetchTasks(server: TaskStore, caller: string, reachable: bool) returns (ghost found: seq<Record>)
      requires CacheValid() && server.Valid()
      modifies this
      ensures CacheValid()
      ensures isOnline == old(isOnline) && filters == old(filters)
      ensures old(isOnline) && reachable ==>
        var q := TaskQuery(Kept(filters.status), Kept(filters.priority), Kept(filters.taskType),
                           if filters.sortBy == Some("") then None else filters.sortBy);
        && (forall x :: x in found <==> server.Stored(x) && Selected(x, caller, q))
        && DistinctIds(found) && SortedBy(found, SortKey(q.sortBy))
        && tasks == ToClientTasks(found)
        && (forall t :: t in tasks <==> exists x :: server.Stored(x) && Selected(x, caller, q) && t == ToClientTask(x))
        && cache == CacheOf(tasks)
      ensures !(old(isOnline) && reachable) ==>
        cache == old(cache) && forall t :: t in tasks <==> t.id in cache && cache[t.id] == t
    {
      if isOnline && reachable {
        var params := BuildQueryParams(filters);
        var reply := server.GetTasks(caller, ReadQuery(params));
        found := reply;
        var ts := ToClientTasks(reply);
        tasks := ts;
        ReplaceCache(ts);
        ClientTasksMembers(reply);
      } else {
        found := [];
        tasks := CachedTasks();
      }
    }
  }

  /** The records a list of local tasks becomes in a sync request. */
  function ToClientRecords(ts: seq<Task>): (cs: seq<ClientRecord>)
    ensures |cs| == |ts| && forall i :: 0 <= i < |ts| ==> cs[i] == ToClientRecord(ts[i])
  {
    seq(|ts|, i requires 0 <= i < |ts| => ToClientRecord(ts[i]))
  }

  /** The identifiers a sync request carries are those of the local tasks. */
  lemma SentIds(local: seq<Task>)
    ensures BatchIds(ToClientRecords(local)) == set t | t in local :: t.id
  {
    var batch := ToClientRecords(local);
    forall id
      ensures id in BatchIds(batch) <==> id in set t | t in local :: t.id
    {
      if id in BatchIds(batch) {
        var c :| c in batch && c.id == id;
        var i :| 0 <= i < |batch| && batch[i] == c;
        assert local[i] in local;
      }
      if id in set t | t in local :: t.id {
        var t :| t in local && t.id == id;
        var i :| 0 <= i < |local| && local[i] == t;
        assert batch[i] in batch;
      }
    }
  }

  /** Caching the client form of records with distinct identifiers files each under its identifier. */
  lemma CacheOfClientTasks(rs: seq<Record>)
    requires DistinctIds(rs)
    ensures CacheOf(ToClientTasks(rs)).Keys == set x | x in rs :: x.id
    ensures forall x :: x in rs ==> CacheOf(ToClientTasks(rs))[x.id] == ToClientTask(x)
  {
    var ts := ToClientTasks(rs);
    ClientTasksDistinct(rs);
    CacheOfHoldsEach(ts);
    forall id
      ensures id in CacheOf(ts).Keys <==> id in set x | x in rs :: x.id
    {
      if id in CacheOf(ts).Keys {
        var t :| t in ts && t.id == id;
        var i :| 0 <= i < |ts| && ts[i] == t;
        assert rs[i] in rs;
      }
      if id in set x | x in rs :: x.id {
        var x :| x in rs && x.id == id;
        var i :| 0 <= i < |rs| && rs[i] == x;
        assert ts[i] in ts;
      }
    }
    forall x | x in rs
      ensures CacheOf(ts)[x.id] == ToClientTask(x)
    {
      var i :| 0 <= i < |rs| && rs[i] == x;
      assert ts[i] in ts;
    }
  }

  /**
   * A sync leaves alone every record the client did not send, and every
   * record at a faulty identifier; a faulty identifier is never created.
   */
  lemma SyncSparesUnsent(store0: Store, caller: string, sentCache: map<string, Task>, local: seq<Task>,
                         now: int, badIds: set<string>)
    requires forall t :: t in local <==> t.id in sentCache && sentCache[t.id] == t
    requires forall k :: k in sentCache ==> sentCache[k].id == k
    ensures var store1 := Reconcile(SyncState(store0, [], []), caller, ToClientRecords(local), now, badIds).store;
      && (forall id :: id in store0 && id !in sentCache ==> id in store1 && store1[id] == store0[id])
      && (forall id :: id in store1 && id in badIds ==> id in store0 && store1[id] == store0[id])
  {
    ReconcileSparesOthers(SyncState(store0, [], []), caller, ToClientRecords(local), now, badIds);
    SentIds(local);
    forall id | id in sentCache
      ensures id in set t | t in local :: t.id
    {
      assert sentCache[id] in local;
    }
  }

  /**
   * What a completed sync leaves in the cache: a task of the caller the
   * client did not send is still there, unchanged; a task sent at a
   * faulty identifier the caller does not own on the server is gone.
   */
  lemma SyncOutcome(store0: Store, caller: string, sentIds: set<string>, badIds: set<string>,
                    store1: Store, serverTasks: seq<Record>)
    requires forall id :: id in store0 ==> store0[id].id == id
    requires forall id :: id in store0 && id !in sentIds ==> id in store1 && store1[id] == store0[id]
    requires forall id :: id in store1 && id in badIds ==> id in store0 && store1[id] == store0[id]
    requires forall x :: x in serverTasks <==> x.id in store1 && store1[x.id] == x && x.fields.userId == caller
    requires DistinctIds(serverTasks)
    ensures CacheOf(ToClientTasks(serverTasks)).Keys == set x | x in serverTasks :: x.id
    ensures forall id :: (id in store0 && store0[id].fields.userId == caller && id !in sentIds)
                         ==> id in CacheOf(ToClientTasks(serverTasks))
                             && CacheOf(ToClientTasks(serverTasks))[id] == ToClientTask(store0[id])
    ensures forall id :: (id in badIds && (id !in store0 || store0[id].fields.userId != caller))
                         ==> id !in CacheOf(ToClientTasks(serverTasks))
  {
    CacheOfClientTasks(serverTasks);
    forall id | id in store0 && store0[id].fields.userId == caller && id !in sentIds
      ensures id in CacheOf(ToClientTasks(serverTasks))
      ensures CacheOf(ToClientTasks(serverTasks))[id] == ToClientTask(store0[id])
    {
      assert store1[id] == store0[id];
      assert store0[id] in serverTasks;
    }
    forall id | id in badIds && (id !in store0 || store0[id].fields.userId != caller)
      ensures id !in CacheOf(ToClientTasks(serverTasks))
    {
      assert !(id in store1 && store1[id].fields.userId == caller);
      forall x | x in serverTasks
        ensures x.id != id
      {
      }
    }
  }

}
