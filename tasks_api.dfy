/**
 * The client's task API (src/api/tasks.ts): the query string `getTasks`
 * builds from the filter options, and the body `syncTasks` posts. The HTTP
 * calls themselves are not modelled; the server's reading of the same
 * query and body is, so that the two sides can be checked against each
 * other.
 */
module TasksApi {
  import opened Common
  import opened Lib
  import opened TaskSchema
  import opened TaskController

  /** The keys `getTasks` can put in its query string. */
  datatype QueryKey = StatusKey | PriorityKey | TypeKey | SortByKey

  /** The key as it is spelled in the query string. */
  function KeyName(k: QueryKey): string {
    match k
    case StatusKey => "status"
    case PriorityKey => "priority"
    case TypeKey => "type"
    case SortByKey => "sortBy"
  }

  /** One `key=value` pair of a `URLSearchParams`. */
  type Param = (QueryKey, string)

  /** The value of the first pair with the given key, as the server's query parser reads it. */
  function FirstValue(params: seq<Param>, key: QueryKey): Option<string> {
    if params == [] then None
    else if params[0].0 == key then Some(params[0].1)
    else FirstValue(params[1..], key)
  }

  /** Appending a pair changes the first value only of a key not yet present. */
  lemma {:induction false} FirstValueSnoc(params: seq<Param>, key: QueryKey, value: string, k: QueryKey)
    ensures FirstValue(params + [(key, value)], k)
            == if FirstValue(params, k).Some? || k != key then FirstValue(params, k) else Some(value)
  {
    if params != [] {
      FirstValueSnoc(params[1..], key, value, k);
      assert (params + [(key, value)])[1..] == params[1..] + [(key, value)];
    }
  }

  /** Appending a pair whose key is new sets that key of the query the server reads. */
  lemma ReadQuerySnoc(params: seq<Param>, key: QueryKey, value: string)
    requires FirstValue(params, key).None?
    ensures ReadQuery(params + [(key, value)]) == Set(ReadQuery(params), key, value)
  {
    FirstValueSnoc(params, key, value, StatusKey);
    FirstValueSnoc(params, key, value, PriorityKey);
    FirstValueSnoc(params, key, value, TypeKey);
    FirstValueSnoc(params, key, value, SortByKey);
  }

  /** The query with the field for `key` set to `value`. */
  function Set(q: TaskQuery, key: QueryKey, value: string): TaskQuery {
    match key
    case StatusKey => q.(status := Some(value))
    case PriorityKey => q.(priority := Some(value))
    case TypeKey => q.(taskType := Some(value))
    case SortByKey => q.(sortBy := Some(value))
  }

  /**
   * `v` is what the query string holds for `key`: nothing when no pair has
   * that key, otherwise the value of the first pair that has it.
   */
  predicate FirstOf(params: seq<Param>, key: QueryKey, v: Option<string>) {
    && (v.None? <==> forall i :: 0 <= i < |params| ==> params[i].0 != key)
    && (v.Some? ==> exists i :: && 0 <= i < |params| && params[i] == (key, v.value)
                                && forall j :: 0 <= j < i ==> params[j].0 != key)
  }

  /** The scan for a key finds its first pair, or reports that there is none. */
  lemma {:induction false} FirstValueIsFirst(params: seq<Param>, key: QueryKey)
    ensures FirstOf(params, key, FirstValue(params, key))
  {
    if params != [] {
      var tail := params[1..];
      if params[0].0 == key {
        assert params[0] == (key, params[0].1);
      } else {
        FirstValueIsFirst(tail, key);
        var v := FirstValue(tail, key);
        if v.Some? {
          var i :| 0 <= i < |tail| && tail[i] == (key, v.value) && forall j :: 0 <= j < i ==> tail[j].0 != key;
          assert params[i + 1] == tail[i];
          forall j | 0 <= j < i + 1
            ensures params[j].0 != key
          {
            if j > 0 {
              assert params[j] == tail[j - 1];
            }
          }
        } else {
          forall i | 0 <= i < |params|
            ensures params[i].0 != key
          {
            if i > 0 {
              assert params[i] == tail[i - 1];
            }
          }
        }
      }
    }
  }

  /** The query the server reads from a query string. */
  function ReadQuery(params: seq<Param>): TaskQuery {
    TaskQuery(
      FirstValue(params, StatusKey),
      FirstValue(params, PriorityKey),
      FirstValue(params, TypeKey),
      FirstValue(params, SortByKey))
  }

  /** The server reads, for each key, the value of its first pair, or nothing when no pair has it. */
  lemma ReadQueryTakesFirst(params: seq<Param>)
    ensures var q := ReadQuery(params);
      && FirstOf(params, StatusKey, q.status) && FirstOf(params, PriorityKey, q.priority)
      && FirstOf(params, TypeKey, q.taskType) && FirstOf(params, SortByKey, q.sortBy)
  {
    FirstValueIsFirst(params, StatusKey);
    FirstValueIsFirst(params, PriorityKey);
    FirstValueIsFirst(params, TypeKey);
    FirstValueIsFirst(params, SortByKey);
  }

  /** A filter value kept only when it is given, non-empty, and not "all". */
  function Kept(v: Option<string>): (r: Option<string>)
    ensures Present(r) <==> Present(v)
    ensures r.Some? ==> r == v
  {
    if Present(v) then v else None
  }

  /** The position of each key in the query string. */
  function KeyRank(key: QueryKey): int {
    match key
    case StatusKey => 0
    case PriorityKey => 1
    case TypeKey => 2
    case SortByKey => 3
  }

  /**
   * The query string so far uses only keys ranked below `bound`, in rising
   * rank, with non-empty values and no "all" outside `sortBy`.
   */
  predicate ParamsBelow(params: seq<Param>, bound: int) {
    && |params| <= bound
    && (forall i :: 0 <= i < |params| ==> KeyRank(params[i].0) < bound)
    && (forall i :: 0 <= i < |params| ==> params[i].1 != "")
    && (forall i :: 0 <= i < |params| && params[i].0 != SortByKey ==> params[i].1 != "all")
    && (forall i, j :: 0 <= i < j < |params| ==> KeyRank(params[i].0) < KeyRank(params[j].0))
  }

  /** One more conditional append keeps the query string well formed, one rank further. */
  lemma AppendBelow(params: seq<Param>, key: QueryKey, value: string, append: bool)
    requires ParamsBelow(params, KeyRank(key))
    requires append ==> value != "" && (key != SortByKey ==> value != "all")
    ensures ParamsBelow(if append then params + [(key, value)] else params, KeyRank(key) + 1)
  {
  }

  /** A key absent from the query string has no value there. */
  lemma {:induction false} FirstValueAbsent(params: seq<Param>, key: QueryKey)
    requires forall i :: 0 <= i < |params| ==> params[i].0 != key
    ensures FirstValue(params, key).None?
  {
    if params != [] {
      FirstValueAbsent(params[1..], key);
    }
  }

  /** The server reads one more appended key on top of what it read before. */
  lemma AppendRead(params: seq<Param>, key: QueryKey, value: string)
    requires ParamsBelow(params, KeyRank(key))
    ensures ReadQuery(params + [(key, value)]) == Set(ReadQuery(params), key, value)
  {
    FirstValueAbsent(params, key);
    ReadQuerySnoc(params, key, value);
  }

  /**
   * One `if (...) params.append(key, value)` of `getTasks`: the pair goes
   * on the end when `append` holds, and the server then reads `value` for
   * `key` on top of what it read before.
   */
  method AppendParam(params: seq<Param>, key: QueryKey, value: string, append: bool) returns (r: seq<Param>)
    requires ParamsBelow(params, KeyRank(key))
    requires append ==> value != "" && (key != SortByKey ==> value != "all")
    ensures r == if append then params + [(key, value)] else params
    ensures ParamsBelow(r, KeyRank(key) + 1)
    ensures ReadQuery(r) == if append then Set(ReadQuery(params), key, value) else ReadQuery(params)
  {
    r := params;
    if append {
      r := r + [(key, value)];
      AppendRead(params, key, value);
    }
    AppendBelow(params, key, value, append);
  }

  /**
   * `getTasks` appends `status`, `priority` and `type` only when given and
   * not "all", and `sortBy` whenever it is given, "dueDate" included. The
   * keys come out in that order, each at most once; no filter key carries
   * "all"; and the server reads back exactly the filters the client meant.
   */
  method BuildQueryParams(filters: FilterOptions) returns (params: seq<Param>)
    ensures |params| <= 4
    ensures forall i, j :: 0 <= i < j < |params| ==> KeyRank(params[i].0) < KeyRank(params[j].0)
    ensures forall i :: 0 <= i < |params| && params[i].0 != SortByKey ==> params[i].1 != "all"
    ensures forall i :: 0 <= i < |params| ==> params[i].1 != ""
    ensures ReadQuery(params) == TaskQuery(
              Kept(filters.status), Kept(filters.priority), Kept(filters.taskType),
              if filters.sortBy == Some("") then None else filters.sortBy)
    ensures (filters.status.None? && filters.priority.None? && filters.taskType.None?
             && filters.sortBy.None?) ==> params == []
  {
    params := [];
    params := AppendParam(params, StatusKey, filters.status.GetOr(""), Present(filters.status));
    params := AppendParam(params, PriorityKey, filters.priority.GetOr(""), Present(filters.priority));
    params := AppendParam(params, TypeKey, filters.taskType.GetOr(""), Present(filters.taskType));
    params := AppendParam(params, SortByKey, filters.sortBy.GetOr(""), filters.sortBy.Some? && filters.sortBy.value != "");
  }

  /** The record of a local task as it travels in a sync request. */
  function ToClientRecord(t: Task): (c: ClientRecord)
    ensures c.id == t.id && c.updatedAt == Some(t.updatedAt)
    ensures c.body.userId == Some(t.userId) && c.body.dueDate == Some(t.dueDate)
    ensures c.body.syncStatus.None? && c.body.lastSyncedAt.None?
  {
    ClientRecord(
      t.id, Some(t.updatedAt),
      Draft(
        Some(t.title), Some(t.description), Some(PriorityName(t.priority)),
        Some(StatusName(t.status)), Some(TaskTypeName(t.taskType)), Some(t.dueDate),
        Some(t.userId), None, None))
  }

  /** The body `syncTasks` posts: the local list under the key `tasks`. */
  function SyncRequestBody(localTasks: seq<Task>): map<string, BodyValue> {
    map["tasks" := Arr(seq(|localTasks|, i requires 0 <= i < |localTasks| => ToClientRecord(localTasks[i])))]
  }

  /**
   * The server finds the list where the client puts it: the body is never
   * refused as "not an array", and it holds one record per local task, in
   * order, under the same identifiers.
   */
  lemma SyncRequestBodyIsRead(localTasks: seq<Task>)
    ensures var p := ReadSyncPayload(SyncRequestBody(localTasks));
      && p.TaskList? && |p.items| == |localTasks|
      && (forall i :: 0 <= i < |localTasks| ==> p.items[i] == ToClientRecord(localTasks[i]))
      && BatchIds(p.items) == set t | t in localTasks :: t.id
  {
    var p := ReadSyncPayload(SyncRequestBody(localTasks));
    forall id
      ensures id in BatchIds(p.items) <==> id in set t | t in localTasks :: t.id
    {
      if id in BatchIds(p.items) {
        var c :| c in p.items && c.id == id;
        var i :| 0 <= i < |p.items| && p.items[i] == c;
        assert localTasks[i] in localTasks;
      }
      if id in set t | t in localTasks :: t.id {
        var t :| t in localTasks && t.id == id;
        var i :| 0 <= i < |localTasks| && localTasks[i] == t;
        assert p.items[i] in p.items;
      }
    }
  }
}
