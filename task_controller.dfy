/**
 * The server's task handlers (server/src/controllers/taskController.js)
 * over a store that maps each task identifier to its record.
 *
 * The database is abstracted: `findById` and `findOne` become lookups in
 * the map, `create` and `findByIdAndUpdate` run the schema's `Validate`
 * and then write the map, and a lookup or write that throws (an
 * identifier the database cannot cast, say) is modelled by the set
 * `badIds` of identifiers on which every store operation fails.
 *
 * `syncTasks` is specified by `Reconcile`, a left fold of `SyncStep` over
 * the batch; the class `TaskStore` carries out the same walk in place and
 * is proved to end in the state the fold describes.
 */
module TaskController {
  import opened Common
  import opened Lib
  import opened TaskSchema

  /** The task collection: identifier to stored record. */
  type Store = map<string, Record>

  /** One element of a sync batch: the client's id and `updatedAt`, and the rest of its fields. */
  datatype ClientRecord = ClientRecord(id: string, updatedAt: Option<int>, body: Draft)

  /** A value of the sync request body: an array of client records, or any value that is not an array. */
  datatype BodyValue = Arr(records: seq<ClientRecord>) | NonArray

  /** The `tasks` key of a sync request body: an array, or anything else. */
  datatype SyncPayload = TaskList(items: seq<ClientRecord>) | NotAList

  datatype ConflictEntry = ConflictEntry(taskId: string, serverVersion: Record, clientVersion: ClientRecord)

  /** Why a write was refused: the schema's errors, a store failure, or an identifier already taken. */
  datatype Fault = Invalid(errors: set<SchemaError>) | StoreFault | DuplicateKey

  /** The reply of a single-task handler: 200, 201, 404, 403, or an error passed to `next`. */
  datatype Reply =
    | Found(task: Record)
    | Created(task: Record)
    | Deleted
    | NotFound
    | Forbidden
    | Failed(fault: Fault)

  /** The reply of `syncTasks`: 400, 200 with its three lists, or an error passed to `next`. */
  datatype SyncReply =
    | BadRequest
    | SyncOk(syncedTasks: seq<Record>, conflicts: seq<ConflictEntry>, serverTasks: seq<Record>)
    | SyncFailed

  /** The query parameters `getTasks` reads. */
  datatype TaskQuery = TaskQuery(
    status: Option<string>,
    priority: Option<string>,
    taskType: Option<string>,
    sortBy: Option<string>)

  // ---------------------------------------------------------------------
  // Lookups
  // ---------------------------------------------------------------------

  /**
   * The checks `getTask`, `updateTask` and `deleteTask` share: a failing
   * lookup is an error, a missing record is 404 whoever asks, and a record
   * owned by someone else is 403.
   */
  function Authorize(store: Store, caller: string, id: string, badIds: set<string>): (r: Result<Record, Reply>)
    ensures r.Ok? <==> id !in badIds && id in store && store[id].fields.userId == caller
    ensures r.Ok? ==> r.value == store[id]
    ensures r == Err(Failed(StoreFault)) <==> id in badIds
    ensures r == Err(NotFound) <==> id !in badIds && id !in store
    ensures r == Err(Forbidden) <==> id !in badIds && id in store && store[id].fields.userId != caller
  {
    if id in badIds then Err(Failed(StoreFault))
    else if id !in store then Err(NotFound)
    else if store[id].fields.userId != caller then Err(Forbidden)
    else Ok(store[id])
  }

  /** `findOne({ _id: id, userId: caller })`: never another user's record. */
  function FindOwned(store: Store, caller: string, id: string): (r: Option<Record>)
    ensures r.Some? ==> id in store && r.value == store[id] && r.value.fields.userId == caller
    ensures r.None? ==> id !in store || store[id].fields.userId != caller
  {
    if id in store && store[id].fields.userId == caller then Some(store[id]) else None
  }

  // ---------------------------------------------------------------------
  // getTasks: filter and sort
  // ---------------------------------------------------------------------

  /** A query value the handler uses: given, non-empty, and not "all". */
  predicate Present(v: Option<string>) {
    v.Some? && v.value != "" && v.value != "all"
  }

  /** A record the query selects: the caller's, and equal to each present filter value. */
  predicate Selected(x: Record, caller: string, q: TaskQuery) {
    && x.fields.userId == caller
    && (Present(q.status) ==> StatusName(x.fields.status) == q.status.value)
    && (Present(q.priority) ==> PriorityName(x.fields.priority) == q.priority.value)
    && (Present(q.taskType) ==> TaskTypeName(x.fields.taskType) == q.taskType.value)
  }

  /** The query that selects every task of the caller (`find({ userId })`). */
  const AllOfCaller := TaskQuery(None, None, None, None)

  /** `a < b` on strings, character by character, as the database orders strings. */
  predicate LexLess(a: string, b: string)
    decreases |a|
  {
    if a == [] then b != []
    else if b == [] then false
    else a[0] < b[0] || (a[0] == b[0] && LexLess(a[1..], b[1..]))
  }

  /**
   * The position of a priority when the stored strings are sorted
   * ascending: "high" < "low" < "medium" < "urgent".
   */
  function RawPriorityRank(p: Priority): int {
    match p
    case High => 0
    case Low => 1
    case Medium => 2
    case Urgent => 3
  }

  /**
   * Sorting on the priority path orders the wire names alphabetically, not
   * by urgency: the rank agrees with string order, and an urgent task sorts
   * after a low one.
   */
  lemma RawPriorityRankIsStringOrder(p: Priority, q: Priority)
    ensures RawPriorityRank(p) < RawPriorityRank(q) <==> LexLess(PriorityName(p), PriorityName(q))
    ensures RawPriorityRank(Low) < RawPriorityRank(Urgent) && RawPriorityRank(High) < RawPriorityRank(Medium)
  {
    if p == q {
      LexLessIrreflexive(PriorityName(p));
    } else {
      LexLessByFirst(PriorityName(p), PriorityName(q));
    }
  }

  /** No string sorts before itself. */
  lemma {:induction false} LexLessIrreflexive(a: string)
    ensures !LexLess(a, a)
    decreases |a|
  {
    if a != [] {
      LexLessIrreflexive(a[1..]);
    }
  }

  /** Strings that differ in their first character are ordered by it. */
  lemma LexLessByFirst(a: string, b: string)
    requires a != [] && b != [] && a[0] != b[0]
    ensures LexLess(a, b) <==> a[0] < b[0]
  {
  }

  /**
   * The sort key of each `sortBy` value: ascending due date for "dueDate",
   * for a missing value and for any unknown value; descending creation time
   * for "createdAt"; ascending stored priority string for "priority".
   */
  function SortKey(sortBy: Option<string>): (key: Record -> int)
    ensures sortBy == Some("createdAt") ==> forall x :: key(x) == -x.createdAt
    ensures sortBy == Some("priority") ==> forall x :: key(x) == RawPriorityRank(x.fields.priority)
    ensures sortBy != Some("createdAt") && sortBy != Some("priority") ==>
              forall x :: key(x) == x.fields.dueDate
  {
    if sortBy == Some("priority") then (x: Record) => RawPriorityRank(x.fields.priority)
    else if sortBy == Some("createdAt") then (x: Record) => -x.createdAt
    else (x: Record) => x.fields.dueDate
  }

  /** No identifier occurs twice. */
  predicate DistinctIds(s: seq<Record>) {
    forall i, j :: 0 <= i < j < |s| ==> s[i].id != s[j].id
  }

  // ---------------------------------------------------------------------
  // syncTasks: the specification
  // ---------------------------------------------------------------------

  /** The store and the two reply lists while the batch is walked. */
  datatype SyncState = SyncState(store: Store, synced: seq<Record>, conflicts: seq<ConflictEntry>)

  /**
   * `serverUpdated > clientUpdated` on `Date` values. A client record with
   * no usable `updatedAt` gives an invalid date, and an invalid date
   * compares false, so the server never wins against it.
   */
  predicate ServerWins(serverUpdated: int, clientUpdated: Option<int>): (w: bool)
    ensures clientUpdated.None? ==> !w
    ensures clientUpdated == Some(serverUpdated) ==> !w
    ensures w <==> clientUpdated.Some? && clientUpdated.value < serverUpdated
  {
    clientUpdated.Some? && serverUpdated > clientUpdated.value
  }

  /** The document `Task.create` receives: the client's fields, then the caller as owner, stamped synced. */
  function SyncCreateDraft(c: ClientRecord, caller: string, now: int): (d: Draft)
    ensures d.userId == Some(caller) && d.syncStatus == Some("synced") && d.lastSyncedAt == Some(now)
    ensures d.(userId := c.body.userId, syncStatus := c.body.syncStatus, lastSyncedAt := c.body.lastSyncedAt) == c.body
  {
    c.body.(userId := Some(caller), syncStatus := Some("synced"), lastSyncedAt := Some(now))
  }

  /** The update `findByIdAndUpdate` receives: the client's fields, stamped synced; the owner is not overridden. */
  function SyncUpdatePatch(c: ClientRecord, now: int): (d: Draft)
    ensures d.userId == c.body.userId && d.syncStatus == Some("synced") && d.lastSyncedAt == Some(now)
    ensures d.(syncStatus := c.body.syncStatus, lastSyncedAt := c.body.lastSyncedAt) == c.body
  {
    c.body.(syncStatus := Some("synced"), lastSyncedAt := Some(now))
  }

  /**
   * One iteration of the sync loop. A record whose lookup fails, whose
   * create or update the schema refuses, or whose identifier belongs to
   * another user's task (the create then hits the unique identifier) is
   * skipped and leaves everything as it was.
   */
  function SyncStep(st: SyncState, caller: string, c: ClientRecord, now: int, badIds: set<string>): (r: SyncState)
    ensures st.synced <= r.synced && st.conflicts <= r.conflicts
    ensures r.synced == st.synced || r.conflicts == st.conflicts
    ensures |r.synced| <= |st.synced| + 1 && |r.conflicts| <= |st.conflicts| + 1
    ensures st.store.Keys <= r.store.Keys <= st.store.Keys + {c.id}
    ensures r.conflicts != st.conflicts ==> r.store == st.store
    ensures forall id :: id in st.store && id != c.id ==> r.store[id] == st.store[id]
    ensures r.store != st.store ==>
              c.id !in badIds && (c.id !in st.store || st.store[c.id].fields.userId == caller)
  {
    if c.id in badIds then st
    else match FindOwned(st.store, caller, c.id)
      case None =>
        if c.id in st.store then st
        else (
          match Validate(SyncCreateDraft(c, caller, now), now)
          case Err(_) => st
          case Ok(f) =>
            var rec := Record(c.id, f, now, now);
            SyncState(st.store[c.id := rec], st.synced + [rec], st.conflicts))
      case Some(server) =>
        if ServerWins(server.updatedAt, c.updatedAt) then
          SyncState(st.store, st.synced, st.conflicts + [ConflictEntry(c.id, server, c)])
        else (
          match Validate(Overlay(ToDraft(server.fields), SyncUpdatePatch(c, now)), now)
          case Err(_) => st
          case Ok(f) =>
            var rec := Record(c.id, f, server.createdAt, now);
            SyncState(st.store[c.id := rec], st.synced + [rec], st.conflicts))
  }

  /** The sync loop over a whole batch, in order. */
  function Reconcile(st: SyncState, caller: string, batch: seq<ClientRecord>, now: int, badIds: set<string>): (r: SyncState)
    ensures st.synced <= r.synced && st.conflicts <= r.conflicts
    ensures |r.synced| + |r.conflicts| <= |st.synced| + |st.conflicts| + |batch|
    ensures st.store.Keys <= r.store.Keys
    decreases |batch|
  {
    if batch == [] then st
    else SyncStep(Reconcile(st, caller, batch[..|batch| - 1], now, badIds), caller, batch[|batch| - 1], now, badIds)
  }

  /** Walking one more record of the batch is one more step. */
  lemma ReconcileExtend(st: SyncState, caller: string, batch: seq<ClientRecord>, i: nat, now: int, badIds: set<string>)
    requires i < |batch|
    ensures Reconcile(st, caller, batch[..i + 1], now, badIds)
            == SyncStep(Reconcile(st, caller, batch[..i], now, badIds), caller, batch[i], now, badIds)
  {
    assert batch[..i + 1][..i] == batch[..i];
  }

  /** The identifiers a batch mentions. */
  function BatchIds(batch: seq<ClientRecord>): set<string> {
    set c | c in batch :: c.id
  }

  /**
   * Where the `tasks` key of the request body is read and tested with
   * `Array.isArray`: a missing key, or a value that is not an array, is
   * not a task list.
   */
  function ReadSyncPayload(body: map<string, BodyValue>): (p: SyncPayload)
    ensures p.TaskList? <==> "tasks" in body && body["tasks"].Arr?
    ensures p.TaskList? ==> p.items == body["tasks"].records
  {
    if "tasks" in body && body["tasks"].Arr? then TaskList(body["tasks"].records) else NotAList
  }

  // ---------------------------------------------------------------------
  // syncTasks: properties of one step
  // ---------------------------------------------------------------------

  /** A record whose lookup throws is skipped: nothing changes. */
  lemma SyncStepSkipsFaults(st: SyncState, caller: string, c: ClientRecord, now: int, badIds: set<string>)
    requires c.id in badIds
    ensures SyncStep(st, caller, c, now, badIds) == st
  {
  }

  /**
   * A record the caller does not have, at an unused identifier, is created
   * if the schema admits it: owned by the caller whatever owner the client
   * sent, stamped synced, and appended to the synced list.
   */
  lemma SyncStepCreates(st: SyncState, caller: string, c: ClientRecord, now: int, badIds: set<string>)
    requires c.id !in badIds && c.id !in st.store
    ensures var r := SyncStep(st, caller, c, now, badIds);
      match Validate(SyncCreateDraft(c, caller, now), now)
      case Err(_) => r == st
      case Ok(f) =>
        && f.userId == caller && f.syncStatus == Synced && f.lastSyncedAt == now
        && r.store == st.store[c.id := Record(c.id, f, now, now)]
        && r.synced == st.synced + [Record(c.id, f, now, now)]
        && r.conflicts == st.conflicts
  {
    var d := SyncCreateDraft(c, caller, now);
    var v := Validate(d, now);
    if v.Ok? {
      assert d.userId == Some(caller) && d.syncStatus == Some("synced");
      assert SyncStatusName(v.value.syncStatus) == "synced";
    }
  }

  /**
   * A server record updated strictly after the client's copy wins: the
   * conflict is reported with both versions, and neither the store nor the
   * synced list changes.
   */
  lemma SyncStepConflict(st: SyncState, caller: string, c: ClientRecord, now: int, badIds: set<string>)
    requires c.id !in badIds && c.id in st.store && st.store[c.id].fields.userId == caller
    requires c.updatedAt.Some? && st.store[c.id].updatedAt > c.updatedAt.value
    ensures var r := SyncStep(st, caller, c, now, badIds);
      && r.store == st.store && r.synced == st.synced
      && r.conflicts == st.conflicts + [ConflictEntry(c.id, st.store[c.id], c)]
  {
  }

  /**
   * A client copy as recent as the server's, a tie included, or one with
   * no timestamp, overwrites the server record: the fields the client sent
   * replace the server's, the rest stay, the record is stamped synced, its
   * creation time is kept, and it is appended to the synced list. The owner
   * is not overridden on this path, so an owner the client sends replaces
   * the caller.
   */
  lemma SyncStepClientWins(st: SyncState, caller: string, c: ClientRecord, now: int, badIds: set<string>)
    requires c.id !in badIds && c.id in st.store && st.store[c.id].fields.userId == caller
    requires c.updatedAt.None? || c.updatedAt.value >= st.store[c.id].updatedAt
    ensures var server := st.store[c.id];
      var r := SyncStep(st, caller, c, now, badIds);
      match Validate(Overlay(ToDraft(server.fields), SyncUpdatePatch(c, now)), now)
      case Err(_) => r == st
      case Ok(f) =>
        && f.syncStatus == Synced && f.lastSyncedAt == now
        && (c.body.dueDate.None? ==> f.dueDate == server.fields.dueDate)
        && (c.body.userId.None? ==> f.userId == caller)
        && (c.body.userId.Some? ==> f.userId == c.body.userId.value)
        && r.store == st.store[c.id := Record(c.id, f, server.createdAt, now)]
        && r.synced == st.synced + [Record(c.id, f, server.createdAt, now)]
        && r.conflicts == st.conflicts
  {
    var server := st.store[c.id];
    var d := Overlay(ToDraft(server.fields), SyncUpdatePatch(c, now));
    var v := Validate(d, now);
    assert FindOwned(st.store, caller, c.id) == Some(server);
    assert !ServerWins(server.updatedAt, c.updatedAt);
    if v.Ok? {
      assert d.syncStatus == Some("synced");
      assert SyncStatusName(v.value.syncStatus) == "synced";
      var rec := Record(c.id, v.value, server.createdAt, now);
      assert SyncStep(st, caller, c, now, badIds) == SyncState(st.store[c.id := rec], st.synced + [rec], st.conflicts);
    }
  }

  // ---------------------------------------------------------------------
  // syncTasks: properties of the whole walk
  // ---------------------------------------------------------------------

  /**
   * A record the walk must leave alone is left alone: one owned by another
   * user, one at an identifier whose lookup throws, and one the batch does
   * not mention. New records appear only at identifiers the batch mentions
   * and whose lookups succeed.
   */
  lemma {:induction false} ReconcileSparesOthers(st: SyncState, caller: string, batch: seq<ClientRecord>, now: int, badIds: set<string>)
    ensures var r := Reconcile(st, caller, batch, now, badIds);
      && (forall id :: id in st.store && st.store[id].fields.userId != caller ==> r.store[id] == st.store[id])
      && (forall id :: id in st.store && id in badIds ==> r.store[id] == st.store[id])
      && (forall id :: id in st.store && id !in BatchIds(batch) ==> r.store[id] == st.store[id])
      && (forall id :: id in r.store && id !in st.store ==> id in BatchIds(batch) && id !in badIds)
    decreases |batch|
  {
    if batch != [] {
      var front := batch[..|batch| - 1];
      var c := batch[|batch| - 1];
      ReconcileSparesOthers(st, caller, front, now, badIds);
      BatchIdsSnoc(batch);
    }
  }

  /** The identifiers of a non-empty batch: those of all but its last record, and the last one's. */
  lemma BatchIdsSnoc(batch: seq<ClientRecord>)
    requires batch != []
    ensures BatchIds(batch) == BatchIds(batch[..|batch| - 1]) + {batch[|batch| - 1].id}
  {
    var front := batch[..|batch| - 1];
    assert batch == front + [batch[|batch| - 1]];
  }

  /**
   * Every record of the batch lands in at most one of the two lists, and a
   * sync that starts from empty lists reports at most one entry per record.
   */
  lemma SyncReportsAtMostBatch(store: Store, caller: string, batch: seq<ClientRecord>, now: int, badIds: set<string>)
    ensures var r := Reconcile(SyncState(store, [], []), caller, batch, now, badIds);
      |r.synced| + |r.conflicts| <= |batch|
  {
  }

  /**
   * A sync of one record the server has never seen, at an identifier whose
   * lookup succeeds, stores the record the schema admits under the
   * client's identifier, owned by the caller, and reports exactly it.
   */
  lemma SyncSingleNewRecord(store: Store, caller: string, c: ClientRecord, now: int, badIds: set<string>)
    requires c.id !in badIds && c.id !in store
    requires Validate(SyncCreateDraft(c, caller, now), now).Ok?
    ensures var r := Reconcile(SyncState(store, [], []), caller, [c], now, badIds);
      && c.id in r.store && r.store[c.id].fields.userId == caller
      && r.synced == [r.store[c.id]] && r.conflicts == []
      && r.store - {c.id} == store
  {
    var st := SyncState(store, [], []);
    assert Reconcile(st, caller, [c], now, badIds) == SyncStep(st, caller, c, now, badIds) by {
      assert [c][..0] == [];
    }
    SyncStepCreates(st, caller, c, now, badIds);
    RemoveAdded(store, c.id, Record(c.id, Validate(SyncCreateDraft(c, caller, now), now).value, now, now));
  }

  /** Adding a new key to a map and removing it again gives the map back. */
  lemma RemoveAdded<K, V>(m: map<K, V>, k: K, v: V)
    requires k !in m
    ensures m[k := v] - {k} == m
  {
  }

  /**
   * The record a successful `updateTask` writes: the update spread over the
   * caller's stored document, validated, keeping `createdAt` and stamped
   * now. None when the shared checks or the validation refuse it.
   */
  function UpdatedRecord(store: Store, caller: string, id: string, patch: Draft, now: int, badIds: set<string>): (r: Option<Record>)
    ensures r.None? <==> Authorize(store, caller, id, badIds).Err?
                         || Validate(Overlay(ToDraft(store[id].fields), patch), now).Err?
    ensures r.Some? ==> id !in badIds && id in store && store[id].fields.userId == caller
    ensures r.Some? ==> && r.value.id == id && r.value.createdAt == store[id].createdAt
                        && r.value.updatedAt == now && FieldsValid(r.value.fields)
  {
    var auth := Authorize(store, caller, id, badIds);
    if auth.Err? then None
    else
      var v := Validate(Overlay(ToDraft(auth.value.fields), patch), now);
      if v.Err? then None else Some(Record(id, v.value, auth.value.createdAt, now))
  }

  // ---------------------------------------------------------------------
  // The store and its handlers
  // ---------------------------------------------------------------------

  class TaskStore {
    var tasks: Store

    /** Every record is filed under its own identifier. */
    predicate Valid()
      reads this
    {
      forall id :: id in tasks ==> tasks[id].id == id
    }

    /** `x` is the record filed under its identifier. */
    predicate Stored(x: Record)
      reads this
    {
      x.id in tasks && tasks[x.id] == x
    }

    constructor()
      ensures tasks == map[] && Valid()
    {
      tasks := map[];
    }

    /**
     * `Task.find(query)`: the stored records the query selects, each once,
     * in the order the scan meets them.
     */
    method Select(caller: string, q: TaskQuery) returns (found: seq<Record>)
      requires Valid()
      ensures forall x :: x in found <==> Stored(x) && Selected(x, caller, q)
      ensures DistinctIds(found)
    {
      found := [];
      var rest := tasks.Keys;
      while rest != {}
        invariant rest <= tasks.Keys
        invariant forall x :: x in found <==> x.id in tasks.Keys - rest && tasks[x.id] == x && Selected(x, caller, q)
        invariant DistinctIds(found)
        decreases rest
      {
        var id :| id in rest;
        var x := tasks[id];
        if Selected(x, caller, q) {
          found := found + [x];
        }
        rest := rest - {id};
      }
    }

    /**
     * `getTasks`: the caller's records that match every present filter,
     * each once, sorted on the key `sortBy` names.
     */
    method GetTasks(caller: string, q: TaskQuery) returns (result: seq<Record>)
      requires Valid()
      ensures forall x :: x in result <==> Stored(x) && Selected(x, caller, q)
      ensures forall x :: x in result ==> x.fields.userId == caller
      ensures DistinctIds(result)
      ensures SortedBy(result, SortKey(q.sortBy))
    {
      var found := Select(caller, q);
      result := SortBy(found, SortKey(q.sortBy));
      assert forall x :: x in result <==> x in found by {
        assert multiset(result) == multiset(found);
        forall x
          ensures x in result <==> x in found
        {
          assert x in result <==> x in multiset(result);
          assert x in found <==> x in multiset(found);
        }
      }
      DistinctIdsPermutation(found, result);
    }

    /** `getTask`: the caller's record, or 404 / 403 / an error, in that order of checks. */
    method GetTask(caller: string, id: string, badIds: set<string>) returns (reply: Reply)
      ensures reply.Found? <==> id !in badIds && id in tasks && tasks[id].fields.userId == caller
      ensures reply.Found? ==> reply.task == tasks[id]
      ensures !reply.Found? ==> Authorize(tasks, caller, id, badIds) == Err(reply)
    {
      var auth := Authorize(tasks, caller, id, badIds);
      if auth.Ok? {
        reply := Found(auth.value);
      } else {
        reply := auth.error;
      }
    }

    /**
     * `createTask`: the body with the caller written in as owner is
     * validated and stored under a new identifier.
     */
    method CreateTask(caller: string, body: Draft, newId: string, now: int) returns (reply: Reply)
      requires Valid()
      modifies this
      ensures Valid()
      ensures var v := Validate(body.(userId := Some(caller)), now);
        && (v.Err? ==> reply == Failed(Invalid(v.error)) && tasks == old(tasks))
        && (v.Ok? && newId in old(tasks) ==> reply == Failed(DuplicateKey) && tasks == old(tasks))
        && (v.Ok? && newId !in old(tasks) ==>
              && reply == Created(Record(newId, v.value, now, now))
              && tasks == old(tasks)[newId := reply.task])
      ensures reply.Created? ==> reply.task.fields.userId == caller
    {
      var v := Validate(body.(userId := Some(caller)), now);
      if v.Err? {
        reply := Failed(Invalid(v.error));
      } else if newId in tasks {
        reply := Failed(DuplicateKey);
      } else {
        var rec := Record(newId, v.value, now, now);
        tasks := tasks[newId := rec];
        reply := Created(rec);
      }
    }

    /**
     * `updateTask`: after the shared checks, the update is spread over the
     * stored document, validated, and written with a new `updatedAt`.
     */
    method UpdateTask(caller: string, id: string, patch: Draft, now: int, badIds: set<string>) returns (reply: Reply)
      requires Valid()
      modifies this
      ensures Valid()
      ensures var auth := Authorize(old(tasks), caller, id, badIds);
        && (auth.Err? ==> reply == auth.error && tasks == old(tasks))
        && (auth.Ok? ==>
              var v := Validate(Overlay(ToDraft(auth.value.fields), patch), now);
              && (v.Err? ==> reply == Failed(Invalid(v.error)) && tasks == old(tasks))
              && (v.Ok? ==>
                    && reply == Found(Record(id, v.value, auth.value.createdAt, now))
                    && tasks == old(tasks)[id := reply.task]))
      ensures reply.Found? <==> UpdatedRecord(old(tasks), caller, id, patch, now, badIds).Some?
      ensures reply.Found? ==>
        && reply.task == UpdatedRecord(old(tasks), caller, id, patch, now, badIds).value
        && tasks == old(tasks)[id := reply.task]
      ensures !reply.Found? ==> tasks == old(tasks)
    {
      var auth := Authorize(tasks, caller, id, badIds);
      if auth.Err? {
        reply := auth.error;
        return;
      }
      var v := Validate(Overlay(ToDraft(auth.value.fields), patch), now);
      if v.Err? {
        reply := Failed(Invalid(v.error));
      } else {
        var rec := Record(id, v.value, auth.value.createdAt, now);
        tasks := tasks[id := rec];
        reply := Found(rec);
      }
    }

    /** `deleteTask`: after the shared checks, the record is removed. */
    method DeleteTask(caller: string, id: string, badIds: set<string>) returns (reply: Reply)
      requires Valid()
      modifies this
      ensures Valid()
      ensures var auth := Authorize(old(tasks), caller, id, badIds);
        && (auth.Err? ==> reply == auth.error && tasks == old(tasks))
        && (auth.Ok? ==> reply == Deleted && tasks == old(tasks) - {id})
    {
      var auth := Authorize(tasks, caller, id, badIds);
      if auth.Err? {
        reply := auth.error;
      } else {
        tasks := tasks - {id};
        reply := Deleted;
      }
    }

    /** One iteration of the sync loop, carried out on the store. */
    method SyncOne(caller: string, c: ClientRecord, synced0: seq<Record>, conflicts0: seq<ConflictEntry>,
                   now: int, badIds: set<string>)
      returns (synced: seq<Record>, conflicts: seq<ConflictEntry>)
      requires Valid()
      modifies this
      ensures Valid()
      ensures SyncState(tasks, synced, conflicts)
              == SyncStep(SyncState(old(tasks), synced0, conflicts0), caller, c, now, badIds)
    {
      synced, conflicts := synced0, conflicts0;
      if c.id in badIds {
        return;
      }
      var server := FindOwned(tasks, caller, c.id);
      if server.None? {
        if c.id in tasks {
          return;
        }
        var v := Validate(SyncCreateDraft(c, caller, now), now);
        if v.Ok? {
          var rec := Record(c.id, v.value, now, now);
          Put(rec);
          synced := synced + [rec];
        }
      } else if ServerWins(server.value.updatedAt, c.updatedAt) {
        conflicts := conflicts + [ConflictEntry(c.id, server.value, c)];
      } else {
        var v := Validate(Overlay(ToDraft(server.value.fields), SyncUpdatePatch(c, now)), now);
        if v.Ok? {
          var rec := Record(c.id, v.value, server.value.createdAt, now);
          Put(rec);
          synced := synced + [rec];
        }
      }
    }

    /** A write files the record under its own identifier. */
    method Put(rec: Record)
      requires Valid()
      modifies this
      ensures Valid() && tasks == old(tasks)[rec.id := rec]
    {
      tasks := tasks[rec.id := rec];
    }

    /**
     * `syncTasks`: a body without a task array is refused and changes
     * nothing; otherwise the batch is reconciled in order and the reply
     * carries the synced records, the conflicts, and every record the
     * caller owns afterwards. `listThrows` says whether that final
     * `find` throws: the request then fails, and the batch's writes stay.
     */
    method SyncTasks(caller: string, payload: SyncPayload, now: int, badIds: set<string>, listThrows: bool)
      returns (reply: SyncReply)
      requires Valid()
      modifies this
      ensures Valid()
      ensures payload.NotAList? ==> reply == BadRequest && tasks == old(tasks)
      ensures payload.TaskList? ==>
        tasks == Reconcile(SyncState(old(tasks), [], []), caller, payload.items, now, badIds).store
      ensures payload.TaskList? && listThrows ==> reply == SyncFailed
      ensures payload.TaskList? && !listThrows ==>
        var r := Reconcile(SyncState(old(tasks), [], []), caller, payload.items, now, badIds);
        && reply.SyncOk? && reply.syncedTasks == r.synced && reply.conflicts == r.conflicts
        && (forall x :: x in reply.serverTasks <==> Stored(x) && x.fields.userId == caller)
        && DistinctIds(reply.serverTasks)
    {
      if payload.NotAList? {
        return BadRequest;
      }
      var batch := payload.items;
      var synced: seq<Record> := [];
      var conflicts: seq<ConflictEntry> := [];
      for i := 0 to |batch|
        invariant Valid()
        invariant SyncState(tasks, synced, conflicts)
                  == Reconcile(SyncState(old(tasks), [], []), caller, batch[..i], now, badIds)
      {
        ReconcileExtend(SyncState(old(tasks), [], []), caller, batch, i, now, badIds);
        synced, conflicts := SyncOne(caller, batch[i], synced, conflicts, now, badIds);
      }
      assert batch[..|batch|] == batch;
      if listThrows {
        return SyncFailed;
      }
      var serverTasks := Select(caller, AllOfCaller);
      reply := SyncOk(synced, conflicts, serverTasks);
    }
  }

  /** Reordering a sequence keeps its identifiers distinct. */
  lemma DistinctIdsPermutation(a: seq<Record>, b: seq<Record>)
    requires DistinctIds(a)
    requires multiset(a) == multiset(b)
    ensures DistinctIds(b)
  {
    forall i, j | 0 <= i < j < |b|
      ensures b[i].id != b[j].id
    {
      var x, y := b[i], b[j];
      assert x in multiset(a) && y in multiset(a);
      if x == y {
        TwoOccurrences(b, i, j);
        DistinctCount(a, x);
      } else {
        var k :| 0 <= k < |a| && a[k] == x;
        var m :| 0 <= m < |a| && a[m] == y;
        assert k != m;
      }
    }
  }

  /** An element at two positions occurs at least twice. */
  lemma TwoOccurrences<T>(s: seq<T>, i: int, j: int)
    requires 0 <= i < j < |s| && s[i] == s[j]
    ensures multiset(s)[s[i]] >= 2
  {
    assert s == s[..i] + [s[i]] + s[i + 1..j] + [s[j]] + s[j + 1..];
  }

  /** In a sequence with distinct identifiers every record occurs at most once. */
  lemma {:induction false} DistinctCount(a: seq<Record>, x: Record)
    requires DistinctIds(a)
    ensures multiset(a)[x] <= 1
  {
    if a != [] {
      assert a == [a[0]] + a[1..];
      DistinctCount(a[1..], x);
      if a[0] == x {
        assert x !in a[1..];
      }
    }
  }
}
