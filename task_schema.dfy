/**
 * The server's task schema (server/src/models/Task.js) as a function that
 * validates a submitted document and fills in the defaults.
 *
 * A submitted document is a `Draft`: every path may be missing. A document
 * that passed the schema is a `Fields` value: every path holds a value of
 * the right kind. The store keeps `Record`s, which add the identifier and
 * the two timestamps that the schema's `timestamps` option maintains.
 */
module TaskSchema {
  import opened Common
  import opened Lib

  datatype SyncStatus = Synced | Pending | Conflicted

  function SyncStatusName(s: SyncStatus): string {
    match s
    case Synced => "synced"
    case Pending => "pending"
    case Conflicted => "conflict"
  }

  function ParseSyncStatus(s: string): (r: Option<SyncStatus>)
    ensures r.Some? ==> SyncStatusName(r.value) == s
    ensures r.None? <==> forall t :: SyncStatusName(t) != s
  {
    if s == "synced" then Some(Synced)
    else if s == "pending" then Some(Pending)
    else if s == "conflict" then Some(Conflicted)
    else None
  }

  const TitleMaxLength: nat := 200
  const DescriptionMaxLength: nat := 1000

  // ---------------------------------------------------------------------
  // `trim: true` on the title
  // ---------------------------------------------------------------------

  /** The characters `String.prototype.trim` removes. */
  predicate IsWhitespace(c: char) {
    || c == ' ' || c == '\t' || c == '\n' || c == '\r' || c == '\U{000B}' || c == '\U{000C}'
    || c == '\U{00A0}' || c == '\U{1680}' || ('\U{2000}' <= c <= '\U{200A}')
    || c == '\U{2028}' || c == '\U{2029}' || c == '\U{202F}' || c == '\U{205F}'
    || c == '\U{3000}' || c == '\U{FEFF}'
  }

  /** Neither end of `s` is white space. */
  predicate IsTrimmed(s: string) {
    s == [] || (!IsWhitespace(s[0]) && !IsWhitespace(s[|s| - 1]))
  }

  function TrimStart(s: string): (r: string)
    ensures |r| <= |s| && r == s[|s| - |r|..]
    ensures r == [] || !IsWhitespace(r[0])
    ensures forall i :: 0 <= i < |s| - |r| ==> IsWhitespace(s[i])
  {
    if s != [] && IsWhitespace(s[0]) then TrimStart(s[1..]) else s
  }

  function TrimEnd(s: string): (r: string)
    ensures |r| <= |s| && r == s[..|r|]
    ensures r == [] || !IsWhitespace(r[|r| - 1])
    ensures forall i :: |r| <= i < |s| ==> IsWhitespace(s[i])
  {
    if s != [] && IsWhitespace(s[|s| - 1]) then TrimEnd(s[..|s| - 1]) else s
  }

  /** `s.trim()`: white space dropped from both ends. */
  function Trim(s: string): (r: string)
    ensures IsTrimmed(r) && |r| <= |s|
  {
    var a := TrimStart(s);
    var r := TrimEnd(a);
    assert r != [] ==> r[0] == a[0];
    r
  }

  /**
   * The trim is an infix of `s` with only white space before and after
   * it: the longest infix that neither starts nor ends with white space.
   */
  lemma TrimDropsOnlyWhitespace(s: string)
    ensures exists i ::
              && OccursAt(s, Trim(s), i)
              && (forall k :: 0 <= k < i ==> IsWhitespace(s[k]))
              && (forall k :: i + |Trim(s)| <= k < |s| ==> IsWhitespace(s[k]))
  {
    var a := TrimStart(s);
    var r := TrimEnd(a);
    assert r == Trim(s);
    var ws := (c: char) => IsWhitespace(c);
    PrefixOfSuffix(s, a, r, ws);
    assert OccursAt(s, r, |s| - |a|);
  }

  /**
   * A prefix `r` of a suffix `a` of `s` sits in `s` where `a` starts, and
   * whatever `a` has after `r` is what `s` has after it.
   */
  lemma PrefixOfSuffix(s: string, a: string, r: string, p: char -> bool)
    requires |a| <= |s| && a == s[|s| - |a|..]
    requires |r| <= |a| && r == a[..|r|]
    requires forall j :: |r| <= j < |a| ==> p(a[j])
    ensures s[|s| - |a|..|s| - |a| + |r|] == r
    ensures forall k :: |s| - |a| + |r| <= k < |s| ==> p(s[k])
  {
    var i := |s| - |a|;
    forall k | i + |r| <= k < |s|
      ensures p(s[k])
    {
      assert s[k] == a[k - i];
    }
  }

  /** A string with no white space at either end is its own trim. */
  lemma TrimOfTrimmed(s: string)
    requires IsTrimmed(s)
    ensures Trim(s) == s
  {
  }

  /** Trimming twice is trimming once. */
  lemma TrimIdempotent(s: string)
    ensures Trim(Trim(s)) == Trim(s)
  {
    TrimOfTrimmed(Trim(s));
  }

  // ---------------------------------------------------------------------
  // Documents and validation
  // ---------------------------------------------------------------------

  datatype Path =
    | TitlePath | DescriptionPath | PriorityPath | StatusPath | TypePath
    | DueDatePath | UserIdPath | SyncStatusPath

  datatype SchemaError =
    | Required(path: Path)
    | TooLong(path: Path, max: nat)
    | NotInEnum(path: Path)

  /** A submitted document: each path is present (`Some`) or missing (`None`). */
  datatype Draft = Draft(
    title: Option<string>,
    description: Option<string>,
    priority: Option<string>,
    status: Option<string>,
    taskType: Option<string>,
    dueDate: Option<int>,
    userId: Option<string>,
    syncStatus: Option<string>,
    lastSyncedAt: Option<int>)

  /** A document that satisfies the schema. */
  datatype Fields = Fields(
    title: string,
    description: string,
    priority: Priority,
    status: TaskStatus,
    taskType: TaskType,
    dueDate: int,
    userId: string,
    syncStatus: SyncStatus,
    lastSyncedAt: int)

  /** A stored task: its identifier, its fields, and the schema's timestamps. */
  datatype Record = Record(id: string, fields: Fields, createdAt: int, updatedAt: int)

  /** What the schema guarantees of every document it admits. */
  predicate FieldsValid(f: Fields) {
    && IsTrimmed(f.title)
    && 1 <= |f.title| <= TitleMaxLength
    && |f.description| <= DescriptionMaxLength
    && f.userId != ""
  }

  /** The single error `e` when `failed`, no error otherwise. */
  function When(failed: bool, e: SchemaError): (r: set<SchemaError>)
    ensures e in r <==> failed
    ensures r <= {e}
  {
    if failed then {e} else {}
  }

  /**
   * Every error the schema reports for a document, path by path. `title`
   * is trimmed before it is checked; a required string path also fails on
   * the empty string; an enumerated path fails only on a value it is given
   * that lies outside the enumeration.
   */
  function Errors(d: Draft): (errs: set<SchemaError>)
    ensures errs == {} <==> AcceptedByAllPaths(d)
  {
    TitleErrors(d) + OptionalPathErrors(d) + RequiredPathErrors(d)
  }

  /** The title's errors: missing or blank once trimmed, or too long. */
  function TitleErrors(d: Draft): (errs: set<SchemaError>)
    ensures errs == {} <==> d.title.Some? && 1 <= |Trim(d.title.value)| <= TitleMaxLength
  {
    When(d.title.None? || Trim(d.title.value) == "", Required(TitlePath))
    + When(d.title.Some? && |Trim(d.title.value)| > TitleMaxLength, TooLong(TitlePath, TitleMaxLength))
  }

  /** The errors of the paths a document may leave out. */
  function OptionalPathErrors(d: Draft): (errs: set<SchemaError>)
    ensures errs == {} <==>
      && (d.description.Some? ==> |d.description.value| <= DescriptionMaxLength)
      && (d.priority.Some? ==> ParsePriority(d.priority.value).Some?)
      && (d.status.Some? ==> ParseStatus(d.status.value).Some?)
      && (d.syncStatus.Some? ==> ParseSyncStatus(d.syncStatus.value).Some?)
  {
    When(d.description.Some? && |d.description.value| > DescriptionMaxLength,
         TooLong(DescriptionPath, DescriptionMaxLength))
    + When(d.priority.Some? && ParsePriority(d.priority.value).None?, NotInEnum(PriorityPath))
    + When(d.status.Some? && ParseStatus(d.status.value).None?, NotInEnum(StatusPath))
    + When(d.syncStatus.Some? && ParseSyncStatus(d.syncStatus.value).None?, NotInEnum(SyncStatusPath))
  }

  /** The errors of the other required paths: type, due date and owner. */
  function RequiredPathErrors(d: Draft): (errs: set<SchemaError>)
    ensures errs == {} <==>
      && d.taskType.Some? && ParseTaskType(d.taskType.value).Some?
      && d.dueDate.Some?
      && d.userId.Some? && d.userId.value != ""
  {
    When(d.taskType.None? || d.taskType.value == "", Required(TypePath))
    + When(d.taskType.Some? && d.taskType.value != "" && ParseTaskType(d.taskType.value).None?,
           NotInEnum(TypePath))
    + When(d.dueDate.None?, Required(DueDatePath))
    + When(d.userId.None? || d.userId.value == "", Required(UserIdPath))
  }

  /** The conditions under which no path reports an error. */
  predicate AcceptedByAllPaths(d: Draft) {
    && d.title.Some? && 1 <= |Trim(d.title.value)| <= TitleMaxLength
    && (d.description.Some? ==> |d.description.value| <= DescriptionMaxLength)
    && (d.priority.Some? ==> ParsePriority(d.priority.value).Some?)
    && (d.status.Some? ==> ParseStatus(d.status.value).Some?)
    && d.taskType.Some? && ParseTaskType(d.taskType.value).Some?
    && d.dueDate.Some?
    && d.userId.Some? && d.userId.value != ""
    && (d.syncStatus.Some? ==> ParseSyncStatus(d.syncStatus.value).Some?)
  }

  /**
   * A missing required path is reported as such, and an enumerated path
   * holding a value outside its enumeration is reported as such.
   */
  lemma ErrorsReportEachPath(d: Draft)
    ensures d.title.None? ==> Required(TitlePath) in Errors(d)
    ensures d.taskType.None? ==> Required(TypePath) in Errors(d)
    ensures d.dueDate.None? ==> Required(DueDatePath) in Errors(d)
    ensures d.userId.None? ==> Required(UserIdPath) in Errors(d)
    ensures d.title.Some? && |Trim(d.title.value)| > TitleMaxLength ==> TooLong(TitlePath, TitleMaxLength) in Errors(d)
    ensures (d.priority.Some? && forall p :: PriorityName(p) != d.priority.value) ==> NotInEnum(PriorityPath) in Errors(d)
    ensures (d.status.Some? && forall t :: StatusName(t) != d.status.value) ==> NotInEnum(StatusPath) in Errors(d)
    ensures (d.taskType.Some? && d.taskType.value != "" && forall t :: TaskTypeName(t) != d.taskType.value)
            ==> NotInEnum(TypePath) in Errors(d)
  {
  }

  /**
   * Validation with defaults: a document with no errors becomes `Fields`,
   * with `description` defaulting to "", `priority` to medium, `status`
   * to todo, `syncStatus` to synced and `lastSyncedAt` to the current time;
   * any other document is refused with all of its errors.
   */
  function Validate(d: Draft, now: int): (r: Result<Fields, set<SchemaError>>)
    ensures r.Err? <==> !AcceptedByAllPaths(d)
    ensures r.Err? ==> r.error == Errors(d) && r.error != {}
    ensures (d.title.None? || d.taskType.None? || d.dueDate.None? || d.userId.None?) ==> r.Err?
    ensures r.Ok? ==> FieldsValid(r.value)
    ensures r.Ok? ==> d.title.Some? && r.value.title == Trim(d.title.value)
    ensures r.Ok? ==> r.value.description == d.description.GetOr("")
    ensures r.Ok? ==> PriorityName(r.value.priority) == d.priority.GetOr("medium")
    ensures r.Ok? ==> StatusName(r.value.status) == d.status.GetOr("todo")
    ensures r.Ok? ==> d.taskType == Some(TaskTypeName(r.value.taskType))
    ensures r.Ok? ==> d.dueDate == Some(r.value.dueDate) && d.userId == Some(r.value.userId)
    ensures r.Ok? ==> SyncStatusName(r.value.syncStatus) == d.syncStatus.GetOr("synced")
    ensures r.Ok? ==> r.value.lastSyncedAt == d.lastSyncedAt.GetOr(now)
  {
    if !AcceptedByAllPaths(d) then Err(Errors(d))
    else
      var title := Trim(d.title.value);
      Ok(Fields(
        title,
        d.description.GetOr(""),
        if d.priority.Some? then ParsePriority(d.priority.value).value else Medium,
        if d.status.Some? then ParseStatus(d.status.value).value else Todo,
        ParseTaskType(d.taskType.value).value,
        d.dueDate.value,
        d.userId.value,
        if d.syncStatus.Some? then ParseSyncStatus(d.syncStatus.value).value else Synced,
        d.lastSyncedAt.GetOr(now)))
  }

  /** An admitted document written back as a submission (every path present). */
  function ToDraft(f: Fields): Draft {
    Draft(
      Some(f.title), Some(f.description), Some(PriorityName(f.priority)),
      Some(StatusName(f.status)), Some(TaskTypeName(f.taskType)), Some(f.dueDate),
      Some(f.userId), Some(SyncStatusName(f.syncStatus)), Some(f.lastSyncedAt))
  }

  /** The wire name of each enumeration member parses back to that member. */
  lemma NamesParseBack(f: Fields)
    ensures ParsePriority(PriorityName(f.priority)) == Some(f.priority)
    ensures ParseStatus(StatusName(f.status)) == Some(f.status)
    ensures ParseTaskType(TaskTypeName(f.taskType)) == Some(f.taskType)
    ensures ParseSyncStatus(SyncStatusName(f.syncStatus)) == Some(f.syncStatus)
  {
    EnumerationsAreExact();
    match f.syncStatus
    case Synced => case Pending => case Conflicted =>
  }

  /** Re-validating an admitted document gives it back unchanged. */
  lemma ValidateToDraft(f: Fields, now: int)
    requires FieldsValid(f)
    ensures Validate(ToDraft(f), now) == Ok(f)
  {
    var d := ToDraft(f);
    assert AcceptedByAllPaths(d) by {
      TrimOfTrimmed(f.title);
      NamesParseBack(f);
    }
    var g := Validate(d, now).value;
    assert g == f by {
      TrimOfTrimmed(f.title);
      NamesParseBack(f);
      NamesParseBack(g);
    }
  }

  /**
   * An update document spread over an existing one (`{ ...base, ...patch }`
   * path by path): a path the patch carries replaces the old value.
   */
  function Overlay(base: Draft, patch: Draft): (d: Draft)
    ensures d.title == (if patch.title.Some? then patch.title else base.title)
    ensures d.description == (if patch.description.Some? then patch.description else base.description)
    ensures d.priority == (if patch.priority.Some? then patch.priority else base.priority)
    ensures d.status == (if patch.status.Some? then patch.status else base.status)
    ensures d.taskType == (if patch.taskType.Some? then patch.taskType else base.taskType)
    ensures d.dueDate == (if patch.dueDate.Some? then patch.dueDate else base.dueDate)
    ensures d.userId == (if patch.userId.Some? then patch.userId else base.userId)
    ensures d.syncStatus == (if patch.syncStatus.Some? then patch.syncStatus else base.syncStatus)
    ensures d.lastSyncedAt == (if patch.lastSyncedAt.Some? then patch.lastSyncedAt else base.lastSyncedAt)
  {
    Draft(
      Override(base.title, patch.title),
      Override(base.description, patch.description),
      Override(base.priority, patch.priority),
      Override(base.status, patch.status),
      Override(base.taskType, patch.taskType),
      Override(base.dueDate, patch.dueDate),
      Override(base.userId, patch.userId),
      Override(base.syncStatus, patch.syncStatus),
      Override(base.lastSyncedAt, patch.lastSyncedAt))
  }

  /** The empty update document. */
  const NoChanges := Draft(None, None, None, None, None, None, None, None, None)

  /**
   * Updating an admitted document: an empty update changes nothing, and a
   * path the update leaves out keeps its old value.
   */
  lemma OverlayKeepsUntouched(f: Fields, patch: Draft, now: int)
    requires FieldsValid(f)
    ensures Validate(Overlay(ToDraft(f), NoChanges), now) == Ok(f)
    ensures Validate(Overlay(ToDraft(f), patch), now).Ok? ==>
      var g := Validate(Overlay(ToDraft(f), patch), now).value;
      && (patch.description.None? ==> g.description == f.description)
      && (patch.priority.None? ==> g.priority == f.priority)
      && (patch.status.None? ==> g.status == f.status)
      && (patch.taskType.None? ==> g.taskType == f.taskType)
      && (patch.dueDate.None? ==> g.dueDate == f.dueDate)
      && (patch.userId.None? ==> g.userId == f.userId)
      && (patch.title.None? ==> g.title == f.title)
  {
    assert Overlay(ToDraft(f), NoChanges) == ToDraft(f);
    ValidateToDraft(f, now);
    EnumerationsAreExact();
  }
}
