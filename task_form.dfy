/**
 * The task form (src/components/TaskForm.tsx): the field rules the form
 * checks before submitting, the values a new or edited form starts from,
 * and the partial task it hands to its caller.
 *
 * The form's raw values are strings for the two selects and an optional
 * instant for the date picker; the due date is an integer timestamp.
 */
module TaskForm {
  import opened Common
  import opened Lib
  import opened UseTasks

  const FormTitleMaxLength := 100
  const FormDescriptionMaxLength := 1000

  /** What the form holds when it is submitted. */
  datatype FormInput = FormInput(
    title: string,
    description: Option<string>,
    priority: string,
    taskType: string,
    dueDate: Option<int>)

  /** The values the form passes on once every rule holds. */
  datatype FormData = FormData(
    title: string,
    description: string,
    priority: Priority,
    taskType: TaskType,
    dueDate: int)

  /** One failed rule, named after the field it is attached to. */
  datatype FormIssue = TitleRequired | TitleTooLong | DescriptionTooLong | InvalidPriority | InvalidType | DueDateRequired

  /** The message shown under the field; the two select rules use the form library's own wording. */
  function IssueMessage(i: FormIssue): Option<string> {
    match i
    case TitleRequired => Some("Title is required")
    case TitleTooLong => Some("Title too long")
    case DescriptionTooLong => Some("Description too long")
    case InvalidPriority => None
    case InvalidType => None
    case DueDateRequired => Some("Please select a due date")
  }

  function Flag(failed: bool, i: FormIssue): set<FormIssue> {
    if failed then {i} else {}
  }

  /** Every rule the input breaks; all rules are checked, not just the first. */
  function FormIssues(f: FormInput): (issues: set<FormIssue>)
    ensures TitleRequired in issues <==> |f.title| < 1
    ensures TitleTooLong in issues <==> |f.title| > FormTitleMaxLength
    ensures DescriptionTooLong in issues <==> f.description.Some? && |f.description.value| > FormDescriptionMaxLength
    ensures InvalidPriority in issues <==> ParsePriority(f.priority).None?
    ensures InvalidType in issues <==> ParseTaskType(f.taskType).None?
    ensures DueDateRequired in issues <==> f.dueDate.None?
  {
    Flag(|f.title| < 1, TitleRequired)
    + Flag(|f.title| > FormTitleMaxLength, TitleTooLong)
    + Flag(f.description.Some? && |f.description.value| > FormDescriptionMaxLength, DescriptionTooLong)
    + Flag(ParsePriority(f.priority).None?, InvalidPriority)
    + Flag(ParseTaskType(f.taskType).None?, InvalidType)
    + Flag(f.dueDate.None?, DueDateRequired)
  }

  /**
   * `taskSchema`: a title of 1 to 100 characters, a description of at most
   * 1000 characters that defaults to "", a priority and a type that name a
   * member, and a due date that must be picked. On success every value
   * passes through unchanged.
   */
  function ValidateForm(f: FormInput): (r: Result<FormData, set<FormIssue>>)
    ensures r.Ok? <==> FormIssues(f) == {}
    ensures r.Err? ==> r.error == FormIssues(f) && r.error != {}
    ensures r.Ok? ==>
      && r.value.title == f.title && 1 <= |r.value.title| <= FormTitleMaxLength
      && r.value.description == f.description.GetOr("") && |r.value.description| <= FormDescriptionMaxLength
      && PriorityName(r.value.priority) == f.priority && TaskTypeName(r.value.taskType) == f.taskType
      && Some(r.value.dueDate) == f.dueDate
  {
    var issues := FormIssues(f);
    if issues != {} then Err(issues)
    else
      assert ParsePriority(f.priority).Some? && ParseTaskType(f.taskType).Some?;
      Ok(FormData(
        f.title, f.description.GetOr(""), ParsePriority(f.priority).value,
        ParseTaskType(f.taskType).value, f.dueDate.value))
  }

  /**
   * The starting values: an edited task's own title, description,
   * priority, type and due date; for a new task an empty title and
   * description, medium priority, a reminder, due now.
   */
  function FormDefaults(task: Option<Task>, now: int): FormInput {
    match task
    case Some(t) => FormInput(t.title, Some(t.description), PriorityName(t.priority), TaskTypeName(t.taskType), Some(t.dueDate))
    case None => FormInput("", Some(""), PriorityName(Medium), TaskTypeName(Reminder), Some(now))
  }

  /**
   * `handleFormSubmit`: the validated values, the edited task's status (a
   * new task starts as todo), and `updatedAt` set to now. The identifier,
   * the owner and the creation time are not part of it.
   */
  function SubmitPayload(d: FormData, task: Option<Task>, now: int): (p: TaskPatch)
    ensures p.id.None? && p.userId.None? && p.createdAt.None?
    ensures p.title == Some(d.title) && p.description == Some(d.description) && p.dueDate == Some(d.dueDate)
    ensures p.priority == Some(d.priority) && p.taskType == Some(d.taskType)
    ensures p.status == Some(if task.Some? then task.value.status else Todo)
    ensures p.updatedAt == Some(now)
  {
    TaskPatch(
      None, Some(d.title), Some(d.description), Some(d.priority),
      Some(if task.Some? then task.value.status else Todo),
      Some(d.taskType), Some(d.dueDate), None, Some(now), None)
  }

  /** A new form cannot be submitted as it starts: its only broken rule is the empty title. */
  lemma NewFormNeedsTitle(now: int)
    ensures ValidateForm(FormDefaults(None, now)) == Err({TitleRequired})
  {
    assert FormIssues(FormDefaults(None, now)) == {TitleRequired};
  }

  /**
   * Opening a task whose title and description fit the form's limits and
   * submitting it unchanged reproduces the task, apart from the update
   * time, once the update is applied.
   */
  lemma EditUnchangedRoundTrip(t: Task, now: int, later: int)
    requires 1 <= |t.title| <= FormTitleMaxLength && |t.description| <= FormDescriptionMaxLength
    ensures var r := ValidateForm(FormDefaults(Some(t), now));
      && r == Ok(FormData(t.title, t.description, t.priority, t.taskType, t.dueDate))
      && ApplyPatch(t, SubmitPayload(r.value, Some(t), later), later) == t.(updatedAt := later)
  {
    var f := FormDefaults(Some(t), now);
    EnumerationsAreExact();
    assert FormIssues(f) == {};
  }

  /**
   * A new task submitted while offline keeps every value the form
   * accepted: its title is never replaced by the placeholder, and it
   * starts as todo.
   */
  lemma OfflineCreateKeepsFormValues(d: FormData, uuid: string, now: int)
    requires 1 <= |d.title|
    ensures var t := OfflineTask(SubmitPayload(d, None, now), uuid, now);
      && t.title == d.title && t.description == d.description
      && t.priority == d.priority && t.taskType == d.taskType && t.dueDate == d.dueDate
      && t.status == Todo
  {
  }
}
