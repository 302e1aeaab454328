/**
 * The add/edit task dialog (src/components/TaskFormModal.js): the form's
 * state, the effect that loads it from the task being edited, and the
 * submit handler that checks the title and builds the payload. A date is
 * kept as its ISO text; whether `new Date(...)` accepts the stored due
 * date is an input.
 */
module TaskFormModal {
  import opened Text
  import opened ObjectId
  import opened Jwt
  import opened ClientTypes
  import TaskSchema
  import TaskRoutes

  const TitleRequiredMsg := "Title is required."
  const FormStatuses: seq<string> := ["Todo", "In Progress", "Done"]
  const FormPriorities: seq<string> := ["Low", "Medium", "High"]
  const DefaultStatus := "Todo"
  const DefaultPriority := "Medium"

  /** `assigneeEmail.trim() || null`. */
  function AssigneeValue(s: string): (r: Option<string>)
    ensures r.None? <==> AllSpace(s)
    ensures r.Some? ==> r.value == Trim(s) && !AllSpace(r.value)
  {
    TrimEmptyIffBlank(s);
    var t := Trim(s);
    if t != "" then (TrimIdempotent(s); TrimEmptyIffBlank(t); Some(t)) else None
  }

  /**
   * The JSON body the server receives for a payload: every form field is
   * present, and a `null` date or assignee arrives as the absent value the
   * create handler turns into `null`.
   */
  function CreateBody(p: TaskPayload): (f: TaskSchema.TaskFields)
    ensures f.title == Some(p.title) && f.description == Some(p.description)
    ensures f.status == Some(p.status) && f.priority == Some(p.priority)
    ensures f.dueDate == p.dueDate && f.assigneeEmail == p.assigneeEmail
  {
    TaskSchema.TaskFields(Some(p.title), Some(p.description), Some(p.status), Some(p.priority), p.dueDate, p.assigneeEmail)
  }

  /** The dialog's choice lists are exactly the schema's enum values. */
  lemma FormChoicesMatchSchema()
    ensures FormStatuses == TaskSchema.Statuses && FormPriorities == TaskSchema.Priorities
    ensures DefaultStatus == TaskSchema.DefaultStatus && DefaultPriority == TaskSchema.DefaultPriority
  {
  }

  /**
   * What the dialog lets through, the server saves: a title with a
   * non-white-space character and a status and priority from the dialog's
   * lists make a task that passes every validator, for any signed-in
   * caller whose token names a well-formed id and an email. The date the
   * dialog sends is `toISOString()` text, which the server's `Date` cast
   * accepts; `castsToDate` is that cast.
   */
  lemma SubmittedTaskSaves(caller: Claims, p: TaskPayload, newId: string, now: nat, castsToDate: string -> bool)
    requires !AllSpace(p.title) && p.status in FormStatuses && p.priority in FormPriorities
    requires WellFormedId(caller.id) && caller.email != ""
    requires p.dueDate.None? || castsToDate(p.dueDate.value)
    ensures Given(CreateBody(p).title)
    ensures TaskSchema.Conforms(TaskRoutes.NewTask(caller, CreateBody(p), newId, now), castsToDate)
  {
    var body := CreateBody(p);
    var f := body.(dueDate := TaskRoutes.DueDateValue(body.dueDate));
    TaskSchema.BuildConformsIff(newId, caller.id, caller.email, f, now, castsToDate);
  }

  /** The dialog's state: its seven fields and the local error line. */
  class TaskForm {
    var title: string
    var description: string
    var status: string
    var priority: string
    var dueDate: Option<string>
    var assigneeEmail: string
    var localFormError: string

    /** The initial `useState` values. */
    constructor ()
      ensures title == "" && description == "" && status == DefaultStatus && priority == DefaultPriority
      ensures dueDate.None? && assigneeEmail == "" && localFormError == ""
    {
      title := "";
      description := "";
      status := DefaultStatus;
      priority := DefaultPriority;
      dueDate := None;
      assigneeEmail := "";
      localFormError := "";
    }

    /** The payload `handleSubmit` builds from the current state. */
    function Payload(): (p: TaskPayload)
      reads this
      ensures p.title == title && p.description == description && p.status == status && p.priority == priority
      ensures p.dueDate == dueDate
      ensures p.assigneeEmail == AssigneeValue(assigneeEmail)
    {
      TaskPayload(title, description, status, priority, dueDate, AssigneeValue(assigneeEmail))
    }

    /**
     * The effect on `[initialTask, open]`: opening clears the local error;
     * the fields load from the task being edited, each falling back to its
     * default, or all reset when there is none.
     */
    method Initialise(open: bool, initialTask: Option<ClientTask>, dueDateParses: bool)
      modifies this
      ensures open ==> localFormError == ""
      ensures !open ==> localFormError == old(localFormError)
      ensures initialTask.None? ==>
        title == "" && description == "" && status == DefaultStatus && priority == DefaultPriority
        && dueDate.None? && assigneeEmail == ""
      ensures initialTask.Some? ==>
        var t := initialTask.value;
        && title == t.title && description == t.description
        && status == OrElse(Some(t.status), DefaultStatus) && priority == OrElse(Some(t.priority), DefaultPriority)
        && dueDate == (if Given(t.dueDate) && dueDateParses then t.dueDate else None)
        && assigneeEmail == OrElse(t.assigneeEmail, "")
    {
      if open {
        localFormError := "";
      }
      match initialTask {
        case Some(t) =>
          title := OrElse(Some(t.title), "");
          description := OrElse(Some(t.description), "");
          status := OrElse(Some(t.status), DefaultStatus);
          priority := OrElse(Some(t.priority), DefaultPriority);
          if Given(t.dueDate) {
            if dueDateParses {
              dueDate := t.dueDate;
            } else {
              dueDate := None;
            }
          } else {
            dueDate := None;
          }
          assigneeEmail := OrElse(t.assigneeEmail, "");
        case None =>
          title := "";
          description := "";
          status := DefaultStatus;
          priority := DefaultPriority;
          dueDate := None;
          assigneeEmail := "";
      }
    }

    /**
     * `handleSubmit`: a blank title sets the error and sends nothing; otherwise
     * the payload goes to `onSubmit`. The test `!title.trim()` is `AllSpace(title)`
     * by `TrimEmptyIffBlank`.
     */
    method HandleSubmit() returns (sent: Option<TaskPayload>)
      modifies this
      ensures AllSpace(title) ==> sent.None? && localFormError == TitleRequiredMsg
      ensures !AllSpace(title) ==> sent == Some(Payload()) && localFormError == ""
      ensures title == old(title) && description == old(description) && status == old(status)
      ensures priority == old(priority) && dueDate == old(dueDate) && assigneeEmail == old(assigneeEmail)
    {
      localFormError := "";
      if AllSpace(title) {
        localFormError := TitleRequiredMsg;
        return None;
      }
      sent := Some(Payload());
    }
  }

  /**
   * Editing a stored task and submitting it untouched sends the task's own
   * title, description, status and priority, and its assignee when that
   * was stored trimmed and non-blank.
   */
  method EditUnchanged(t: ClientTask, dueDateParses: bool) returns (sent: Option<TaskPayload>)
    requires !AllSpace(t.title) && t.status != "" && t.priority != ""
    ensures sent.Some?
    ensures sent.value.title == t.title && sent.value.description == t.description
    ensures sent.value.status == t.status && sent.value.priority == t.priority
    ensures t.assigneeEmail.Some? && !AllSpace(t.assigneeEmail.value) && Trim(t.assigneeEmail.value) == t.assigneeEmail.value ==>
      sent.value.assigneeEmail == t.assigneeEmail
    ensures dueDateParses ==> sent.value.dueDate == (if Given(t.dueDate) then t.dueDate else None)
  {
    var form := new TaskForm();
    form.Initialise(true, Some(t), dueDateParses);
    assert form.title == t.title && form.status == t.status && form.priority == t.priority;
    ghost var assignee := form.assigneeEmail;
    sent := form.HandleSubmit();
    assert sent == Some(TaskPayload(t.title, t.description, t.status, t.priority, form.dueDate, AssigneeValue(assignee)));
    if t.assigneeEmail.Some? && !AllSpace(t.assigneeEmail.value) && Trim(t.assigneeEmail.value) == t.assigneeEmail.value {
      assert assignee == t.assigneeEmail.value;
    }
  }
}
