/**
 * The task document schema (server/models/Task.js): its fields, the
 * defaults the schema fills in, the trim setters, the required and enum
 * validators, and the `pre('save')` hook that stamps `updatedAt`.
 */
module TaskSchema {
  import opened Text
  import opened ObjectId

  const Statuses: seq<string> := ["Todo", "In Progress", "Done"]
  const Priorities: seq<string> := ["Low", "Medium", "High"]
  const DefaultStatus := "Todo"
  const DefaultPriority := "Medium"

  /**
   * A task document as stored. `user` is the owner's id, `dueDate` an opaque
   * date value (None is `null`), times are milliseconds.
   */
  datatype TaskDoc = TaskDoc(
    id: string,
    user: string,
    creatorEmail: string,
    title: string,
    description: string,
    status: string,
    priority: string,
    dueDate: Option<string>,
    assigneeEmail: Option<string>,
    createdAt: nat,
    updatedAt: nat)

  /**
   * The editable fields of a task as they arrive in a request body or are
   * handed to the model; None is `undefined`.
   */
  datatype TaskFields = TaskFields(
    title: Option<string>,
    description: Option<string>,
    status: Option<string>,
    priority: Option<string>,
    dueDate: Option<string>,
    assigneeEmail: Option<string>)

  /**
   * `new Task({...})` at time `now`: the trim setters run on the string
   * fields, the defaults fill the fields left `undefined`, and both
   * timestamps default to `now`. A missing title is kept as the empty
   * string, which `required` rejects just as it rejects `undefined`.
   */
  function Build(id: string, user: string, creatorEmail: string, f: TaskFields, now: nat): (d: TaskDoc)
    ensures d.id == id && d.user == user && d.creatorEmail == creatorEmail
    ensures d.title == Trim(f.title.GetOr(""))
    ensures d.description == (if f.description.Some? then Trim(f.description.value) else "")
    ensures d.status == f.status.GetOr(DefaultStatus) && d.priority == f.priority.GetOr(DefaultPriority)
    ensures d.dueDate == f.dueDate
    ensures d.assigneeEmail == (if f.assigneeEmail.Some? then Some(Trim(f.assigneeEmail.value)) else None)
    ensures d.createdAt == now && d.updatedAt == now
  {
    TaskDoc(
      id, user, creatorEmail,
      Trim(f.title.GetOr("")),
      if f.description.Some? then Trim(f.description.value) else "",
      f.status.GetOr(DefaultStatus),
      f.priority.GetOr(DefaultPriority),
      f.dueDate,
      if f.assigneeEmail.Some? then Some(Trim(f.assigneeEmail.value)) else None,
      now, now)
  }

  /**
   * The paths whose validators fail: `user` must cast to an ObjectId,
   * `creatorEmail` and `title` are required (the empty string fails),
   * `status`/`priority` must be one of their enum values, and a due date
   * must cast to a valid `Date`. `castsToDate(s)` says whether `new Date(s)`
   * is a valid date; date parsing itself is not modelled.
   */
  function ValidationErrors(d: TaskDoc, castsToDate: string -> bool): (errs: set<string>)
    ensures errs <= {"user", "creatorEmail", "title", "status", "priority", "dueDate"}
    ensures errs == {} <==> Conforms(d, castsToDate)
    ensures "dueDate" in errs <==> d.dueDate.Some? && !castsToDate(d.dueDate.value)
  {
    (if WellFormedId(d.user) then {} else {"user"})
    + (if d.creatorEmail != "" then {} else {"creatorEmail"})
    + (if d.title != "" then {} else {"title"})
    + (if d.status in Statuses then {} else {"status"})
    + (if d.priority in Priorities then {} else {"priority"})
    + (if d.dueDate.None? || castsToDate(d.dueDate.value) then {} else {"dueDate"})
  }

  /** What every saved task satisfies. */
  predicate Conforms(d: TaskDoc, castsToDate: string -> bool) {
    && WellFormedId(d.user)
    && d.creatorEmail != ""
    && d.title != ""
    && d.status in Statuses
    && d.priority in Priorities
    && (d.dueDate.None? || castsToDate(d.dueDate.value))
  }

  /** The `pre('save')` hook: every save stamps `updatedAt` with the current time. */
  function PreSave(d: TaskDoc, now: nat): (r: TaskDoc)
    ensures r.updatedAt == now
    ensures r.(updatedAt := d.updatedAt) == d
  {
    d.(updatedAt := now)
  }

  /**
   * A freshly built task saves exactly when its owner id is well formed,
   * the creator email is non-empty, the title has a non-white-space
   * character, any status or priority supplied is one of the enum
   * values (an omitted one takes its default, which always is), and any
   * due date casts to a date.
   */
  lemma BuildConformsIff(id: string, user: string, creatorEmail: string, f: TaskFields, now: nat, castsToDate: string -> bool)
    ensures Conforms(Build(id, user, creatorEmail, f, now), castsToDate) <==>
      && WellFormedId(user)
      && creatorEmail != ""
      && f.title.Some? && !AllSpace(f.title.value)
      && (f.status.None? || f.status.value in Statuses)
      && (f.priority.None? || f.priority.value in Priorities)
      && (f.dueDate.None? || castsToDate(f.dueDate.value))
  {
    TrimEmptyIffBlank(f.title.GetOr(""));
    assert DefaultStatus in Statuses && DefaultPriority in Priorities;
  }

  /** A title that is only white space is cut to nothing by `trim` and so fails `required`. */
  lemma BlankTitleFails(d: TaskDoc, title: string, castsToDate: string -> bool)
    requires AllSpace(title)
    ensures "title" in ValidationErrors(d.(title := Trim(title)), castsToDate)
  {
    TrimEmptyIffBlank(title);
  }
}
