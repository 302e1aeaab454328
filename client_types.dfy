/**
 * The values the React client passes around: tasks and users as the API
 * returns them, the payload the task form sends, the requests the client
 * issues, the errors its handlers catch and throw, and the snackbar the
 * dashboard shows. API replies are inputs: the model does not run the server.
 */
module ClientTypes {
  import opened Text
  import TaskSchema

  /**
   * A task as the client holds it. `dbId` is the document's `_id`; `id` is
   * the `id` field a task object may carry, which the API's JSON never does.
   */
  datatype ClientTask = ClientTask(
    dbId: string,
    id: Option<string>,
    title: string,
    description: string,
    status: string,
    priority: string,
    dueDate: Option<string>,
    assigneeEmail: Option<string>)

  /** The JSON the server sends for a stored task: every field, and no `id`. */
  function FromServer(d: TaskSchema.TaskDoc): (t: ClientTask)
    ensures t.dbId == d.id && t.id.None?
    ensures t.title == d.title && t.description == d.description && t.status == d.status && t.priority == d.priority
    ensures t.dueDate == d.dueDate && t.assigneeEmail == d.assigneeEmail
  {
    ClientTask(d.id, None, d.title, d.description, d.status, d.priority, d.dueDate, d.assigneeEmail)
  }

  /** The body the task form hands to `onSubmit`. */
  datatype TaskPayload = TaskPayload(
    title: string,
    description: string,
    status: string,
    priority: string,
    dueDate: Option<string>,
    assigneeEmail: Option<string>)

  /** The user object of an auth reply: `{ id, name, email }`. */
  datatype SessionUser = SessionUser(id: string, name: string, email: string)

  /** `response.data` of a successful register or login. */
  datatype AuthReply = AuthReply(token: string, user: SessionUser)

  /** The requests the client sends, one constructor per helper of the API client. */
  datatype Request =
    | FetchTasks
    | CreateTask(payload: TaskPayload)
    | UpdateTaskById(taskId: string, payload: TaskPayload)
    | DeleteTaskById(taskId: string)
    | RegisterUser(name: string, email: string, password: string)
    | LoginUser(email: string, password: string)
    | ChangePassword(currentPassword: string, newPassword: string)

  /**
   * A caught error: `serverMsg` is `err.response?.data?.msg` (None when the
   * error has no response), `message` is `err.message`.
   */
  datatype JsError = JsError(serverMsg: Option<string>, message: string)

  /** How an API call settles: the reply's `data`, or the rejection. */
  datatype Api<T> = Ok(data: T) | Fail(err: JsError)

  /** How an async handler settles: with a value, or by throwing. */
  datatype Outcome<T> = Returned(value: T) | Threw(error: JsError)

  /** `new Error(msg)`: an error with that message and no response. */
  function Raised(msg: string): (e: JsError)
    ensures e.serverMsg.None? && e.message == msg
  {
    JsError(None, msg)
  }

  /** `err.response?.data?.msg || err.message || fallback`, the pages' error text. */
  function Describe(err: JsError, fallback: string): (r: string)
    ensures Given(err.serverMsg) ==> r == err.serverMsg.value
    ensures !Given(err.serverMsg) && err.message != "" ==> r == err.message
    ensures !Given(err.serverMsg) && err.message == "" ==> r == fallback
    ensures r != "" || fallback == ""
  {
    OrElse(err.serverMsg, if err.message != "" then err.message else fallback)
  }

  /**
   * The check both password forms make before calling the API, in order:
   * the password typed twice the same, then its length.
   */
  function PasswordFormError(password: string, confirm: string, minLength: nat, mismatchMsg: string, tooShortMsg: string): (err: Option<string>)
    ensures err.None? <==> password == confirm && |password| >= minLength
    ensures password != confirm ==> err == Some(mismatchMsg)
    ensures password == confirm && |password| < minLength ==> err == Some(tooShortMsg)
  {
    if password != confirm then Some(mismatchMsg)
    else if |password| < minLength then Some(tooShortMsg)
    else None
  }

  /** The dashboard's snackbar state `{ open, message, severity }`; the severity is MUI's name for it. */
  datatype Snackbar = Snackbar(open: bool, message: string, severity: string)
}
