/**
 * The dashboard page (src/pages/DashboardPage.js): the status filter over
 * the task list, the add/edit dialog's open state, the submit handler that
 * sends the dialog's payload through the task list, and the snackbar.
 */
module Dashboard {
  import opened Text
  import opened ClientTypes
  import TaskSchema
  import TaskContext
  import TaskCard

  const AllFilter := "All"
  const UpdatedMsg := "Task updated successfully!"
  const AddedMsg := "Task added successfully!"
  const SaveFailedMsg := "Failed to save task. Please try again."

  /** The dashboard renders its cards without an `onDelete` prop. */
  const PassesOnDelete := false

  /** `tasks.filter(task => task.status === status)`. */
  function WithStatus(tasks: seq<ClientTask>, status: string): (r: seq<ClientTask>)
    ensures |r| <= |tasks|
    ensures forall t :: t in r <==> t in tasks && t.status == status
  {
    if tasks == [] then []
    else if tasks[0].status == status then [tasks[0]] + WithStatus(tasks[1..], status)
    else WithStatus(tasks[1..], status)
  }

  /** The filter keeps the kept tasks in their order: it distributes over concatenation. */
  lemma {:induction false} WithStatusAppend(a: seq<ClientTask>, b: seq<ClientTask>, status: string)
    ensures WithStatus(a + b, status) == WithStatus(a, status) + WithStatus(b, status)
  {
    if a != [] {
      assert (a + b)[1..] == a[1..] + b;
      WithStatusAppend(a[1..], b, status);
    } else {
      assert a + b == b;
    }
  }

  /**
   * The three status filters split a list of stored tasks: every task
   * shows under exactly one of them, so their sizes add up to the list's.
   */
  lemma {:induction false} StatusFiltersPartition(tasks: seq<ClientTask>)
    requires forall t | t in tasks :: t.status in TaskSchema.Statuses
    ensures |WithStatus(tasks, "Todo")| + |WithStatus(tasks, "In Progress")| + |WithStatus(tasks, "Done")| == |tasks|
  {
    if tasks != [] {
      var rest := tasks[1..];
      assert forall t | t in rest :: t in tasks;
      StatusFiltersPartition(rest);
      var s := tasks[0].status;
      assert s in TaskSchema.Statuses by { assert tasks[0] in tasks; }
      assert |WithStatus(tasks, "Todo")| == |WithStatus(rest, "Todo")| + (if s == "Todo" then 1 else 0);
      assert |WithStatus(tasks, "In Progress")| == |WithStatus(rest, "In Progress")| + (if s == "In Progress" then 1 else 0);
      assert |WithStatus(tasks, "Done")| == |WithStatus(rest, "Done")| + (if s == "Done" then 1 else 0);
    }
  }

  /** The effect on `[tasks, statusFilter]`: `All` shows every task, any other choice only the tasks with that status. */
  function FilterByStatus(tasks: seq<ClientTask>, statusFilter: string): (r: seq<ClientTask>)
    ensures statusFilter == AllFilter ==> r == tasks
    ensures statusFilter != AllFilter ==> r == WithStatus(tasks, statusFilter)
  {
    if statusFilter != AllFilter then WithStatus(tasks, statusFilter) else tasks
  }

  /** Where a submit goes. */
  datatype Target = UpdateById(taskId: string) | Add

  /** `editingTask && editingTask.id ? updateTask(editingTask.id, ...) : addTask(...)`. */
  function SubmitTarget(editingTask: Option<ClientTask>): (t: Target)
    ensures t.UpdateById? <==> editingTask.Some? && Given(editingTask.value.id)
    ensures t.UpdateById? ==> t.taskId == editingTask.value.id.value
  {
    if editingTask.Some? && Given(editingTask.value.id) then UpdateById(editingTask.value.id.value) else Add
  }

  /**
   * A task as the API returns it has no `id`, so editing it is submitted
   * as an addition.
   */
  lemma EditingServerTaskAdds(d: TaskSchema.TaskDoc)
    ensures SubmitTarget(Some(FromServer(d))) == Add
  {
  }

  class DashboardState {
    var isModalOpen: bool
    var editingTask: Option<ClientTask>
    var formSubmitting: bool
    var formError: string
    var snackbar: Snackbar
    var statusFilter: string
    var filteredTasks: seq<ClientTask>

    /** The initial `useState` values. */
    constructor ()
      ensures !isModalOpen && editingTask.None? && !formSubmitting && formError == ""
      ensures snackbar == Snackbar(false, "", "info") && statusFilter == AllFilter && filteredTasks == []
    {
      isModalOpen := false;
      editingTask := None;
      formSubmitting := false;
      formError := "";
      snackbar := Snackbar(false, "", "info");
      statusFilter := AllFilter;
      filteredTasks := [];
    }

    /** The effect on `[tasks, statusFilter]`. */
    method RefreshFilter(tasks: seq<ClientTask>)
      modifies this
      ensures filteredTasks == FilterByStatus(tasks, statusFilter)
      ensures isModalOpen == old(isModalOpen) && editingTask == old(editingTask) && formSubmitting == old(formSubmitting)
      ensures formError == old(formError) && snackbar == old(snackbar) && statusFilter == old(statusFilter)
    {
      var current := tasks;
      if statusFilter != AllFilter {
        current := WithStatus(tasks, statusFilter);
      }
      filteredTasks := current;
    }

    /** The effect on `[taskError]`: a task-list error opens an error snackbar. */
    method ShowTaskError(taskError: Option<string>)
      modifies this
      ensures Given(taskError) ==> snackbar == Snackbar(true, taskError.value, "error")
      ensures !Given(taskError) ==> snackbar == old(snackbar)
      ensures isModalOpen == old(isModalOpen) && editingTask == old(editingTask) && formSubmitting == old(formSubmitting)
      ensures formError == old(formError) && statusFilter == old(statusFilter) && filteredTasks == old(filteredTasks)
    {
      if Given(taskError) {
        snackbar := Snackbar(true, taskError.value, "error");
      }
    }

    /** `handleOpenModal(task)`: open the dialog on `task`, or empty for a new task. */
    method HandleOpenModal(task: Option<ClientTask>)
      modifies this
      ensures isModalOpen && editingTask == task && formError == ""
      ensures formSubmitting == old(formSubmitting) && snackbar == old(snackbar)
      ensures statusFilter == old(statusFilter) && filteredTasks == old(filteredTasks)
    {
      editingTask := task;
      formError := "";
      isModalOpen := true;
    }

    /** `handleCloseModal`. */
    method HandleCloseModal()
      modifies this
      ensures !isModalOpen && editingTask.None? && formError == ""
      ensures formSubmitting == old(formSubmitting) && snackbar == old(snackbar)
      ensures statusFilter == old(statusFilter) && filteredTasks == old(filteredTasks)
    {
      isModalOpen := false;
      editingTask := None;
      formError := "";
    }

    /**
     * `handleTaskSubmit`: send the payload as an update or an addition;
     * success closes the dialog and reports in the snackbar, failure keeps
     * the dialog open with the error's message.
     */
    method HandleTaskSubmit(ctx: TaskContext.TaskProvider, isAuthenticated: bool, data: TaskPayload, reply: Api<ClientTask>)
      modifies this, ctx
      ensures !formSubmitting
      ensures statusFilter == old(statusFilter) && filteredTasks == old(filteredTasks)
      ensures ctx.loadingTasks == old(ctx.loadingTasks)
      ensures isAuthenticated ==> ctx.requests == old(ctx.requests) + [
        match SubmitTarget(old(editingTask))
        case UpdateById(id) => UpdateTaskById(id, data)
        case Add => CreateTask(data)]
      ensures !isAuthenticated ==> ctx.requests == old(ctx.requests) && ctx.tasks == old(ctx.tasks)
      ensures isAuthenticated && reply.Ok? ==>
        && !isModalOpen && editingTask.None? && formError == ""
        && match SubmitTarget(old(editingTask))
           case UpdateById(id) =>
             ctx.tasks == TaskContext.ReplacedById(old(ctx.tasks), id, reply.data) && snackbar == Snackbar(true, UpdatedMsg, "success")
           case Add =>
             ctx.tasks == old(ctx.tasks) + [reply.data] && snackbar == Snackbar(true, AddedMsg, "success")
      ensures !(isAuthenticated && reply.Ok?) ==>
        && isModalOpen == old(isModalOpen) && editingTask == old(editingTask) && snackbar == old(snackbar)
        && ctx.tasks == old(ctx.tasks)
      ensures !isAuthenticated ==> formError == TaskContext.NotAuthenticatedMsg
      ensures isAuthenticated && reply.Fail? ==>
        var fallback := if SubmitTarget(old(editingTask)).Add? then TaskContext.AddFailedMsg else TaskContext.UpdateFailedMsg;
        formError == OrElse(reply.err.serverMsg, fallback) && ctx.error == Some(formError)
    {
      formSubmitting := true;
      formError := "";
      var outcome: Outcome<ClientTask>;
      var successMsg: string;
      match SubmitTarget(editingTask) {
        case UpdateById(id) =>
          outcome := ctx.UpdateTask(isAuthenticated, id, data, reply);
          successMsg := UpdatedMsg;
        case Add =>
          outcome := ctx.AddTask(isAuthenticated, data, reply);
          successMsg := AddedMsg;
      }
      match outcome {
        case Returned(_) =>
          snackbar := Snackbar(true, successMsg, "success");
          HandleCloseModal();
        case Threw(error) =>
          formError := if error.message != "" then error.message else SaveFailedMsg;
      }
      formSubmitting := false;
    }

    /** `handleCloseSnackbar`: a click away leaves the snackbar open; any other reason closes it. */
    method HandleCloseSnackbar(reason: Option<string>)
      modifies this
      ensures reason == Some("clickaway") ==> snackbar == old(snackbar)
      ensures reason != Some("clickaway") ==> snackbar == old(snackbar).(open := false)
      ensures isModalOpen == old(isModalOpen) && editingTask == old(editingTask) && formSubmitting == old(formSubmitting)
      ensures formError == old(formError) && statusFilter == old(statusFilter) && filteredTasks == old(filteredTasks)
    {
      if reason == Some("clickaway") {
        return;
      }
      snackbar := snackbar.(open := false);
    }
  }

  /**
   * Editing a task the list loaded from the server and saving it adds a
   * second task instead of changing the first: the list grows by the
   * server's reply and the original stays in place.
   */
  method EditListedTask(d: TaskSchema.TaskDoc, data: TaskPayload, created: ClientTask)
    returns (before: seq<ClientTask>, after: seq<ClientTask>, sent: seq<Request>)
    ensures before == [FromServer(d)]
    ensures after == [FromServer(d), created]
    ensures sent == [FetchTasks, CreateTask(data)]
  {
    var ctx := new TaskContext.TaskProvider();
    ctx.LoadTasks(true, Ok([FromServer(d)]));
    before := ctx.tasks;
    var page := new DashboardState();
    page.HandleOpenModal(Some(FromServer(d)));
    page.HandleTaskSubmit(ctx, true, data, Ok(created));
    after := ctx.tasks;
    sent := ctx.requests;
  }

  /**
   * Deleting from a dashboard card never reaches the task list: the card
   * calls the `onDelete` prop the dashboard does not pass, whatever the
   * user would have answered.
   */
  method DeleteFromCard(tasks: seq<ClientTask>, task: ClientTask, confirmed: bool, reply: Api<()>)
    returns (result: TaskCard.DeleteResult, after: seq<ClientTask>, sent: seq<Request>)
    ensures result == TaskCard.TypeErrorThrown
    ensures after == tasks && sent == [FetchTasks]
  {
    var ctx := new TaskContext.TaskProvider();
    ctx.LoadTasks(true, Ok(tasks));
    var card := new TaskCard.CardState();
    result := card.HandleDelete(ctx, true, task, PassesOnDelete, confirmed, reply);
    after := ctx.tasks;
    sent := ctx.requests;
  }
}
