/**
 * One task on the dashboard (src/components/TaskCard.js): the chip
 * colours for status and priority, the due-date line, and the delete
 * handler. Whether the user confirms is an input; `onDelete` is the
 * optional callback prop, which the model records only as present or not.
 */
module TaskCard {
  import opened Text
  import opened ClientTypes
  import TaskSchema
  import TaskContext

  const NoDueDateText := "No due date"
  const DeletedMsg := "Task deleted successfully!"
  /**
   * The card's own fallback for a failed delete. It never shows: the task
   * list's delete always throws an error with a non-empty message (see
   * `CardState.HandleDelete`).
   */
  const CardDeleteFailedMsg := "Failed to delete task."

  /** The MUI colour names the card's chips use. */
  datatype ChipColor = Default | Primary | Success | Error | Warning | Info

  datatype Chip = Chip(text: string, color: ChipColor)

  /** `getStatusColor`: matched on the lower-cased status; anything else, or no status, is `info`. */
  function StatusColor(status: Option<string>): (c: ChipColor)
    ensures c == Default <==> status.Some? && ToLower(status.value) == "todo"
    ensures c == Primary <==> status.Some? && ToLower(status.value) == "in progress"
    ensures c == Success <==> status.Some? && ToLower(status.value) == "done"
    ensures c == Info <==> status.None? || ToLower(status.value) !in {"todo", "in progress", "done"}
  {
    if status.None? then Info
    else
      var s := ToLower(status.value);
      if s == "todo" then Default
      else if s == "in progress" then Primary
      else if s == "done" then Success
      else Info
  }

  /** `getPriorityChipProps`: the three levels in any letter case get their canonical label and colour. */
  function PriorityChip(priority: Option<string>): (c: Chip)
    ensures priority.Some? && ToLower(priority.value) == "high" ==> c == Chip("High", Error)
    ensures priority.Some? && ToLower(priority.value) == "medium" ==> c == Chip("Medium", Warning)
    ensures priority.Some? && ToLower(priority.value) == "low" ==> c == Chip("Low", Success)
    ensures priority.None? || ToLower(priority.value) !in {"high", "medium", "low"} ==>
      c == Chip(OrElse(priority, "N/A"), Default)
  {
    if priority.None? then Chip("N/A", Default)
    else
      var p := ToLower(priority.value);
      if p == "high" then Chip("High", Error)
      else if p == "medium" then Chip("Medium", Warning)
      else if p == "low" then Chip("Low", Success)
      else Chip(OrElse(priority, "N/A"), Default)
  }

  /** Every status a task can be stored with gets its own colour; none falls through to `info`. */
  lemma StoredStatusColors()
    ensures StatusColor(Some("Todo")) == Default
    ensures StatusColor(Some("In Progress")) == Primary
    ensures StatusColor(Some("Done")) == Success
    ensures forall s | s in TaskSchema.Statuses :: StatusColor(Some(s)) != Info
  {
    LowerCased("Todo", "todo");
    LowerCased("In Progress", "in progress");
    LowerCased("Done", "done");
  }

  /** Every priority a task can be stored with keeps its own name as the chip's label and gets a colour of its own. */
  lemma StoredPriorityChips()
    ensures forall p | p in TaskSchema.Priorities :: PriorityChip(Some(p)).text == p && PriorityChip(Some(p)).color != Default
  {
    LowerCased("High", "high");
    LowerCased("Medium", "medium");
    LowerCased("Low", "low");
  }

  /** `ToLower` agrees with a letter-by-letter lower-casing. */
  lemma LowerCased(word: string, lower: string)
    requires |word| == |lower|
    requires forall i :: 0 <= i < |word| ==> LowerChar(word[i]) == lower[i]
    ensures ToLower(word) == lower
  {
  }

  /** The due-date line: the formatted date when there is one, otherwise "No due date". */
  function DueDateLine(dueDate: Option<string>, format: string -> string): (line: string)
    ensures !Given(dueDate) ==> line == NoDueDateText
    ensures Given(dueDate) ==> line == format(dueDate.value)
  {
    if Given(dueDate) then format(dueDate.value) else NoDueDateText
  }

  /**
   * How a click on the delete button ends: with a TypeError when `onDelete`
   * is not a function, with nothing when the user declines, or with a
   * snackbar reporting the deletion.
   */
  datatype DeleteResult = TypeErrorThrown | Cancelled | Reported(snackbar: Snackbar)

  class CardState {
    var isDeleting: bool

    constructor ()
      ensures !isDeleting
    {
      isDeleting := false;
    }

    /**
     * `handleDelete`: call `onDelete`, ask for confirmation, and only then
     * delete through the task list and report the result in the snackbar;
     * `isDeleting` is reset however the deletion ends.
     */
    method HandleDelete(ctx: TaskContext.TaskProvider, isAuthenticated: bool, task: ClientTask,
                        onDeleteGiven: bool, confirmed: bool, reply: Api<()>) returns (result: DeleteResult)
      modifies this, ctx
      ensures !onDeleteGiven ==> result == TypeErrorThrown && isDeleting == old(isDeleting)
      ensures onDeleteGiven && !confirmed ==> result == Cancelled && isDeleting == old(isDeleting)
      ensures !(onDeleteGiven && confirmed) ==>
        ctx.tasks == old(ctx.tasks) && ctx.error == old(ctx.error) && ctx.requests == old(ctx.requests)
      ensures onDeleteGiven && confirmed ==> !isDeleting && result.Reported?
      ensures onDeleteGiven && confirmed && isAuthenticated ==>
        ctx.requests == old(ctx.requests) + [DeleteTaskById(task.dbId)]
      ensures onDeleteGiven && confirmed && isAuthenticated && reply.Ok? ==>
        ctx.tasks == TaskContext.RemovedById(old(ctx.tasks), task.dbId)
        && result == Reported(Snackbar(true, DeletedMsg, "success"))
      ensures onDeleteGiven && confirmed && !(isAuthenticated && reply.Ok?) ==> ctx.tasks == old(ctx.tasks)
      ensures onDeleteGiven && confirmed && !isAuthenticated ==>
        result == Reported(Snackbar(true, TaskContext.NotAuthenticatedMsg, "error"))
      ensures onDeleteGiven && confirmed && isAuthenticated && reply.Fail? ==>
        && result == Reported(Snackbar(true, OrElse(reply.err.serverMsg, TaskContext.DeleteFailedMsg), "error"))
        && ctx.error == Some(result.snackbar.message)
      ensures ctx.loadingTasks == old(ctx.loadingTasks)
    {
      if !onDeleteGiven {
        return TypeErrorThrown;
      }
      if !confirmed {
        return Cancelled;
      }
      isDeleting := true;
      var outcome := ctx.DeleteTask(isAuthenticated, task.dbId, reply);
      match outcome {
        case Returned(_) =>
          result := Reported(Snackbar(true, DeletedMsg, "success"));
        case Threw(e) =>
          result := Reported(Snackbar(true, if e.message != "" then e.message else CardDeleteFailedMsg, "error"));
      }
      isDeleting := false;
    }
  }
}
