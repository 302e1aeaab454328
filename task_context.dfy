/**
 * The client's task list (src/context/TaskContext.js): the provider's
 * `tasks`, `loadingTasks` and `error` state, and the list updates that
 * load, add, update and delete make. Whether the user is authenticated and
 * how each API call settles are inputs.
 */
module TaskContext {
  import opened Text
  import opened ClientTypes

  const NotAuthenticatedMsg := "User not authenticated"
  const FetchFailedMsg := "Failed to fetch tasks"
  const AddFailedMsg := "Failed to add task"
  const UpdateFailedMsg := "Failed to update task"
  const DeleteFailedMsg := "Failed to delete task"

  /** `prevTasks.map(task => task._id === taskId ? updated : task)`. */
  function ReplacedById(s: seq<ClientTask>, taskId: string, updated: ClientTask): (r: seq<ClientTask>)
    ensures |r| == |s|
    ensures forall i :: 0 <= i < |s| && s[i].dbId != taskId ==> r[i] == s[i]
    ensures forall i :: 0 <= i < |s| && s[i].dbId == taskId ==> r[i] == updated
  {
    seq(|s|, i requires 0 <= i < |s| => if s[i].dbId == taskId then updated else s[i])
  }

  /** `prevTasks.filter(task => task._id !== taskId)`. */
  function RemovedById(s: seq<ClientTask>, taskId: string): (r: seq<ClientTask>)
    ensures |r| <= |s|
    ensures forall t :: t in r <==> t in s && t.dbId != taskId
  {
    if s == [] then []
    else if s[0].dbId == taskId then RemovedById(s[1..], taskId)
    else [s[0]] + RemovedById(s[1..], taskId)
  }

  /** The kept elements stay in their order: removing distributes over concatenation. */
  lemma {:induction false} RemovedByIdAppend(a: seq<ClientTask>, b: seq<ClientTask>, taskId: string)
    ensures RemovedById(a + b, taskId) == RemovedById(a, taskId) + RemovedById(b, taskId)
  {
    if a != [] {
      assert (a + b)[1..] == a[1..] + b;
      RemovedByIdAppend(a[1..], b, taskId);
    } else {
      assert a + b == b;
    }
  }

  /** Deleting an id no element has leaves the list as it was. */
  lemma {:induction false} RemovedAbsentId(s: seq<ClientTask>, taskId: string)
    requires forall t | t in s :: t.dbId != taskId
    ensures RemovedById(s, taskId) == s
  {
    if s != [] {
      assert forall t | t in s[1..] :: t in s;
      RemovedAbsentId(s[1..], taskId);
      assert [s[0]] + s[1..] == s;
    }
  }

  /** Replacing a task by its own id and then deleting that id deletes it from the original list. */
  lemma {:induction false} ReplaceThenRemove(s: seq<ClientTask>, taskId: string, updated: ClientTask)
    requires updated.dbId == taskId
    ensures RemovedById(ReplacedById(s, taskId, updated), taskId) == RemovedById(s, taskId)
  {
    if s != [] {
      var r := ReplacedById(s, taskId, updated);
      assert r[1..] == ReplacedById(s[1..], taskId, updated);
      ReplaceThenRemove(s[1..], taskId, updated);
    }
  }

  class TaskProvider {
    var tasks: seq<ClientTask>
    var loadingTasks: bool
    var error: Option<string>
    /** The API calls made so far, oldest first. */
    var requests: seq<Request>

    /** The initial state: no tasks, loading, no error. */
    constructor ()
      ensures tasks == [] && loadingTasks && error.None? && requests == []
    {
      tasks := [];
      loadingTasks := true;
      error := None;
      requests := [];
    }

    /** `loadTasks`: the list becomes the server's, or empty when the fetch fails or nobody is signed in. */
    method LoadTasks(isAuthenticated: bool, reply: Api<seq<ClientTask>>)
      modifies this
      ensures !loadingTasks
      ensures !isAuthenticated ==> tasks == [] && error == old(error) && requests == old(requests)
      ensures isAuthenticated ==> requests == old(requests) + [FetchTasks]
      ensures isAuthenticated && reply.Ok? ==> tasks == reply.data && error.None?
      ensures isAuthenticated && reply.Fail? ==>
        tasks == [] && error == Some(OrElse(reply.err.serverMsg, FetchFailedMsg))
    {
      if !isAuthenticated {
        tasks := [];
        loadingTasks := false;
        return;
      }
      loadingTasks := true;
      error := None;
      requests := requests + [FetchTasks];
      match reply {
        case Ok(data) =>
          tasks := data;
        case Fail(err) =>
          error := Some(OrElse(err.serverMsg, FetchFailedMsg));
          tasks := [];
      }
      loadingTasks := false;
    }

    /** `addTask`: the created task is appended at the end. */
    method AddTask(isAuthenticated: bool, data: TaskPayload, reply: Api<ClientTask>) returns (outcome: Outcome<ClientTask>)
      modifies this
      ensures loadingTasks == old(loadingTasks)
      ensures !isAuthenticated ==>
        outcome == Threw(Raised(NotAuthenticatedMsg)) && tasks == old(tasks) && error == old(error) && requests == old(requests)
      ensures isAuthenticated ==> requests == old(requests) + [CreateTask(data)]
      ensures isAuthenticated && reply.Ok? ==>
        tasks == old(tasks) + [reply.data] && error.None? && outcome == Returned(reply.data)
      ensures isAuthenticated && reply.Fail? ==>
        var msg := OrElse(reply.err.serverMsg, AddFailedMsg);
        tasks == old(tasks) && error == Some(msg) && outcome == Threw(Raised(msg))
    {
      if !isAuthenticated {
        return Threw(Raised(NotAuthenticatedMsg));
      }
      error := None;
      requests := requests + [CreateTask(data)];
      match reply
      case Ok(created) =>
        tasks := tasks + [created];
        outcome := Returned(created);
      case Fail(err) =>
        var msg := OrElse(err.serverMsg, AddFailedMsg);
        error := Some(msg);
        outcome := Threw(Raised(msg));
    }

    /** `updateTask`: every task whose `_id` is `taskId` is replaced by the server's copy. */
    method UpdateTask(isAuthenticated: bool, taskId: string, data: TaskPayload, reply: Api<ClientTask>) returns (outcome: Outcome<ClientTask>)
      modifies this
      ensures loadingTasks == old(loadingTasks)
      ensures !isAuthenticated ==>
        outcome == Threw(Raised(NotAuthenticatedMsg)) && tasks == old(tasks) && error == old(error) && requests == old(requests)
      ensures isAuthenticated ==> requests == old(requests) + [UpdateTaskById(taskId, data)]
      ensures isAuthenticated && reply.Ok? ==>
        tasks == ReplacedById(old(tasks), taskId, reply.data) && error.None? && outcome == Returned(reply.data)
      ensures isAuthenticated && reply.Fail? ==>
        var msg := OrElse(reply.err.serverMsg, UpdateFailedMsg);
        tasks == old(tasks) && error == Some(msg) && outcome == Threw(Raised(msg))
    {
      if !isAuthenticated {
        return Threw(Raised(NotAuthenticatedMsg));
      }
      error := None;
      requests := requests + [UpdateTaskById(taskId, data)];
      match reply
      case Ok(updated) =>
        tasks := ReplacedById(tasks, taskId, updated);
        outcome := Returned(updated);
      case Fail(err) =>
        var msg := OrElse(err.serverMsg, UpdateFailedMsg);
        error := Some(msg);
        outcome := Threw(Raised(msg));
    }

    /** `deleteTask`: every task whose `_id` is `taskId` is dropped, the rest keep their order. */
    method DeleteTask(isAuthenticated: bool, taskId: string, reply: Api<()>) returns (outcome: Outcome<()>)
      modifies this
      ensures loadingTasks == old(loadingTasks)
      ensures !isAuthenticated ==>
        outcome == Threw(Raised(NotAuthenticatedMsg)) && tasks == old(tasks) && error == old(error) && requests == old(requests)
      ensures isAuthenticated ==> requests == old(requests) + [DeleteTaskById(taskId)]
      ensures isAuthenticated && reply.Ok? ==>
        tasks == RemovedById(old(tasks), taskId) && error.None? && outcome == Returned(())
      ensures isAuthenticated && reply.Fail? ==>
        var msg := OrElse(reply.err.serverMsg, DeleteFailedMsg);
        tasks == old(tasks) && error == Some(msg) && outcome == Threw(Raised(msg))
    {
      if !isAuthenticated {
        return Threw(Raised(NotAuthenticatedMsg));
      }
      error := None;
      requests := requests + [DeleteTaskById(taskId)];
      match reply
      case Ok(_) =>
        tasks := RemovedById(tasks, taskId);
        outcome := Returned(());
      case Fail(err) =>
        var msg := OrElse(err.serverMsg, DeleteFailedMsg);
        error := Some(msg);
        outcome := Threw(Raised(msg));
    }
  }
}
