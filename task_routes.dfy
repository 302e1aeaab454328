/**
 * The task API (server/routes/tasks.js): create, list, update and delete
 * over the shared task collection, each reached through the token gate and
 * each re-checking that the caller owns the task it changes.
 */
module TaskRoutes {
  import opened Text
  import opened ObjectId
  import opened Jwt
  import opened TaskSchema
  import AuthMiddleware

  const TitleRequiredMsg := "Title is required"
  const ValidationErrorMsg := "Validation Error"
  const InvalidIdMsg := "Invalid Task ID format"
  const NotFoundMsg := "Task not found"
  const NotOwnerUpdateMsg := "User not authorized to update this task"
  const NotOwnerDeleteMsg := "User not authorized to delete this task"
  const RemovedMsg := "Task removed successfully"

  datatype Body =
    | Message(msg: string)
    | ValidationFailure(msg: string, errors: set<string>)
    | One(task: TaskDoc)
    | Many(tasks: seq<TaskDoc>)

  datatype Response = Response(status: nat, body: Body)

  /** `dueDate ? new Date(dueDate) : null`: a missing or empty date becomes null. */
  function DueDateValue(dueDate: Option<string>): (r: Option<string>)
    ensures r.Some? <==> Given(dueDate)
    ensures r.Some? ==> r.value == dueDate.value
  {
    if Given(dueDate) then dueDate else None
  }

  /** The document the POST handler saves for `caller` at time `now`. */
  function NewTask(caller: Claims, body: TaskFields, newId: string, now: nat): (d: TaskDoc)
    ensures d.id == newId
    ensures d.user == caller.id && d.creatorEmail == caller.email
    ensures d.dueDate == DueDateValue(body.dueDate)
    ensures body.description.None? ==> d.description == ""
    ensures body.status.None? ==> d.status == DefaultStatus
    ensures body.priority.None? ==> d.priority == DefaultPriority
    ensures body.assigneeEmail.None? ==> d.assigneeEmail == None
    ensures d.createdAt == now && d.updatedAt == now
  {
    PreSave(Build(newId, caller.id, caller.email, body.(dueDate := DueDateValue(body.dueDate)), now), now)
  }

  /** A text field the PUT handler assigns through its trimming setter when the body carries it. */
  function TrimmedOr(o: Option<string>, current: string): (r: string)
    ensures o.None? ==> r == current
    ensures o.Some? ==> r == Trim(o.value)
  {
    if o.Some? then Trim(o.value) else current
  }

  /**
   * The PUT handler's field-by-field assignment: each field that is not
   * `undefined` in the body is assigned (through the schema's trim
   * setters), every other field keeps its value.
   */
  function ApplyPatch(d: TaskDoc, p: TaskFields): (r: TaskDoc)
    ensures r.id == d.id && r.user == d.user && r.creatorEmail == d.creatorEmail
    ensures r.createdAt == d.createdAt && r.updatedAt == d.updatedAt
    ensures p.title.None? ==> r.title == d.title
    ensures p.title.Some? ==> r.title == Trim(p.title.value)
    ensures p.description.None? ==> r.description == d.description
    ensures p.description.Some? ==> r.description == Trim(p.description.value)
    ensures p.status.None? ==> r.status == d.status
    ensures p.status.Some? ==> r.status == p.status.value
    ensures p.priority.None? ==> r.priority == d.priority
    ensures p.priority.Some? ==> r.priority == p.priority.value
    ensures p.dueDate.None? ==> r.dueDate == d.dueDate
    ensures p.dueDate.Some? ==> r.dueDate == DueDateValue(p.dueDate)
    ensures p.assigneeEmail.None? ==> r.assigneeEmail == d.assigneeEmail
    ensures p.assigneeEmail.Some? ==> r.assigneeEmail == Some(Trim(p.assigneeEmail.value))
  {
    TaskDoc(d.id, d.user, d.creatorEmail,
            TrimmedOr(p.title, d.title), TrimmedOr(p.description, d.description),
            p.status.GetOr(d.status), p.priority.GetOr(d.priority),
            if p.dueDate.Some? then DueDateValue(p.dueDate) else d.dueDate,
            if p.assigneeEmail.Some? then Some(Trim(p.assigneeEmail.value)) else d.assigneeEmail,
            d.createdAt, d.updatedAt)
  }

  /** Sending the same update twice leaves the task as sending it once. */
  lemma PatchIdempotent(d: TaskDoc, p: TaskFields)
    ensures ApplyPatch(ApplyPatch(d, p), p) == ApplyPatch(d, p)
  {
    var once := ApplyPatch(d, p);
    var twice := ApplyPatch(once, p);
    if p.title.Some? { TrimIdempotent(p.title.value); }
    if p.description.Some? { TrimIdempotent(p.description.value); }
    if p.assigneeEmail.Some? { TrimIdempotent(p.assigneeEmail.value); }
    assert twice.title == once.title && twice.description == once.description;
    assert twice.status == once.status && twice.priority == once.priority;
    assert twice.dueDate == once.dueDate && twice.assigneeEmail == once.assigneeEmail;
  }

  /** An update carrying only a status changes the status and nothing else. */
  lemma StatusOnlyPatch(d: TaskDoc, status: string)
    ensures ApplyPatch(d, TaskFields(None, None, Some(status), None, None, None)) == d.(status := status)
  {
  }

  /** `sort({ createdAt: -1 })`: newest first. */
  predicate NewestFirst(s: seq<TaskDoc>) {
    forall i, j :: 0 <= i < j < |s| ==> s[i].createdAt >= s[j].createdAt
  }

  predicate Distinct(s: seq<TaskDoc>) {
    forall i, j :: 0 <= i < j < |s| ==> s[i] != s[j]
  }

  /** A task no newer than the head of a newest-first list goes in front of it. */
  lemma NewestFirstCons(h: TaskDoc, s: seq<TaskDoc>)
    requires NewestFirst(s) && forall x | x in s :: x.createdAt <= h.createdAt
    ensures NewestFirst([h] + s)
  {
    forall i, j | 0 <= i < j < |[h] + s| ensures ([h] + s)[i].createdAt >= ([h] + s)[j].createdAt {
      if i > 0 {
        assert ([h] + s)[i] == s[i - 1] && ([h] + s)[j] == s[j - 1];
      } else {
        assert ([h] + s)[j] == s[j - 1] && s[j - 1] in s;
      }
    }
  }

  lemma DistinctCons(h: TaskDoc, s: seq<TaskDoc>)
    requires Distinct(s) && h !in s
    ensures Distinct([h] + s)
  {
    forall i, j | 0 <= i < j < |[h] + s| ensures ([h] + s)[i] != ([h] + s)[j] {
      assert ([h] + s)[j] == s[j - 1];
      if i > 0 {
        assert ([h] + s)[i] == s[i - 1];
      } else {
        assert s[j - 1] in s;
      }
    }
  }

  lemma NewestFirstTail(s: seq<TaskDoc>)
    requires s != [] && NewestFirst(s)
    ensures NewestFirst(s[1..]) && forall x | x in s[1..] :: x.createdAt <= s[0].createdAt
  {
    forall x | x in s[1..] ensures x.createdAt <= s[0].createdAt {
      var k :| 0 <= k < |s[1..]| && s[1..][k] == x;
      assert s[k + 1] == x;
    }
  }

  lemma DistinctTail(s: seq<TaskDoc>)
    requires s != [] && Distinct(s)
    ensures Distinct(s[1..]) && s[0] !in s[1..]
  {
    forall k | 0 <= k < |s| - 1 ensures s[1..][k] != s[0] {
      assert s[1..][k] == s[k + 1];
    }
  }

  /** Inserts `t` into a newest-first list, keeping it newest first. */
  function InsertNewestFirst(s: seq<TaskDoc>, t: TaskDoc): (r: seq<TaskDoc>)
    requires NewestFirst(s)
    ensures NewestFirst(r)
    ensures |r| == |s| + 1
    ensures forall x :: x in r <==> x == t || x in s
    ensures Distinct(s) && t !in s ==> Distinct(r)
  {
    if s == [] then
      [t]
    else if t.createdAt >= s[0].createdAt then
      NewestFirstTail(s);
      NewestFirstCons(t, s);
      if Distinct(s) && t !in s then DistinctCons(t, s); [t] + s else [t] + s
    else
      NewestFirstTail(s);
      var rest := InsertNewestFirst(s[1..], t);
      NewestFirstCons(s[0], rest);
      if Distinct(s) && t !in s then
        DistinctTail(s);
        DistinctCons(s[0], rest);
        [s[0]] + rest
      else
        [s[0]] + rest
  }

  /** What every stored task satisfies: it sits under its own id and passed the schema's validators. */
  predicate Stored(k: string, d: TaskDoc, now: nat, castsToDate: string -> bool) {
    d.id == k && WellFormedId(k) && Conforms(d, castsToDate) && d.createdAt <= d.updatedAt <= now
  }

  /**
   * The task collection, keyed by task id, the store's clock (milliseconds),
   * and whether Mongoose's `Date` cast accepts `new Date(s)` for a text `s`.
   */
  class TaskStore {
    const castsToDate: string -> bool
    var tasks: map<string, TaskDoc>
    var now: nat

    ghost predicate Valid()
      reads this
    {
      forall k | k in tasks :: Stored(k, tasks[k], now, castsToDate)
    }

    constructor (castsToDate: string -> bool)
      ensures Valid() && this.castsToDate == castsToDate && tasks == map[] && now == 0
    {
      this.castsToDate := castsToDate;
      tasks := map[];
      now := 0;
    }

    /** Time passes between requests. */
    method Tick(later: nat)
      requires Valid() && now <= later
      modifies this
      ensures Valid() && now == later && tasks == old(tasks)
    {
      now := later;
    }

    /** POST /api/tasks, after the token gate; `newId` is the id the store assigns. */
    method Create(caller: Claims, body: TaskFields, newId: string) returns (resp: Response)
      requires Valid()
      requires WellFormedId(newId) && newId !in tasks
      modifies this
      ensures Valid() && now == old(now)
      ensures !Given(body.title) ==> resp == Response(400, Message(TitleRequiredMsg)) && tasks == old(tasks)
      ensures Given(body.title) && Conforms(NewTask(caller, body, newId, now), castsToDate) ==>
        resp == Response(201, One(NewTask(caller, body, newId, now)))
        && tasks == old(tasks)[newId := NewTask(caller, body, newId, now)]
      ensures Given(body.title) && !Conforms(NewTask(caller, body, newId, now), castsToDate) ==>
        resp == Response(400, ValidationFailure(ValidationErrorMsg, ValidationErrors(NewTask(caller, body, newId, now), castsToDate)))
        && tasks == old(tasks)
    {
      if !Given(body.title) {
        return Response(400, Message(TitleRequiredMsg));
      }
      var d := NewTask(caller, body, newId, now);
      var errs := ValidationErrors(d, castsToDate);
      if errs != {} {
        return Response(400, ValidationFailure(ValidationErrorMsg, errs));
      }
      tasks := tasks[newId := d];
      resp := Response(201, One(d));
    }

    /** GET /api/tasks, after the token gate: the caller's tasks, newest first. */
    method List(caller: Claims) returns (resp: Response)
      requires Valid()
      ensures resp.status == 200 && resp.body.Many?
      ensures forall t :: t in resp.body.tasks <==> t in tasks.Values && t.user == caller.id
      ensures Distinct(resp.body.tasks) && NewestFirst(resp.body.tasks)
    {
      var rest := tasks.Keys;
      var acc: seq<TaskDoc> := [];
      while rest != {}
        invariant rest <= tasks.Keys
        invariant NewestFirst(acc) && Distinct(acc)
        invariant forall t :: t in acc <==> t in tasks.Values && t.user == caller.id && t.id !in rest
        decreases rest
      {
        var k :| k in rest;
        var t := tasks[k];
        assert Stored(k, t, now, castsToDate);
        if t.user == caller.id {
          acc := InsertNewestFirst(acc, t);
        }
        rest := rest - {k};
        forall x | x in tasks.Values
          ensures x.id in tasks && tasks[x.id] == x
        {
          var j :| j in tasks && tasks[j] == x;
          assert Stored(j, x, now, castsToDate);
        }
      }
      resp := Response(200, Many(acc));
    }

    /** PUT /api/tasks/:id, after the token gate. */
    method Update(caller: Claims, id: string, patch: TaskFields) returns (resp: Response)
      requires Valid()
      modifies this
      ensures Valid() && now == old(now)
      ensures !WellFormedId(id) ==> resp == Response(400, Message(InvalidIdMsg)) && tasks == old(tasks)
      ensures WellFormedId(id) && id !in old(tasks) ==> resp == Response(404, Message(NotFoundMsg)) && tasks == old(tasks)
      ensures WellFormedId(id) && id in old(tasks) && old(tasks)[id].user != caller.id ==>
        resp == Response(401, Message(NotOwnerUpdateMsg)) && tasks == old(tasks)
      ensures WellFormedId(id) && id in old(tasks) && old(tasks)[id].user == caller.id ==>
        var d := PreSave(ApplyPatch(old(tasks)[id], patch), now);
        if Conforms(d, castsToDate) then resp == Response(200, One(d)) && tasks == old(tasks)[id := d]
        else resp == Response(400, ValidationFailure(ValidationErrorMsg, ValidationErrors(d, castsToDate))) && tasks == old(tasks)
    {
      if !WellFormedId(id) {
        return Response(400, Message(InvalidIdMsg));
      }
      if id !in tasks {
        return Response(404, Message(NotFoundMsg));
      }
      var task := tasks[id];
      if task.user != caller.id {
        return Response(401, Message(NotOwnerUpdateMsg));
      }
      task := PreSave(ApplyPatch(task, patch), now);
      var errs := ValidationErrors(task, castsToDate);
      if errs != {} {
        return Response(400, ValidationFailure(ValidationErrorMsg, errs));
      }
      tasks := tasks[id := task];
      resp := Response(200, One(task));
    }

    /** DELETE /api/tasks/:id, after the token gate. */
    method Delete(caller: Claims, id: string) returns (resp: Response)
      requires Valid()
      modifies this
      ensures Valid() && now == old(now)
      ensures !WellFormedId(id) ==> resp == Response(400, Message(InvalidIdMsg)) && tasks == old(tasks)
      ensures WellFormedId(id) && id !in old(tasks) ==> resp == Response(404, Message(NotFoundMsg)) && tasks == old(tasks)
      ensures WellFormedId(id) && id in old(tasks) && old(tasks)[id].user != caller.id ==>
        resp == Response(401, Message(NotOwnerDeleteMsg)) && tasks == old(tasks)
      ensures WellFormedId(id) && id in old(tasks) && old(tasks)[id].user == caller.id ==>
        resp == Response(200, Message(RemovedMsg)) && tasks == old(tasks) - {id}
    {
      if !WellFormedId(id) {
        return Response(400, Message(InvalidIdMsg));
      }
      if id !in tasks {
        return Response(404, Message(NotFoundMsg));
      }
      if tasks[id].user != caller.id {
        return Response(401, Message(NotOwnerDeleteMsg));
      }
      tasks := tasks - {id};
      resp := Response(200, Message(RemovedMsg));
    }

    /** `router.put('/:id', authMiddleware, ...)`: the gate answers first and then the store is never touched. */
    method UpdateRoute(header: Option<string>, verdict: Verdict, id: string, patch: TaskFields) returns (resp: Response)
      requires Valid()
      modifies this
      ensures Valid() && now == old(now)
      ensures AuthMiddleware.Authenticate(header, verdict).Reject? ==>
        resp == Response(AuthMiddleware.Authenticate(header, verdict).status, Message(AuthMiddleware.Authenticate(header, verdict).msg))
        && tasks == old(tasks)
      ensures resp.status == 200 ==> verdict.Verified? && id in old(tasks) && old(tasks)[id].user == verdict.user.id
    {
      match AuthMiddleware.Authenticate(header, verdict)
      case Reject(code, msg) =>
        resp := Response(code, Message(msg));
      case Next(user) =>
        resp := Update(user, id, patch);
    }

    /** `router.delete('/:id', authMiddleware, ...)`. */
    method DeleteRoute(header: Option<string>, verdict: Verdict, id: string) returns (resp: Response)
      requires Valid()
      modifies this
      ensures Valid() && now == old(now)
      ensures AuthMiddleware.Authenticate(header, verdict).Reject? ==>
        resp == Response(AuthMiddleware.Authenticate(header, verdict).status, Message(AuthMiddleware.Authenticate(header, verdict).msg))
        && tasks == old(tasks)
      ensures tasks != old(tasks) ==> verdict.Verified? && id in old(tasks) && old(tasks)[id].user == verdict.user.id
    {
      match AuthMiddleware.Authenticate(header, verdict)
      case Reject(code, msg) =>
        resp := Response(code, Message(msg));
      case Next(user) =>
        resp := Delete(user, id);
    }

    /** `router.post('/', authMiddleware, ...)`. */
    method CreateRoute(header: Option<string>, verdict: Verdict, body: TaskFields, newId: string) returns (resp: Response)
      requires Valid()
      requires WellFormedId(newId) && newId !in tasks
      modifies this
      ensures Valid() && now == old(now)
      ensures AuthMiddleware.Authenticate(header, verdict).Reject? ==>
        resp == Response(AuthMiddleware.Authenticate(header, verdict).status, Message(AuthMiddleware.Authenticate(header, verdict).msg))
        && tasks == old(tasks)
      ensures resp.status == 201 ==> verdict.Verified? && newId in tasks && tasks[newId].user == verdict.user.id
    {
      match AuthMiddleware.Authenticate(header, verdict)
      case Reject(code, msg) =>
        resp := Response(code, Message(msg));
      case Next(user) =>
        resp := Create(user, body, newId);
    }

    /** `router.get('/', authMiddleware, ...)`. */
    method ListRoute(header: Option<string>, verdict: Verdict) returns (resp: Response)
      requires Valid()
      ensures AuthMiddleware.Authenticate(header, verdict).Reject? ==>
        resp == Response(AuthMiddleware.Authenticate(header, verdict).status, Message(AuthMiddleware.Authenticate(header, verdict).msg))
      ensures resp.status == 200 ==>
        (verdict.Verified? && resp.body.Many? && forall t :: t in resp.body.tasks ==> t.user == verdict.user.id)
    {
      match AuthMiddleware.Authenticate(header, verdict)
      case Reject(code, msg) =>
        resp := Response(code, Message(msg));
      case Next(user) =>
        resp := List(user);
    }
  }
}
