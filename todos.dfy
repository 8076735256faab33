/** The task store and its request handler, frontend/app/api/todos/route.ts:
    a module-level list of tasks that `handleTodosRequest` lists, appends to,
    merges into, marks complete and splices, after checking the bearer token and
    that the path's user id is the token's. */
module Todos {
  import opened Values
  import opened Seqs
  import opened Strings
  import opened Requests

  /** A stored task. The six body-supplied fields keep whatever JSON value the
      client sent; `userId` is the path's user id as `parseInt` read it. */
  datatype Task = Task(
    id: int,
    userId: int,
    title: Value,
    description: Value,
    isCompleted: Value,
    dueDate: Value,
    priorityLevel: Value,
    category: Value,
    createdAt: string,
    updatedAt: string)

  /** The parts of a request the handler reads: the URL path, the Authorization
      header, the `is_completed` query parameter and the parsed JSON body. */
  datatype TodoRequest = TodoRequest(
    path: string,
    authorization: Option<string>,
    isCompletedParam: Option<string>,
    body: map<string, Value>)

  /** Response bodies: `{detail}`, `{error}`, a task array, one task, `{message}`. */
  datatype Body =
    | Detail(detail: string)
    | RouteError(error: string)
    | TaskList(tasks: seq<Task>)
    | OneTask(task: Task)
    | Message(message: string)

  datatype Response = Response(status: int, body: Body)

  /** The JSON names of the fields a body may supply, in the order of line 107. */
  const BodyFields: seq<string> := ["title", "description", "is_completed", "due_date", "priority_level", "category"]

  /** A task's body-supplied field by its JSON name. */
  function Get(t: Task, name: string): Value {
    match name
    case "title" => t.title
    case "description" => t.description
    case "is_completed" => t.isCompleted
    case "due_date" => t.dueDate
    case "priority_level" => t.priorityLevel
    case "category" => t.category
    case _ => Undefined
  }

  /** The branch of lines 36-166 that a method label and the remaining segments
      select, with the path's user segment and, where used, its task segment. */
  datatype TodoRoute =
    | ListTasks(user: string)
    | FetchTask(user: string, task: string)
    | CreateTask(user: string)
    | UpdateTask(user: string, task: string)
    | CompleteTask(user: string, task: string)
    | DeleteTask(user: string, task: string)
    | NoRoute

  function Classify(verb: string, segs: seq<string>): (r: TodoRoute)
    ensures !r.NoRoute? ==> SegIs(segs, 1, "tasks") && r.user == segs[0]
    ensures r.ListTasks? <==> verb == "GET" && SegIs(segs, 1, "tasks") && Given(segs, 0)
    ensures r.CreateTask? <==> verb == "POST" && SegIs(segs, 1, "tasks") && Given(segs, 0)
    ensures r.UpdateTask? <==> verb == "PUT" && SegIs(segs, 1, "tasks") && Given(segs, 2)
    ensures r.CompleteTask? <==> verb == "PATCH" && SegIs(segs, 1, "tasks") && Given(segs, 2) && SegIs(segs, 3, "complete")
    ensures r.DeleteTask? <==> verb == "DELETE" && SegIs(segs, 1, "tasks") && Given(segs, 2)
    ensures r.FetchTask? <==> verb == "GET" && SegIs(segs, 1, "tasks") && !Given(segs, 0) && Given(segs, 2)
    ensures (r.FetchTask? || r.UpdateTask? || r.CompleteTask? || r.DeleteTask?) ==> r.task == segs[2]
  {
    if verb == "GET" then
      if SegIs(segs, 1, "tasks") && Given(segs, 0) then ListTasks(segs[0])
      else if SegIs(segs, 1, "tasks") && Given(segs, 2) then FetchTask(segs[0], segs[2])
      else NoRoute
    else if verb == "POST" then
      if SegIs(segs, 1, "tasks") && Given(segs, 0) then CreateTask(segs[0]) else NoRoute
    else if verb == "PUT" then
      if SegIs(segs, 1, "tasks") && Given(segs, 2) then UpdateTask(segs[0], segs[2]) else NoRoute
    else if verb == "PATCH" then
      if SegIs(segs, 1, "tasks") && Given(segs, 2) && SegIs(segs, 3, "complete")
      then CompleteTask(segs[0], segs[2]) else NoRoute
    else if verb == "DELETE" then
      if SegIs(segs, 1, "tasks") && Given(segs, 2) then DeleteTask(segs[0], segs[2]) else NoRoute
    else NoRoute
  }

  /** The by-id GET branch (lines 49-63) never runs: it needs an empty first
      segment, and the segments of a real path are never empty. */
  lemma FetchUnreachable(verb: string, path: string)
    ensures !Classify(verb, RemainingSegments(path)).FetchTask?
  {
    RemainingNonEmpty(path);
  }

  /** `decoded.user_id !== userId` fails: the path's user id, when it parses and
      equals the token's `user_id`. NaN never equals anything. */
  function Owner(claims: Claims, userSeg: string): (r: Option<int>)
    ensures r.Some? ==> ParseInt(userSeg) == r && claims.userId == Num(r.value)
    ensures claims.userId.Num? && ParseInt(userSeg) == Some(claims.userId.n) ==> r.Some?
  {
    var n := ParseInt(userSeg);
    if n.Some? && claims.userId == Num(n.value) then n else None
  }

  /** A path segment written as the decimal user id is owned exactly by tokens carrying that id. */
  lemma OwnerOfDecimal(claims: Claims, n: nat)
    ensures Owner(claims, DecimalString(n)) == (if claims.userId == Num(n) then Some(n) else None)
  {
    ParseIntDecimal(n, "");
    assert DecimalString(n) + "" == DecimalString(n);
  }

  /** A user segment that starts with neither a digit nor a sign is owned by no token. */
  lemma OwnerNeedsDigits(claims: Claims, userSeg: string)
    requires userSeg == [] || !(IsDigit(userSeg[0]) || userSeg[0] == '+' || userSeg[0] == '-')
    ensures Owner(claims, userSeg) == None
  {
  }

  /** `parseInt` reads `0x1` as hexadecimal, so that segment is owned by the token of user 1. */
  lemma HexUserSegment(sub: Value)
    ensures Owner(Claims(sub, Num(1)), "0x1") == Some(1)
  {
    ParseIntExamples();
  }

  /** The user id a request may act for: present exactly when the token verified,
      a branch matched and the path's user id is the token's (lines 41-43, 53-55,
      69-71, 98-100, 128-130, 154-156). */
  function ActingUser(cred: Credential, route: TodoRoute): Option<int> {
    if cred.Verified? && !route.NoRoute? then Owner(cred.claims, route.user) else None
  }

  /** `t.id === todoId && t.userId === userId`; a NaN task id matches nothing. */
  predicate Targets(t: Task, taskId: Option<int>, owner: int): (b: bool)
    ensures taskId.None? ==> !b
    ensures b ==> taskId.value == t.id && t.userId == owner
  {
    taskId == Some(t.id) && t.userId == owner
  }

  /** `todos.findIndex(...)` with the predicate of lines 102, 135 and 158. */
  function FindTask(todos: seq<Task>, taskId: Option<int>, owner: int): (i: int)
    ensures -1 <= i < |todos|
    ensures 0 <= i ==> Targets(todos[i], taskId, owner)
    ensures i < 0 <==> forall j :: 0 <= j < |todos| ==> !Targets(todos[j], taskId, owner)
    ensures taskId.None? ==> i == -1
  {
    FindIndex(todos, (t: Task) => Targets(t, taskId, owner))
  }

  /** `todos.find(...)` of line 57: the task at `FindTask`, if any. */
  function Lookup(todos: seq<Task>, taskId: Option<int>, owner: int): (r: Option<Task>)
    ensures r.Some? <==> 0 <= FindTask(todos, taskId, owner)
    ensures r.Some? ==> r.value == todos[FindTask(todos, taskId, owner)] && Targets(r.value, taskId, owner)
    ensures r.None? ==> forall j :: 0 <= j < |todos| ==> !Targets(todos[j], taskId, owner)
    decreases |todos|
  {
    if |todos| == 0 then None
    else if Targets(todos[0], taskId, owner) then Some(todos[0])
    else Lookup(todos[1..], taskId, owner)
  }

  /** `todos.filter(todo => todo.userId === userId)` of line 45. */
  function TasksOf(todos: seq<Task>, owner: int): (r: seq<Task>)
    ensures |r| <= |todos|
    ensures forall i :: 0 <= i < |r| ==> r[i].userId == owner
  {
    Filter(todos, (t: Task) => t.userId == owner)
  }

  /** The listing is exactly the owner's tasks: each listed task is a stored
      task of that owner, and each stored task of that owner is listed. */
  lemma TasksOfExactly(todos: seq<Task>, owner: int)
    ensures forall i :: 0 <= i < |TasksOf(todos, owner)| ==>
      TasksOf(todos, owner)[i] in todos && TasksOf(todos, owner)[i].userId == owner
    ensures forall i :: 0 <= i < |todos| && todos[i].userId == owner ==> todos[i] in TasksOf(todos, owner)
  {
  }

  /** Listing after an append: the earlier listing, then the new task if it is the owner's. */
  lemma TasksOfAppend(todos: seq<Task>, t: Task, owner: int)
    ensures TasksOf(todos + [t], owner) == TasksOf(todos, owner) + (if t.userId == owner then [t] else [])
  {
    var p := (x: Task) => x.userId == owner;
    FilterAppend(todos, [t], p);
    assert Filter([t], p) == (if p(t) then [t] else []) + Filter([t][1..], p);
  }

  /** The task POST builds (lines 75-86): fixed id and owner, `is_completed`
      false, the `||` defaults for description, priority and category, and both
      timestamps from the clock. */
  function NewTask(id: int, owner: int, body: map<string, Value>, now: string): (t: Task)
    ensures t.id == id && t.userId == owner && t.isCompleted == Bool(false)
    ensures t.createdAt == now && t.updatedAt == now
    ensures t.description != Undefined && Truthy(t.priorityLevel) && Truthy(t.category)
  {
    Task(
      id := id,
      userId := owner,
      title := Field(body, "title"),
      description := Or(Field(body, "description"), Str("")),
      isCompleted := Bool(false),
      dueDate := Field(body, "due_date"),
      priorityLevel := Or(Field(body, "priority_level"), Str("normal")),
      category := Or(Field(body, "category"), Str("General")),
      createdAt := now,
      updatedAt := now)
  }

  /** What a created task holds: description, priority and category are the
      supplied value when truthy and the default otherwise; title and due date
      are taken as given (even when missing); it starts not completed. */
  lemma NewTaskFields(id: int, owner: int, body: map<string, Value>, now: string)
    ensures var t := NewTask(id, owner, body, now);
      && t.id == id && t.userId == owner && t.isCompleted == Bool(false)
      && t.createdAt == now && t.updatedAt == now
      && Get(t, "title") == Field(body, "title")
      && Get(t, "due_date") == Field(body, "due_date")
      && (Truthy(Field(body, "description")) ==> Get(t, "description") == Field(body, "description"))
      && (!Truthy(Field(body, "description")) ==> Get(t, "description") == Str(""))
      && (Truthy(Field(body, "priority_level")) ==> Get(t, "priority_level") == Field(body, "priority_level"))
      && (!Truthy(Field(body, "priority_level")) ==> Get(t, "priority_level") == Str("normal"))
      && (Truthy(Field(body, "category")) ==> Get(t, "category") == Field(body, "category"))
      && (!Truthy(Field(body, "category")) ==> Get(t, "category") == Str("General"))
  {
  }

  /** Creating `{title: "Buy milk"}` yields a task not completed, of priority
      "normal" and category "General", with an empty description. */
  lemma BuyMilk(id: int, owner: int, now: string)
    ensures var t := NewTask(id, owner, map["title" := Str("Buy milk")], now);
      t.title == Str("Buy milk") && t.isCompleted == Bool(false) && t.description == Str("")
      && t.priorityLevel == Str("normal") && t.category == Str("General") && t.dueDate == Undefined
  {
  }

  /** The PUT merge (lines 109-118): each of the six fields is overwritten by the
      body's value unless that is `undefined`, and `updated_at` is refreshed. */
  function Merge(t: Task, body: map<string, Value>, now: string): (r: Task)
    ensures r.id == t.id && r.userId == t.userId && r.createdAt == t.createdAt && r.updatedAt == now
    ensures r.title == Undefined ==> t.title == Undefined
    ensures r.dueDate == Undefined ==> t.dueDate == Undefined
  {
    t.(
      title := Defined(Field(body, "title"), t.title),
      description := Defined(Field(body, "description"), t.description),
      isCompleted := Defined(Field(body, "is_completed"), t.isCompleted),
      dueDate := Defined(Field(body, "due_date"), t.dueDate),
      priorityLevel := Defined(Field(body, "priority_level"), t.priorityLevel),
      category := Defined(Field(body, "category"), t.category),
      updatedAt := now)
  }

  /** The merge overwrites exactly the body fields that are not `undefined`
      (`null`, `false`, `0` and `""` do overwrite) and keeps id, owner and
      creation time. */
  lemma {:induction false} MergeFields(t: Task, body: map<string, Value>, now: string)
    ensures var m := Merge(t, body, now);
      && m.id == t.id && m.userId == t.userId && m.createdAt == t.createdAt && m.updatedAt == now
      && forall k :: 0 <= k < |BodyFields| ==>
           Get(m, BodyFields[k]) == (if Field(body, BodyFields[k]) != Undefined then Field(body, BodyFields[k]) else Get(t, BodyFields[k]))
  {
    var m := Merge(t, body, now);
    forall k | 0 <= k < |BodyFields|
      ensures Get(m, BodyFields[k]) == (if Field(body, BodyFields[k]) != Undefined then Field(body, BodyFields[k]) else Get(t, BodyFields[k]))
    {
      assert k == 0 || k == 1 || k == 2 || k == 3 || k == 4 || k == 5;
    }
  }

  /** Sending the same PUT body twice, each with its own clock reading, gives the
      task a single PUT at the later instant gives: the first merge leaves no trace. */
  lemma MergeIdempotent(t: Task, body: map<string, Value>, earlier: string, later: string)
    ensures Merge(Merge(t, body, earlier), body, later) == Merge(t, body, later)
  {
  }

  /** The PATCH update (lines 140-144): only `is_completed` and `updated_at` change. */
  function MarkCompleted(t: Task, done: bool, now: string): (r: Task)
    ensures r.isCompleted == Bool(done) && r.updatedAt == now
    ensures r.(isCompleted := t.isCompleted, updatedAt := t.updatedAt) == t
  {
    t.(isCompleted := Bool(done), updatedAt := now)
  }

  /** `searchParams.get('is_completed') === 'true'`: only the exact string counts;
      a missing parameter, "True" or "1" all mark the task not completed. */
  function CompletionFlag(param: Option<string>): (done: bool)
    ensures done <==> param == Some("true")
  {
    match param
    case Some(v) => v == "true"
    case None => false
  }

  /** A PATCH, like a PUT, keeps the task findable under the same id and owner,
      so a following by-id lookup sees the new state. */
  lemma FindAfterUpdate(todos: seq<Task>, i: int, t: Task, taskId: Option<int>, owner: int)
    requires 0 <= i < |todos|
    requires t.id == todos[i].id && t.userId == todos[i].userId
    ensures FindTask(todos[i := t], taskId, owner) == FindTask(todos, taskId, owner)
  {
    FindIndexUpdate(todos, i, t, (x: Task) => Targets(x, taskId, owner));
  }

  /** After marking the task a PATCH finds, looking it up again gives the
      completed task with the new timestamp. */
  lemma CompleteThenLookup(todos: seq<Task>, taskId: Option<int>, owner: int, now: string)
    requires 0 <= FindTask(todos, taskId, owner)
    ensures var i := FindTask(todos, taskId, owner);
      var after := todos[i := MarkCompleted(todos[i], true, now)];
      Lookup(after, taskId, owner) == Some(MarkCompleted(todos[i], true, now))
  {
    var i := FindTask(todos, taskId, owner);
    FindAfterUpdate(todos, i, MarkCompleted(todos[i], true, now), taskId, owner);
  }

  /** When no other task shares the deleted one's id and owner, it can no longer be found. */
  lemma DeleteThenLookup(todos: seq<Task>, taskId: Option<int>, owner: int)
    requires 0 <= FindTask(todos, taskId, owner)
    requires forall j :: 0 <= j < |todos| && j != FindTask(todos, taskId, owner) ==> !Targets(todos[j], taskId, owner)
    ensures Lookup(RemoveAt(todos, FindTask(todos, taskId, owner)), taskId, owner) == None
  {
    var i := FindTask(todos, taskId, owner);
    var r := RemoveAt(todos, i);
    forall j | 0 <= j < |r|
      ensures !Targets(r[j], taskId, owner)
    {
      if j < i { assert r[j] == todos[j]; } else { assert r[j] == todos[j + 1]; }
    }
  }

  /** Ids are `todos.length + 1` (line 76), so they repeat once a task has been
      deleted: create two tasks, delete the first, create a third, and two
      stored tasks carry id 2; deleting one of them leaves the other findable. */
  lemma IdsCollideAfterDelete(owner: int, body: map<string, Value>, now: string)
    ensures var first := NewTask(1, owner, body, now);
      var second := NewTask(2, owner, body, now);
      var afterDelete := RemoveAt([first, second], 0);
      var third := NewTask(|afterDelete| + 1, owner, body, now);
      var store := afterDelete + [third];
      && store[0].id == store[1].id == 2
      && FindTask(store, Some(2), owner) == 0
      && Lookup(RemoveAt(store, 0), Some(2), owner) == Some(third)
  {
    var first := NewTask(1, owner, body, now);
    var second := NewTask(2, owner, body, now);
    var third := NewTask(2, owner, body, now);
    var store := [second, third];
    assert RemoveAt([first, second], 0) == [second];
    assert Targets(store[0], Some(2), owner);
    assert RemoveAt(store, 0) == [third];
  }

  /** A response together with the store it leaves behind. */
  datatype Outcome = Outcome(todos: seq<Task>, resp: Response)

  /** GET list (lines 45-46): the owner's tasks; the store is untouched. */
  function Listed(todos: seq<Task>, owner: int): (o: Outcome)
    ensures o.todos == todos && o.resp.status == 200
    ensures o.resp.body.TaskList? && o.resp.body.tasks == TasksOf(todos, owner)
  {
    Outcome(todos, Response(200, TaskList(TasksOf(todos, owner))))
  }

  /** GET by id (lines 57-62): the task `find` returns, or 404; the store is untouched. */
  function Fetched(todos: seq<Task>, owner: int, taskId: Option<int>): (o: Outcome)
    ensures o.todos == todos
    ensures o.resp.status == 404 <==> Lookup(todos, taskId, owner).None?
    ensures o.resp.status != 404 ==> o.resp == Response(200, OneTask(Lookup(todos, taskId, owner).value))
  {
    match Lookup(todos, taskId, owner)
    case None => Outcome(todos, Response(404, Detail("Task not found")))
    case Some(t) => Outcome(todos, Response(200, OneTask(t)))
  }

  /** POST (lines 75-90): exactly one task is appended, the earlier ones stay,
      and the new one, with id `length + 1` and the path's owner, is answered with 201. */
  function Created(todos: seq<Task>, owner: int, body: map<string, Value>, now: string): (o: Outcome)
    ensures |o.todos| == |todos| + 1 && o.todos[..|todos|] == todos
    ensures o.todos[|todos|] == NewTask(|todos| + 1, owner, body, now)
    ensures o.todos[|todos|].id == |todos| + 1 && o.todos[|todos|].userId == owner
    ensures o.resp == Response(201, OneTask(o.todos[|todos|]))
  {
    var t := NewTask(|todos| + 1, owner, body, now);
    Outcome(todos + [t], Response(201, OneTask(t)))
  }

  /** PUT (lines 102-120): only the first task matching id and owner changes, to
      its merge with the body, and is returned; with no match, 404 and no change. */
  function Updated(todos: seq<Task>, owner: int, taskId: Option<int>, body: map<string, Value>, now: string): (o: Outcome)
    ensures var i := FindTask(todos, taskId, owner);
      && (i < 0 <==> o.resp == Response(404, Detail("Task not found")))
      && (i < 0 ==> o.todos == todos)
      && |o.todos| == |todos|
      && (forall j :: 0 <= j < |todos| && j != i ==> o.todos[j] == todos[j])
      && (0 <= i ==> o.todos[i] == Merge(todos[i], body, now) && o.resp == Response(200, OneTask(o.todos[i])))
  {
    var i := FindTask(todos, taskId, owner);
    if i < 0 then Outcome(todos, Response(404, Detail("Task not found")))
    else
      var t := Merge(todos[i], body, now);
      Outcome(todos[i := t], Response(200, OneTask(t)))
  }

  /** PATCH (lines 135-146): only the first matching task changes, to its marked
      copy; with no match, 404 and no change. */
  function Completed(todos: seq<Task>, owner: int, taskId: Option<int>, done: bool, now: string): (o: Outcome)
    ensures var i := FindTask(todos, taskId, owner);
      && (i < 0 <==> o.resp == Response(404, Detail("Task not found")))
      && (i < 0 ==> o.todos == todos)
      && |o.todos| == |todos|
      && (forall j :: 0 <= j < |todos| && j != i ==> o.todos[j] == todos[j])
      && (0 <= i ==> o.todos[i] == MarkCompleted(todos[i], done, now)
                     && o.resp == Response(200, Message("Task updated successfully")))
  {
    var i := FindTask(todos, taskId, owner);
    if i < 0 then Outcome(todos, Response(404, Detail("Task not found")))
    else Outcome(todos[i := MarkCompleted(todos[i], done, now)], Response(200, Message("Task updated successfully")))
  }

  /** DELETE (lines 158-164): exactly the first matching task is removed and the
      others keep their order; with no match, 404 and no change. */
  function Deleted(todos: seq<Task>, owner: int, taskId: Option<int>): (o: Outcome)
    ensures var i := FindTask(todos, taskId, owner);
      && (i < 0 <==> o.resp == Response(404, Detail("Task not found")))
      && (i < 0 ==> o.todos == todos)
      && (0 <= i ==> |o.todos| == |todos| - 1
                     && (forall j :: 0 <= j < i ==> o.todos[j] == todos[j])
                     && (forall j :: i <= j < |o.todos| ==> o.todos[j] == todos[j + 1])
                     && o.resp == Response(200, Message("Task deleted successfully")))
  {
    var i := FindTask(todos, taskId, owner);
    if i < 0 then Outcome(todos, Response(404, Detail("Task not found")))
    else Outcome(RemoveAt(todos, i), Response(200, Message("Task deleted successfully")))
  }

  /** The operation a matched branch performs for the user the path and the token agree on. */
  function Perform(todos: seq<Task>, route: TodoRoute, owner: int, req: TodoRequest, now: string): (o: Outcome)
    ensures o.resp.status in {200, 201, 404}
    ensures o.resp.status == 201 <==> route.CreateTask?
  {
    match route
    case ListTasks(_) => Listed(todos, owner)
    case FetchTask(_, task) => Fetched(todos, owner, ParseInt(task))
    case CreateTask(_) => Created(todos, owner, req.body, now)
    case UpdateTask(_, task) => Updated(todos, owner, ParseInt(task), req.body, now)
    case CompleteTask(_, task) => Completed(todos, owner, ParseInt(task), CompletionFlag(req.isCompletedParam), now)
    case DeleteTask(_, task) => Deleted(todos, owner, ParseInt(task))
    case NoRoute => Outcome(todos, Response(404, RouteError("Route not found")))
  }

  /** What `handleTodosRequest` answers and leaves in the store, given the store
      before the request: token, then branch, then ownership, then the operation. */
  function Respond(todos: seq<Task>, req: TodoRequest, verb: string, verify: string -> Option<Claims>, now: string): (o: Outcome)
    ensures o.resp.status in {200, 201, 401, 403, 404}
    ensures o.resp.status == 401 <==> !Authenticate(req.authorization, verify).Verified?
  {
    var cred := Authenticate(req.authorization, verify);
    if cred.Missing? then Outcome(todos, Response(401, Detail("Authentication required")))
    else if cred.Invalid? then Outcome(todos, Response(401, Detail("Invalid token")))
    else
      var route := Classify(verb, RemainingSegments(req.path));
      if route.NoRoute? then Outcome(todos, Response(404, RouteError("Route not found")))
      else
        var owner := Owner(cred.claims, route.user);
        if owner.None? then Outcome(todos, Response(403, Detail("Not authorized")))
        else Perform(todos, route, owner.value, req, now)
  }

  /** The token is checked first, whatever the route: no truthy token, or one
      that does not verify, is a 401 and leaves the store unchanged. */
  lemma RespondChecksTokenFirst(todos: seq<Task>, req: TodoRequest, verb: string, verify: string -> Option<Claims>, now: string)
    ensures Authenticate(req.authorization, verify).Missing? ==>
      Respond(todos, req, verb, verify, now) == Outcome(todos, Response(401, Detail("Authentication required")))
    ensures Authenticate(req.authorization, verify).Invalid? ==>
      Respond(todos, req, verb, verify, now) == Outcome(todos, Response(401, Detail("Invalid token")))
  {
  }

  /** With a valid token, a path no branch matches is the 404 of line 168. */
  lemma RespondNoRoute(todos: seq<Task>, req: TodoRequest, verb: string, verify: string -> Option<Claims>, now: string)
    ensures Authenticate(req.authorization, verify).Verified? && Classify(verb, RemainingSegments(req.path)).NoRoute? ==>
      Respond(todos, req, verb, verify, now) == Outcome(todos, Response(404, RouteError("Route not found")))
  {
  }

  /** Ownership is checked before any lookup: a path user that is not the
      token's gives the same 403 whatever the store holds, and changes nothing. */
  lemma RespondForbidden(todos: seq<Task>, req: TodoRequest, verb: string, verify: string -> Option<Claims>, now: string)
    ensures var cred := Authenticate(req.authorization, verify);
      var route := Classify(verb, RemainingSegments(req.path));
      cred.Verified? && !route.NoRoute? && Owner(cred.claims, route.user).None? ==>
        Respond(todos, req, verb, verify, now) == Outcome(todos, Response(403, Detail("Not authorized")))
  {
  }

  /** Once token, branch and ownership pass, each branch performs its operation
      for the path's user, with the task id `parseInt` reads from the path. */
  lemma RespondPerforms(todos: seq<Task>, req: TodoRequest, verb: string, verify: string -> Option<Claims>, now: string)
    ensures var route := Classify(verb, RemainingSegments(req.path));
      var uid := ActingUser(Authenticate(req.authorization, verify), route);
      var o := Respond(todos, req, verb, verify, now);
      && (uid.Some? && route.ListTasks? ==> o == Listed(todos, uid.value))
      && (uid.Some? && route.CreateTask? ==> o == Created(todos, uid.value, req.body, now))
      && (uid.Some? && route.UpdateTask? ==> o == Updated(todos, uid.value, ParseInt(route.task), req.body, now))
      && (uid.Some? && route.CompleteTask? ==>
            o == Completed(todos, uid.value, ParseInt(route.task), CompletionFlag(req.isCompletedParam), now))
      && (uid.Some? && route.DeleteTask? ==> o == Deleted(todos, uid.value, ParseInt(route.task)))
  {
  }

  /** Every answer other than 200 or 201 leaves the store as it was. */
  lemma RespondFailureKeepsStore(todos: seq<Task>, req: TodoRequest, verb: string, verify: string -> Option<Claims>, now: string)
    ensures var o := Respond(todos, req, verb, verify, now);
      o.resp.status != 200 && o.resp.status != 201 ==> o.todos == todos
  {
    var cred := Authenticate(req.authorization, verify);
    var route := Classify(verb, RemainingSegments(req.path));
    if cred.Verified? && !route.NoRoute? {
      var owner := Owner(cred.claims, route.user);
      if owner.Some? {
        PerformFailureKeepsStore(todos, route, owner.value, req, now);
      }
    }
  }

  /** Every operation that answers with neither 200 nor 201 leaves the store as it was. */
  lemma PerformFailureKeepsStore(todos: seq<Task>, route: TodoRoute, owner: int, req: TodoRequest, now: string)
    ensures var o := Perform(todos, route, owner, req, now);
      o.resp.status != 200 && o.resp.status != 201 ==> o.todos == todos
  {
  }

  /** A request changes at most the tasks of the user it acts for: every other
      user's listing is the same afterwards. */
  lemma RespondIsolatesUsers(todos: seq<Task>, req: TodoRequest, verb: string, verify: string -> Option<Claims>, now: string, other: int)
    ensures var uid := ActingUser(Authenticate(req.authorization, verify), Classify(verb, RemainingSegments(req.path)));
      (uid.None? || uid.value != other) ==>
        TasksOf(Respond(todos, req, verb, verify, now).todos, other) == TasksOf(todos, other)
  {
    var route := Classify(verb, RemainingSegments(req.path));
    var uid := ActingUser(Authenticate(req.authorization, verify), route);
    var p := (t: Task) => t.userId == other;
    if uid.Some? && uid.value != other && !route.NoRoute? {
      var owner := uid.value;
      var after := Respond(todos, req, verb, verify, now).todos;
      if route.CreateTask? {
        var t := NewTask(|todos| + 1, owner, req.body, now);
        assert after == todos + [t];
        TasksOfAppend(todos, t, other);
      } else if route.UpdateTask? || route.CompleteTask? || route.DeleteTask? {
        var i := FindTask(todos, ParseInt(route.task), owner);
        if 0 <= i {
          assert todos[i].userId == owner;
          if route.UpdateTask? {
            FilterUpdateRejected(todos, i, Merge(todos[i], req.body, now), p);
          } else if route.CompleteTask? {
            FilterUpdateRejected(todos, i, MarkCompleted(todos[i], CompletionFlag(req.isCompletedParam), now), p);
          } else {
            FilterRemoveRejected(todos, i, p);
          }
        }
      }
    }
  }

  class TaskStore {
    /** The module-level `todos` array. */
    var todos: seq<Task>

    constructor ()
      ensures todos == []
    {
      todos := [];
    }

    /** `handleTodosRequest(request, method)`; `verify` is `jwt.verify` under the
        server's secret and `now` the clock's ISO time. The answer and the new
        store are those of `Respond`, whose lemmas above state them route by route. */
    method Handle(req: TodoRequest, verb: string, verify: string -> Option<Claims>, now: string)
      returns (resp: Response)
      modifies this
      ensures Outcome(todos, resp) == Respond(old(todos), req, verb, verify, now)
    {
      var segs := RemainingSegments(req.path);
      var cred := Authenticate(req.authorization, verify);
      if cred.Missing? {
        return Response(401, Detail("Authentication required"));
      }
      if cred.Invalid? {
        return Response(401, Detail("Invalid token"));
      }
      var claims := cred.claims;
      var route := Classify(verb, segs);
      if route.NoRoute? {
        return Response(404, RouteError("Route not found"));
      }
      var owner := Owner(claims, route.user);
      if owner.None? {
        return Response(403, Detail("Not authorized"));
      }
      var uid := owner.value;
      match route {
        case ListTasks(_) =>
          resp := Response(200, TaskList(TasksOf(todos, uid)));
        case FetchTask(_, task) =>
          match Lookup(todos, ParseInt(task), uid) {
            case None => resp := Response(404, Detail("Task not found"));
            case Some(t) => resp := Response(200, OneTask(t));
          }
        case CreateTask(_) =>
          resp := Create(uid, req.body, now);
        case UpdateTask(_, task) =>
          resp := Update(uid, ParseInt(task), req.body, now);
        case CompleteTask(_, task) =>
          resp := Complete(uid, ParseInt(task), CompletionFlag(req.isCompletedParam), now);
        case DeleteTask(_, task) =>
          resp := Delete(uid, ParseInt(task));
      }
    }

    /** POST (lines 73-90): `todos.push(newTodo)`. */
    method Create(owner: int, body: map<string, Value>, now: string) returns (resp: Response)
      modifies this
      ensures Outcome(todos, resp) == Created(old(todos), owner, body, now)
    {
      var t := NewTask(|todos| + 1, owner, body, now);
      todos := todos + [t];
      resp := Response(201, OneTask(t));
    }

    /** PUT (lines 102-120): `todos[todoIndex] = {...}` with the merge. */
    method Update(owner: int, taskId: Option<int>, body: map<string, Value>, now: string) returns (resp: Response)
      modifies this
      ensures Outcome(todos, resp) == Updated(old(todos), owner, taskId, body, now)
    {
      var i := FindTask(todos, taskId, owner);
      if i == -1 {
        resp := Response(404, Detail("Task not found"));
      } else {
        todos := todos[i := Merge(todos[i], body, now)];
        resp := Response(200, OneTask(todos[i]));
      }
    }

    /** PATCH (lines 132-146): `todos[todoIndex] = {...}` with the new flag. */
    method Complete(owner: int, taskId: Option<int>, done: bool, now: string) returns (resp: Response)
      modifies this
      ensures Outcome(todos, resp) == Completed(old(todos), owner, taskId, done, now)
    {
      var i := FindTask(todos, taskId, owner);
      if i == -1 {
        resp := Response(404, Detail("Task not found"));
      } else {
        todos := todos[i := MarkCompleted(todos[i], done, now)];
        resp := Response(200, Message("Task updated successfully"));
      }
    }

    /** DELETE (lines 158-164): `todos.splice(todoIndex, 1)`. */
    method Delete(owner: int, taskId: Option<int>) returns (resp: Response)
      modifies this
      ensures Outcome(todos, resp) == Deleted(old(todos), owner, taskId)
    {
      var i := FindTask(todos, taskId, owner);
      if i == -1 {
        resp := Response(404, Detail("Task not found"));
      } else {
        todos := RemoveAt(todos, i);
        resp := Response(200, Message("Task deleted successfully"));
      }
    }
  }
}
