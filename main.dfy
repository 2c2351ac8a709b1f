/**
 * lambda/main.go: the Lambda entry point `handler`, and the package-main copies
 * of the handlers, which repeat the task package's steps with the field switch
 * written inline.
 */
module Lambda {
  import opened TaskModel
  import opened Store
  import opened Events
  import TaskRead
  import TaskCreate

  /**
   * `getTaskById(id)`: query the rows of `id`, group them with the inlined switch,
   * list the tasks; it answers as the package's `GetTaskById` does.
   */
  method GetTaskById(id: string, svc: Svc) returns (h: Handled)
    ensures TaskRead.FetchedById(id, svc, h)
  {
    var calls := [QueryById(id)];
    match svc.query {
      case Err(e) =>
        h := Handled(calls, Plain(StatusInternalServerError, "Query failed: " + e));
      case Ok(rows) =>
        var taskMap := TaskRead.GroupRowsInline(rows);
        var tasks;
        ghost var keys;
        tasks, keys := TaskRead.Flatten(taskMap);
        TaskRead.MaterializedIdsMatchKeys(rows);
        TaskRead.ListedFromKeys(tasks, keys, TaskRead.Materialize(rows));
        h := Handled(calls, Returned(Response(StatusOK, TaskList(tasks)), None));
    }
  }

  /** `getTasksByTitle(request)`: the reverse lookup of `("Title", QueryStringParameters["title"])`. */
  method GetTasksByTitle(request: Request, svc: Svc) returns (h: Handled)
    ensures TaskRead.Answered("Title", Param(request.queryStringParameters, "title"),
                              TaskRead.WithError("Failed to retrieve tasks by IDs: "), svc, h)
  {
    var title := Param(request.queryStringParameters, "title");
    h := TaskRead.ResolveByAttribute("Title", title, TaskRead.WithError("Failed to retrieve tasks by IDs: "), svc);
  }

  /** `getTasksByStatus(request)`: the reverse lookup of `("Status", QueryStringParameters["status"])`. */
  method GetTasksByStatus(request: Request, svc: Svc) returns (h: Handled)
    ensures TaskRead.Answered("Status", Param(request.queryStringParameters, "status"),
                              TaskRead.WithError("Failed to retrieve tasks by IDs: "), svc, h)
  {
    var status := Param(request.queryStringParameters, "status");
    h := TaskRead.ResolveByAttribute("Status", status, TaskRead.WithError("Failed to retrieve tasks by IDs: "), svc);
  }

  /** `getTasksByTag(request)`: the reverse lookup of `("Tags", QueryStringParameters["tag"])`. */
  method GetTasksByTag(request: Request, svc: Svc) returns (h: Handled)
    ensures TaskRead.Answered("Tags", Param(request.queryStringParameters, "tag"),
                              TaskRead.WithError("Failed to retrieve tasks by IDs: "), svc, h)
  {
    var tag := Param(request.queryStringParameters, "tag");
    h := TaskRead.ResolveByAttribute("Tags", tag, TaskRead.WithError("Failed to retrieve tasks by IDs: "), svc);
  }

  /**
   * `handler(request)`: GET answers `getTaskById(PathParameters["id"])`, POST answers
   * `createTask(request)`, and any other method 405 "Method not allowed" without
   * touching the store.
   */
  method Handler(request: Request, encodeTags: seq<string> -> string, svc: Svc) returns (h: Handled)
    ensures request.httpMethod == "GET" ==> TaskRead.FetchedById(Param(request.pathParameters, "id"), svc, h)
    ensures request.httpMethod == "POST" ==> TaskCreate.Created(request.body, encodeTags, svc, h)
    ensures request.httpMethod != "GET" && request.httpMethod != "POST" ==>
              h == Handled([], Plain(StatusMethodNotAllowed, "Method not allowed"))
  {
    match request.httpMethod {
      case "GET" =>
        h := GetTaskById(Param(request.pathParameters, "id"), svc);
      case "POST" =>
        h := TaskCreate.CreateTask(request.body, encodeTags, svc);
      case _ =>
        h := Handled([], Plain(StatusMethodNotAllowed, "Method not allowed"));
    }
  }
}
