/**
 * The HTTP-shaped request a handler receives and what it hands back:
 * a response and a Go `error`, or a process exit through `log.Fatalf`.
 */
module Events {
  import opened TaskModel
  import opened Store

  /** The request body after JSON decoding into a `Task`, or the decoding error. */
  datatype Payload = Json(task: Task) | Malformed(reason: string)

  datatype Request = Request(
    httpMethod: string,
    pathParameters: map<string, string>,
    queryStringParameters: map<string, string>,
    body: Payload)

  /** A response body: plain text, or the JSON array of the listed tasks. */
  datatype Body = Text(text: string) | TaskList(tasks: seq<Task>)

  datatype Response = Response(statusCode: int, body: Body)

  /**
   * `Returned(resp, err)` is a Go return of `(resp, err)` with `err == None`
   * for `nil`; `Exited(msg)` is `log.Fatalf(msg)`, which ends the process.
   */
  datatype Outcome = Returned(response: Response, error: Option<string>) | Exited(message: string)

  /** The storage calls a handler issued, in order, and how it ended. */
  datatype Handled = Handled(calls: seq<Call>, outcome: Outcome)

  const StatusOK := 200
  const StatusCreated := 201
  const StatusBadRequest := 400
  const StatusMethodNotAllowed := 405
  const StatusInternalServerError := 500

  /** Go's `m[k]` on a `map[string]string`: the zero value "" for a missing key. */
  function Param(m: map<string, string>, k: string): string
  {
    if k in m then m[k] else ""
  }

  /** A plain-text response with `status` and a nil error. */
  function Plain(status: int, text: string): Outcome
  {
    Returned(Response(status, Text(text)), None)
  }
}
