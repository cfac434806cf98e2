/**
 * The breakglass HTTP API (internal/demos/breakglass/api): routing on path
 * and method, the start handler that launches a BreakglassWorkflow, and the
 * status handler that reads a finished workflow's result.
 *
 * The Temporal client is two parameters: `start`, which gives the started
 * run's workflow ID or the error, and `lookup`, which gives a workflow's
 * result or the error. JSON decoding is reduced to "decoded or not", and the
 * current time is the already formatted "20060102150405" stamp.
 */
module BreakglassApi {
  import opened GoTypes
  import opened Breakglass

  datatype BreakglassRequest = BreakglassRequest(
    serviceID: string,
    action: string,
    parameters: map<string, string>,
    requestedBy: string)

  datatype BreakglassResponse = BreakglassResponse(
    workflowID: string,
    serviceID: string,
    action: string,
    status: string,
    message: string)

  datatype WorkflowStatus = WorkflowStatus(
    workflowID: string,
    serviceID: string,
    action: string,
    status: string,
    success: bool,
    message: string)

  /** An incoming request; `body` is None when it does not decode. */
  datatype Request = Request(httpMethod: string, path: string, query: map<string, string>, body: Option<BreakglassRequest>)

  datatype Body = PlainText(text: string) | Started(started: BreakglassResponse) | Status(workflowStatus: WorkflowStatus)

  datatype Response = Response(status: int, body: Body)

  datatype StartOptions = StartOptions(taskQueue: string, id: string)

  /** A call the handlers made on the Temporal client. */
  datatype ClientCall =
    | ExecuteWorkflowCall(options: StartOptions, input: BreakglassWorkflowInput)
    | GetWorkflowCall(workflowID: string)

  datatype Exchange = Exchange(response: Response, calls: seq<ClientCall>)

  const TaskQueue := "breakglass-task-queue"
  const StartPath := "/api/breakglass"
  const StatusPath := "/api/breakglass/status"

  /** http.Error: the text and a newline, with the status. */
  function HttpError(text: string, status: int): Response
  {
    Response(status, PlainText(text + "\n"))
  }

  /** http.NotFound. */
  const NotFound := HttpError("404 page not found", 404)

  /** `Query().Get(key)`: the value, or "" when the key is absent. */
  function QueryGet(query: map<string, string>, key: string): string
  {
    if key in query then query[key] else ""
  }

  /** The workflow ID the start handler chooses. */
  function StartWorkflowID(serviceID: string, stamp: string): string
  {
    serviceID + "-" + stamp
  }

  /** handleBreakglass. */
  function HandleBreakglass(req: Request, stamp: string, start: (StartOptions, BreakglassWorkflowInput) -> Outcome<string>): (x: Exchange)
    ensures req.body.None? ==> x == Exchange(HttpError("Invalid request body", 400), [])
    ensures req.body.Some? ==>
      var b := req.body.value;
      var options := StartOptions(TaskQueue, StartWorkflowID(b.serviceID, stamp));
      var input := BreakglassWorkflowInput(b.serviceID, b.action, b.parameters, b.requestedBy);
      && x.calls == [ExecuteWorkflowCall(options, input)]
      && (start(options, input).Err? ==> x.response == HttpError("Failed to start workflow", 500))
      && (start(options, input).Ok? ==>
            x.response == Response(200, Started(BreakglassResponse(start(options, input).value, b.serviceID, b.action, "STARTED", ""))))
  {
    match req.body
    case None => Exchange(HttpError("Invalid request body", 400), [])
    case Some(b) =>
      var options := StartOptions(TaskQueue, StartWorkflowID(b.serviceID, stamp));
      var input := BreakglassWorkflowInput(b.serviceID, b.action, b.parameters, b.requestedBy);
      var calls := [ExecuteWorkflowCall(options, input)];
      match start(options, input)
      case Err(_) => Exchange(HttpError("Failed to start workflow", 500), calls)
      case Ok(workflowID) =>
        Exchange(Response(200, Started(BreakglassResponse(workflowID, b.serviceID, b.action, "STARTED", ""))), calls)
  }

  /** handleStatus: a missing workflow_id is rejected before the client is
      asked anything. */
  function HandleStatus(req: Request, lookup: string -> Outcome<BreakglassWorkflowResult>): (x: Exchange)
    ensures QueryGet(req.query, "workflow_id") == "" <==> x.calls == []
    ensures QueryGet(req.query, "workflow_id") == "" ==> x.response == HttpError("Workflow ID is required", 400)
    ensures QueryGet(req.query, "workflow_id") != "" ==>
      var id := QueryGet(req.query, "workflow_id");
      && x.calls == [GetWorkflowCall(id)]
      && (lookup(id).Err? ==> x.response == HttpError("Failed to get workflow status", 500))
      && (lookup(id).Ok? ==> x.response == Response(200, Status(WorkflowStatus(
            id, lookup(id).value.serviceID, lookup(id).value.action, "COMPLETED",
            lookup(id).value.success, lookup(id).value.message))))
  {
    var workflowID := QueryGet(req.query, "workflow_id");
    if workflowID == "" then Exchange(HttpError("Workflow ID is required", 400), [])
    else
      var calls := [GetWorkflowCall(workflowID)];
      match lookup(workflowID)
      case Err(_) => Exchange(HttpError("Failed to get workflow status", 500), calls)
      case Ok(result) =>
        Exchange(Response(200, Status(WorkflowStatus(workflowID, result.serviceID, result.action, "COMPLETED",
                                                     result.success, result.message))), calls)
  }

  /** ServeHTTP: route on the exact path, then on the method. */
  function ServeHTTP(
    req: Request,
    stamp: string,
    start: (StartOptions, BreakglassWorkflowInput) -> Outcome<string>,
    lookup: string -> Outcome<BreakglassWorkflowResult>): (x: Exchange)
    ensures req.path == StartPath && req.httpMethod == "POST" ==> x == HandleBreakglass(req, stamp, start)
    ensures req.path == StatusPath && req.httpMethod == "GET" ==> x == HandleStatus(req, lookup)
    ensures (req.path == StartPath && req.httpMethod != "POST") || (req.path == StatusPath && req.httpMethod != "GET") ==>
      x == Exchange(HttpError("Method not allowed", 405), [])
    ensures req.path != StartPath && req.path != StatusPath ==> x == Exchange(NotFound, [])
  {
    if req.path == StartPath then
      if req.httpMethod == "POST" then HandleBreakglass(req, stamp, start)
      else Exchange(HttpError("Method not allowed", 405), [])
    else if req.path == StatusPath then
      if req.httpMethod == "GET" then HandleStatus(req, lookup)
      else Exchange(HttpError("Method not allowed", 405), [])
    else Exchange(NotFound, [])
  }

  /** Only the two routes with their own methods ever reach the Temporal
      client, and a successful response is always a 200. */
  lemma ClientReachedOnlyByRoutes(
    req: Request,
    stamp: string,
    start: (StartOptions, BreakglassWorkflowInput) -> Outcome<string>,
    lookup: string -> Outcome<BreakglassWorkflowResult>)
    ensures var x := ServeHTTP(req, stamp, start, lookup);
      x.calls != [] ==>
        (req.path == StartPath && req.httpMethod == "POST" && req.body.Some?)
        || (req.path == StatusPath && req.httpMethod == "GET" && QueryGet(req.query, "workflow_id") != "")
  {
    if req.path == StartPath && req.httpMethod == "POST" {
      var x := HandleBreakglass(req, stamp, start);
    } else if req.path == StatusPath && req.httpMethod == "GET" {
      var x := HandleStatus(req, lookup);
    }
  }

  /** The Temporal client's Get for the workflow run `run`: the workflow's
      result when it returned no error, and its error otherwise. */
  function WorkflowLookup(run: BreakglassRun): string -> Outcome<BreakglassWorkflowResult>
  {
    (id: string) => if run.result.err.Some? then Err(run.result.err.value) else Ok(run.result.value)
  }

  /** A status lookup for a workflow the start handler launched reports the
      workflow's own service and action back when the workflow returned no
      error, and a 500 when it failed. */
  lemma StatusEchoesStartedWorkflow(
    startReq: Request,
    stamp: string,
    start: (StartOptions, BreakglassWorkflowInput) -> Outcome<string>,
    activity: (string, BreakglassWorkflowInput) -> Outcome<bool>)
    requires startReq.path == StartPath && startReq.httpMethod == "POST" && startReq.body.Some?
    requires var x := HandleBreakglass(startReq, stamp, start);
      x.response.status == 200 && x.response.body.started.workflowID != ""
    ensures
      var started := HandleBreakglass(startReq, stamp, start);
      var run := BreakglassWorkflow(started.calls[0].input, activity);
      var statusReq := Request("GET", StatusPath, map["workflow_id" := started.response.body.started.workflowID], None);
      var status := HandleStatus(statusReq, WorkflowLookup(run)).response;
      && (run.result.err == None ==>
            && status.status == 200
            && status.body.workflowStatus.serviceID == startReq.body.value.serviceID
            && status.body.workflowStatus.action == startReq.body.value.action
            && status.body.workflowStatus.status == "COMPLETED")
      && (run.result.err.Some? ==> status == HttpError("Failed to get workflow status", 500))
  {
  }
}
