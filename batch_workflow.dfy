/**
 * The fee-deduction workflow (internal/batch/workflow.go): the workflow maps
 * the activity's outcome onto its result, and the activity maps the fee
 * service's HTTP response onto an ActivityResult. The HTTP round trip is a
 * parameter from the URL and payload to what came back.
 */
module BatchWorkflow {
  import opened GoTypes
  import opened Strings
  import opened BatchActivities

  datatype FeeDeductionWorkflowInput = FeeDeductionWorkflowInput(accountID: string, orderID: string, amount: int)

  /** The workflow's result; its Timestamp is left out. */
  datatype FeeDeductionWorkflowResult = FeeDeductionWorkflowResult(newBalance: int, success: bool, message: string, orderID: string)

  datatype ActivityInput = ActivityInput(accountID: string, orderID: string, amount: int)

  datatype ActivityResult = ActivityResult(newBalance: int, success: bool, error: string)

  /** FeeDeductionWorkflow. `activity` is DeductFeeActivity's outcome for its
      input. The result pointer is never nil; the activity's error, if any, is
      returned beside it. */
  function FeeDeductionWorkflow(input: FeeDeductionWorkflowInput, activity: ActivityInput -> Outcome<ActivityResult>): (r: Ret<FeeDeductionWorkflowResult>)
    ensures r.value.orderID == input.orderID
    ensures var a := activity(ActivityInput(input.accountID, input.orderID, input.amount));
      && (a.Err? ==> r.err == Some(a.msg) && !r.value.success && r.value.message == "Activity execution failed: " + a.msg)
      && (a.Ok? ==> r.err == None && r.value.newBalance == a.value.newBalance && r.value.success == a.value.success)
      && (a.Ok? ==> r.value.message == if a.value.success then "Fee deduction successful" else a.value.error)
  {
    var result := FeeDeductionWorkflowResult(0, false, "", input.orderID);
    match activity(ActivityInput(input.accountID, input.orderID, input.amount))
    case Err(e) => Ret(result.(success := false, message := "Activity execution failed: " + e), Some(e))
    case Ok(a) =>
      var r := result.(newBalance := a.newBalance, success := a.success);
      if !a.success then Ret(r.(message := a.error), None)
      else Ret(r.(message := "Fee deduction successful"), None)
  }

  /** How the activity's HTTP call went, step by step. */
  datatype HttpExchange =
    | MarshalFailed(err: string)
    | RequestBuildFailed(err: string)
    | TransportFailed(err: string)
    | BodyReadFailed(err: string)
    | Responded(status: int, body: string, decoded: Outcome<FeeDeductionResponse>)

  const ServiceURL := "http://localhost:8080/deduct-fee"

  /** The URL the activity posts to: the order ID is the last path segment. */
  function DeductFeeURL(orderID: string): string
  {
    ServiceURL + "/" + orderID
  }

  /** DeductFeeActivity. `send` performs the POST of the payload to the URL.
      The Go error is always nil: every failure is an unsuccessful result
      carrying its text, and success needs a 200 whose decoded body says so. */
  function DeductFeeActivity(input: ActivityInput, send: (string, FeeDeductionRequest) -> HttpExchange): (r: Ret<Option<ActivityResult>>)
    ensures r.err == None && r.value.Some?
    ensures var x := send(DeductFeeURL(input.orderID), FeeDeductionRequest(input.accountID, input.amount));
      && (r.value.value.success <==> x.Responded? && x.status == 200 && x.decoded.Ok? && x.decoded.value.success)
      && (r.value.value.success ==> r.value.value == ActivityResult(x.decoded.value.newBalance, true, ""))
      && (!r.value.value.success ==> r.value.value.newBalance == 0)
    ensures var x := send(DeductFeeURL(input.orderID), FeeDeductionRequest(input.accountID, input.amount));
      && (x.MarshalFailed? ==> r.value.value.error == "Failed to marshal JSON: " + x.err)
      && (x.RequestBuildFailed? ==> r.value.value.error == "Failed to create request: " + x.err)
      && (x.TransportFailed? ==> r.value.value.error == "HTTP request failed: " + x.err)
      && (x.BodyReadFailed? ==> r.value.value.error == "Failed to read response: " + x.err)
    ensures var x := send(DeductFeeURL(input.orderID), FeeDeductionRequest(input.accountID, input.amount));
      x.Responded? && x.status != 200 ==>
      r.value.value.error == "Unexpected status code: " + IntToDecimal(x.status) + ", body: " + x.body
    ensures var x := send(DeductFeeURL(input.orderID), FeeDeductionRequest(input.accountID, input.amount));
      x.Responded? && x.status == 200 && x.decoded.Err? ==>
      r.value.value.error == "Failed to parse response: " + x.decoded.msg
    ensures var x := send(DeductFeeURL(input.orderID), FeeDeductionRequest(input.accountID, input.amount));
      x.Responded? && x.status == 200 && x.decoded.Ok? && !x.decoded.value.success ==>
      r.value.value.error == x.decoded.value.message
  {
    var x := send(DeductFeeURL(input.orderID), FeeDeductionRequest(input.accountID, input.amount));
    var failed := (msg: string) => Ret(Some(ActivityResult(0, false, msg)), None);
    match x
    case MarshalFailed(e) => failed("Failed to marshal JSON: " + e)
    case RequestBuildFailed(e) => failed("Failed to create request: " + e)
    case TransportFailed(e) => failed("HTTP request failed: " + e)
    case BodyReadFailed(e) => failed("Failed to read response: " + e)
    case Responded(status, body, decoded) =>
      if status != 200 then failed("Unexpected status code: " + IntToDecimal(status) + ", body: " + body)
      else
        match decoded
        case Err(e) => failed("Failed to parse response: " + e)
        case Ok(response) =>
          if !response.success then failed(response.message)
          else Ret(Some(ActivityResult(response.newBalance, true, "")), None)
  }

  /** A non-200 response is reported with its status and body. */
  lemma UnexpectedStatusMessage(input: ActivityInput, status: int, body: string, decoded: Outcome<FeeDeductionResponse>)
    requires status != 200
    ensures DeductFeeActivity(input, (url, req) => Responded(status, body, decoded)).value.value.error
         == "Unexpected status code: " + IntToDecimal(status) + ", body: " + body
  {
  }

  /** End to end: when the activity's request reaches the fee service's
      handler, serving a store with `balances`, and the handler's response
      comes back intact, the activity succeeds exactly when the request is
      well-formed and the deduction goes through, and it reports the new
      balance the store computed. */
  lemma ActivityOverHandler(balances: map<string, int>, input: ActivityInput, body: string)
    ensures
      var out := HandlerResponse(balances, "POST", DeductFeePrefix + input.orderID,
                                 BodyRead(Some(FeeDeductionRequest(input.accountID, input.amount))));
      var send := (url: string, req: FeeDeductionRequest) =>
        if out.Respond? then Responded(out.status, body, Ok(out.response)) else TransportFailed("EOF");
      var r := DeductFeeActivity(input, send).value.value;
      && (r.success <==> input.orderID != "" && input.accountID != "" && input.amount > 0
                          && Deduct(balances, input.accountID, input.amount).err == None)
      && (r.success ==> r.newBalance == Deduct(balances, input.accountID, input.amount).returned)
  {
    var path := DeductFeePrefix + input.orderID;
    OrderIDFromRoute(input.orderID);
    assert path[12..] == input.orderID;
  }
}
