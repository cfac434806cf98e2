/**
 * The breakglass demo workflow (internal/demos/breakglass/workflow.go): the
 * requested action picks one of three activities, whose boolean outcome is
 * mapped onto the result. CompletedAt is left out.
 */
module Breakglass {
  import opened GoTypes

  datatype BreakglassWorkflowInput = BreakglassWorkflowInput(
    serviceID: string,
    action: string,
    parameters: map<string, string>,
    requestedBy: string)

  datatype BreakglassWorkflowResult = BreakglassWorkflowResult(
    serviceID: string,
    action: string,
    success: bool,
    message: string)

  const RestartServiceActivity := "RestartServiceActivity"
  const ScaleServiceActivity := "ScaleServiceActivity"
  const RollbackServiceActivity := "RollbackServiceActivity"

  /** The activity an action runs, if the action is supported. */
  function ActivityFor(action: string): (name: Option<string>)
    ensures name.Some? <==> action in {"restart", "scale", "rollback"}
    ensures action == "restart" ==> name == Some(RestartServiceActivity)
    ensures action == "scale" ==> name == Some(ScaleServiceActivity)
    ensures action == "rollback" ==> name == Some(RollbackServiceActivity)
  {
    if action == "restart" then Some(RestartServiceActivity)
    else if action == "scale" then Some(ScaleServiceActivity)
    else if action == "rollback" then Some(RollbackServiceActivity)
    else None
  }

  /** The workflow's `(*BreakglassWorkflowResult, error)` and the activities
      it ran, in order. */
  datatype BreakglassRun = BreakglassRun(result: Ret<BreakglassWorkflowResult>, calls: seq<string>)

  /** BreakglassWorkflow. `activity(name, input)` is the named activity's
      outcome. */
  function BreakglassWorkflow(input: BreakglassWorkflowInput, activity: (string, BreakglassWorkflowInput) -> Outcome<bool>): (run: BreakglassRun)
    ensures run.result.value.serviceID == input.serviceID && run.result.value.action == input.action
    ensures ActivityFor(input.action).None? ==>
      run == BreakglassRun(Ret(BreakglassWorkflowResult(input.serviceID, input.action, false, "Unsupported action"), None), [])
    ensures ActivityFor(input.action).Some? ==>
      var name := ActivityFor(input.action).value;
      var a := activity(name, input);
      && run.calls == [name]
      && (a.Err? ==> !run.result.value.success && run.result.value.message == a.msg && run.result.err == Some(a.msg))
      && (a.Ok? ==> run.result.err == None && run.result.value.success == a.value)
      && (a.Ok? && a.value ==> run.result.value.message == "Breakglass action completed successfully")
      && (a.Ok? && !a.value ==> run.result.value.message == "Breakglass action failed")
    ensures run.result.value.success ==> run.result.err == None && |run.calls| == 1
  {
    var result := BreakglassWorkflowResult(input.serviceID, input.action, false, "");
    match ActivityFor(input.action)
    case None => BreakglassRun(Ret(result.(success := false, message := "Unsupported action"), None), [])
    case Some(name) =>
      match activity(name, input)
      case Err(e) => BreakglassRun(Ret(result.(success := false, message := e), Some(e)), [name])
      case Ok(ok) =>
        var r := result.(success := ok);
        if ok then BreakglassRun(Ret(r.(message := "Breakglass action completed successfully"), None), [name])
        else BreakglassRun(Ret(r.(message := "Breakglass action failed"), None), [name])
  }
}
