/**
 * The template demo workflow (internal/demos/template/workflow.go): one
 * activity call under the input's ID, mapped onto a result record. The
 * result's Timestamp and the activity options are left out.
 */
module TemplateDemo {
  import opened GoTypes

  datatype WorkflowInput = WorkflowInput(id: string)

  datatype WorkflowResult = WorkflowResult(id: string, success: bool, message: string)

  datatype ActivityInput = ActivityInput(id: string)

  datatype ActivityResult = ActivityResult(success: bool, error: string)

  /** TemplateWorkflow. `activity` is TemplateActivity's outcome for the
      input it is given. The result is never nil; an activity error is
      returned beside a failed result that carries its text. */
  function TemplateWorkflow(input: WorkflowInput, activity: ActivityInput -> Outcome<ActivityResult>): (r: Ret<WorkflowResult>)
    ensures r.value.id == input.id
    ensures var a := activity(ActivityInput(input.id));
      && (a.Err? ==> r == Ret(WorkflowResult(input.id, false, a.msg), Some(a.msg)))
      && (a.Ok? ==> r.err == None && r.value.success == a.value.success)
      && (a.Ok? && !a.value.success ==> r.value.message == a.value.error)
      && (a.Ok? && a.value.success ==> r.value.message == "")
    ensures r.value.success ==> r.err == None && r.value.message == ""
  {
    var result := WorkflowResult(input.id, false, "");
    match activity(ActivityInput(input.id))
    case Err(e) => Ret(result.(success := false, message := e), Some(e))
    case Ok(a) =>
      var r := result.(success := a.success);
      if !a.success then Ret(r.(message := a.error), None) else Ret(r, None)
  }
}
