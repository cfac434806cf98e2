/**
 * The feature-package fee-deduction workflow (internal/features/batch): the
 * same mapping as BatchWorkflow.FeeDeductionWorkflow (internal/batch), except
 * that the activity is executed by name
 * with the workflow input itself, and the success message carries the new
 * balance in `%f` form.
 */
module FeatureBatchWorkflow {
  import opened GoTypes
  import opened Strings
  import opened BatchWorkflow

  const DeductFeeActivityName := "DeductFeeActivity"

  /** The success message: the balance with six decimals, as `%f` prints it. */
  function SuccessMessage(newBalance: int): string
  {
    "Fee deduction successful. NewBalance: " + CentsFixed(newBalance, 4)
  }

  /** FeeDeductionWorkflow. `activity` is the outcome of the activity named
      DeductFeeActivity run on the workflow input. */
  function FeeDeductionWorkflow(input: FeeDeductionWorkflowInput, activity: FeeDeductionWorkflowInput -> Outcome<ActivityResult>): (r: Ret<FeeDeductionWorkflowResult>)
    ensures r.value.orderID == input.orderID
    ensures activity(input).Err? ==>
      r.err == Some(activity(input).msg) && !r.value.success
      && r.value.message == "Activity execution failed: " + activity(input).msg
    ensures activity(input).Ok? ==>
      r.err == None && r.value.newBalance == activity(input).value.newBalance
      && r.value.success == activity(input).value.success
    ensures activity(input).Ok? && !activity(input).value.success ==> r.value.message == activity(input).value.error
    ensures activity(input).Ok? && activity(input).value.success ==>
      r.value.message == SuccessMessage(activity(input).value.newBalance)
  {
    var result := FeeDeductionWorkflowResult(0, false, "", input.orderID);
    match activity(input)
    case Err(e) => Ret(result.(success := false, message := "Activity execution failed: " + e), Some(e))
    case Ok(a) =>
      var r := result.(newBalance := a.newBalance, success := a.success);
      if !a.success then Ret(r.(message := a.error), None)
      else Ret(r.(message := SuccessMessage(r.newBalance)), None)
  }

  /** A balance of 80.00 is reported as "80.000000". */
  lemma SuccessMessageExample()
    ensures SuccessMessage(8000) == "Fee deduction successful. NewBalance: 80.000000"
  {
    CentsFixedExamples();
  }
}
