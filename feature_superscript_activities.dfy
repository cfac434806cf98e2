/**
 * The payment-collection activity of the superscript feature
 * (internal/features/superscript/activities.go): it picks the script by
 * order ID under a configurable base path, reports the process's own exit
 * status, and also returns an error when the script fails.
 *
 * Running the shell command is a parameter from the command line to the
 * captured output and exit status. ExecutionTime and Timestamp are left out.
 */
module FeatureSuperscriptActivities {
  import opened GoTypes
  import opened Strings
  import opened Superscript

  /** What running a command gave back: its output and its exit status. */
  datatype Execution = Execution(output: string, exitStatus: int)

  datatype Activities = Activities(scriptBasePath: string)

  /** The order that selects the always-succeeding script. */
  const HappyOrderID := "4242"

  /** The script to run for an order. */
  function ScriptPath(a: Activities, orderID: string): (path: string)
    ensures orderID == HappyOrderID ==> path == a.scriptBasePath + "./scripts/happy_payment_collection.sh"
    ensures orderID != HappyOrderID ==> path == a.scriptBasePath + "./scripts/single_payment_collection.sh"
  {
    if orderID == HappyOrderID then a.scriptBasePath + "./scripts/happy_payment_collection.sh"
    else a.scriptBasePath + "./scripts/single_payment_collection.sh"
  }

  function PaymentCommand(a: Activities, orderID: string): string
  {
    ScriptPath(a, orderID) + " " + orderID
  }

  /** RunPaymentCollectionScript: the result is always there; a non-zero exit
      status also comes back as an error. */
  function RunPaymentCollectionScript(a: Activities, orderID: string, exec: string -> Execution): (r: Ret<Option<PaymentResult>>)
    ensures r.value.Some?
    ensures var run := exec(PaymentCommand(a, orderID));
      var p := r.value.value;
      && p.orderID == orderID && p.output == run.output && p.exitCode == run.exitStatus
      && (p.success <==> run.exitStatus == 0)
      && (run.exitStatus == 0 ==> p.errorMessage == "" && r.err == None)
      && (run.exitStatus != 0 ==>
            && p.errorMessage == "Script failed with exit code: " + IntToDecimal(run.exitStatus)
            && r.err == Some("Script execution failed with exit code: " + IntToDecimal(run.exitStatus)))
  {
    var run := exec(PaymentCommand(a, orderID));
    var exitCode := run.exitStatus;
    var result := PaymentResult(orderID, exitCode == 0, run.output, "", exitCode);
    if exitCode != 0 then
      Ret(Some(result.(errorMessage := "Script failed with exit code: " + IntToDecimal(exitCode))),
          Some("Script execution failed with exit code: " + IntToDecimal(exitCode)))
    else Ret(Some(result), None)
  }

  /** The error is returned exactly when the result reports a failure. */
  lemma ErrorIffFailure(a: Activities, orderID: string, exec: string -> Execution)
    ensures var r := RunPaymentCollectionScript(a, orderID, exec);
      r.err.Some? <==> !r.value.value.success
  {
  }

  /** Exit status 2, the status of a failed payment, gives the message
      "Script failed with exit code: 2". */
  lemma ExitStatusTwoMessage(a: Activities, orderID: string, exec: string -> Execution)
    requires exec(PaymentCommand(a, orderID)).exitStatus == 2
    ensures var r := RunPaymentCollectionScript(a, orderID, exec);
      && r.value.value.errorMessage == "Script failed with exit code: 2"
      && r.err == Some("Script execution failed with exit code: 2")
  {
    assert IntToDecimal(2) == "2";
    assert "Script execution failed with exit code: " + "2" == "Script execution failed with exit code: 2";
    assert "Script failed with exit code: " + "2" == "Script failed with exit code: 2";
  }
}
