/**
 * The payment-collection activity of the superscript demo
 * (internal/superscript/activities.go): run the single-payment script for an
 * order and report how it went as a PaymentResult.
 *
 * Running the shell command is a parameter from the command line to the
 * captured output and the error, if any. ExecutionTime and Timestamp are
 * left out.
 */
module SuperscriptActivities {
  import opened GoTypes
  import opened Strings
  import opened Superscript

  /** What running a command gave back: its output and its error text. */
  datatype Execution = Execution(output: string, err: Option<string>)

  /** The command line: the script and the order ID, separated by a space. */
  function PaymentCommand(orderID: string): string
  {
    SinglePaymentScriptPath + " " + orderID
  }

  /** The order ID is recoverable from the command line. */
  lemma PaymentCommandEndsWithOrder(orderID: string)
    ensures var cmd := PaymentCommand(orderID);
      |cmd| > |SinglePaymentScriptPath| && cmd[|SinglePaymentScriptPath| + 1..] == orderID
  {
  }

  /** RunPaymentCollectionScript. Any error from the run becomes exit code 1;
      the Go error is always nil, so a failure shows only in the result. */
  function RunPaymentCollectionScript(orderID: string, exec: string -> Execution): (r: Ret<Option<PaymentResult>>)
    ensures r.err == None && r.value.Some?
    ensures var run := exec(PaymentCommand(orderID));
      var p := r.value.value;
      && p.orderID == orderID && p.output == run.output
      && p.exitCode == (if run.err.Some? then 1 else 0)
      && (p.success <==> p.exitCode == 0)
      && p.errorMessage == (if p.success then "" else "Script failed with exit code: 1")
  {
    var run := exec(PaymentCommand(orderID));
    var exitCode := if run.err.Some? then 1 else 0;
    var result := PaymentResult(orderID, exitCode == 0, run.output, "", exitCode);
    if exitCode != 0 then
      Ret(Some(result.(errorMessage := "Script failed with exit code: " + IntToDecimal(exitCode))), None)
    else Ret(Some(result), None)
  }
}
