/**
 * The Temporal superscript workflows: SinglePaymentCollectionWorkflow wraps the
 * script activity; OrchestratorWorkflow starts one child per order ID, awaits
 * it, and folds its outcome into a BatchResult before starting the next.
 *
 * The child's outcome is a parameter (one per order, in input order), and so is
 * the "already started" test the code applies to a child's error.
 */
module SuperscriptWorkflow {
  import opened GoTypes
  import opened Superscript

  /** What `ExecuteChildWorkflow(...).Get` gave for one order. */
  datatype ChildOutcome = ChildDone(result: PaymentResult) | ChildFailed(err: string)

  /** SinglePaymentCollectionWorkflow: the activity's result unchanged, or
      `(nil, err)` when the activity failed. */
  function SinglePaymentCollectionWorkflow(activity: Outcome<PaymentResult>): (r: Ret<Option<PaymentResult>>)
    ensures activity.Ok? ==> r.err == None && r.value == Some(activity.value)
    ensures activity.Err? ==> r.err == Some(activity.msg) && r.value == None
  {
    match activity
    case Ok(result) => Ret(Some(result), None)
    case Err(e) => Ret(None, Some(e))
  }

  /** The deterministic child workflow ID for an order. */
  function ChildWorkflowID(orderID: string): string
  {
    SinglePaymentWorkflowType + "-" + orderID
  }

  /** Distinct orders get distinct child workflow IDs. */
  lemma ChildWorkflowIDInjective(a: string, b: string)
    requires ChildWorkflowID(a) == ChildWorkflowID(b)
    ensures a == b
  {
    var n := |SinglePaymentWorkflowType + "-"|;
    assert ChildWorkflowID(a)[n..] == a;
    assert ChildWorkflowID(b)[n..] == b;
  }

  /** The batch before any child has run. */
  function InitialBatch(orderIDs: seq<string>, startTime: int): (b: BatchResult)
  {
    BatchResult(orderIDs, [], |orderIDs|, 0, 0, startTime, 0)
  }

  /** Append one result and count it by its Success flag. */
  function Record(acc: BatchResult, result: PaymentResult): BatchResult
  {
    acc.(results := acc.results + [result],
         successCount := if result.success then acc.successCount + 1 else acc.successCount,
         failCount := if result.success then acc.failCount else acc.failCount + 1)
  }

  /** One iteration of the loop. An error the already-started test rejects is
      counted as a failure and appends nothing; an error it accepts appends the
      zero PaymentResult the failed Get left behind. */
  function Step(acc: BatchResult, outcome: ChildOutcome, alreadyStarted: string -> bool): BatchResult
  {
    match outcome
    case ChildFailed(e) =>
      if !alreadyStarted(e) then acc.(failCount := acc.failCount + 1) else Record(acc, ZeroPaymentResult)
    case ChildDone(result) => Record(acc, result)
  }

  /** The batch after the loop has handled `outcomes`, in order. */
  function Aggregate(init: BatchResult, outcomes: seq<ChildOutcome>, alreadyStarted: string -> bool): BatchResult
  {
    if |outcomes| == 0 then init
    else Step(Aggregate(init, outcomes[..|outcomes| - 1], alreadyStarted), outcomes[|outcomes| - 1], alreadyStarted)
  }

  /** What an outcome appends to Results: nothing, or one result. */
  function Appended(outcome: ChildOutcome, alreadyStarted: string -> bool): seq<PaymentResult>
  {
    match outcome
    case ChildFailed(e) => if alreadyStarted(e) then [ZeroPaymentResult] else []
    case ChildDone(result) => [result]
  }

  function AppendedAll(outcomes: seq<ChildOutcome>, alreadyStarted: string -> bool): seq<PaymentResult>
  {
    if |outcomes| == 0 then []
    else AppendedAll(outcomes[..|outcomes| - 1], alreadyStarted) + Appended(outcomes[|outcomes| - 1], alreadyStarted)
  }

  /** Number of children that returned a result whose Success flag is set. */
  function Succeeded(outcomes: seq<ChildOutcome>): (n: nat)
    ensures n <= |outcomes|
  {
    if |outcomes| == 0 then 0
    else
      var last := outcomes[|outcomes| - 1];
      Succeeded(outcomes[..|outcomes| - 1]) + (if last.ChildDone? && last.result.success then 1 else 0)
  }

  /** The fold's invariant: every outcome bumps exactly one counter, Results
      grows by what each outcome appends in input order, and only a child that
      returned a successful result is counted as a success. */
  lemma {:induction false} AggregateShape(init: BatchResult, outcomes: seq<ChildOutcome>, alreadyStarted: string -> bool)
    ensures var b := Aggregate(init, outcomes, alreadyStarted);
      && b.successCount + b.failCount == init.successCount + init.failCount + |outcomes|
      && b.successCount == init.successCount + Succeeded(outcomes)
      && b.results == init.results + AppendedAll(outcomes, alreadyStarted)
      && b == init.(results := b.results, successCount := b.successCount, failCount := b.failCount)
  {
    if |outcomes| > 0 {
      AggregateShape(init, outcomes[..|outcomes| - 1], alreadyStarted);
    }
  }

  lemma {:induction false} AppendedAllLength(outcomes: seq<ChildOutcome>, alreadyStarted: string -> bool)
    ensures |AppendedAll(outcomes, alreadyStarted)| <= |outcomes|
  {
    if |outcomes| > 0 {
      AppendedAllLength(outcomes[..|outcomes| - 1], alreadyStarted);
    }
  }

  /** When every child returned a result, Results is exactly those results,
      one per order, in input order. */
  lemma {:induction false} AppendedAllWhenAllDone(outcomes: seq<ChildOutcome>, alreadyStarted: string -> bool)
    requires forall i :: 0 <= i < |outcomes| ==> outcomes[i].ChildDone?
    ensures |AppendedAll(outcomes, alreadyStarted)| == |outcomes|
    ensures forall i :: 0 <= i < |outcomes| ==> AppendedAll(outcomes, alreadyStarted)[i] == outcomes[i].result
  {
    if |outcomes| > 0 {
      AppendedAllWhenAllDone(outcomes[..|outcomes| - 1], alreadyStarted);
    }
  }

  /** OrchestratorWorkflow. Returns the batch, the child workflow IDs it started
      (one per order, in order) and its error, which is always nil. */
  method OrchestratorWorkflow(
    orderIDs: seq<string>,
    children: seq<ChildOutcome>,
    alreadyStarted: string -> bool,
    startTime: int,
    endTime: int)
    returns (batch: BatchResult, childIDs: seq<string>, err: Option<string>)
    requires |children| == |orderIDs|
    ensures batch == Aggregate(InitialBatch(orderIDs, startTime), children, alreadyStarted).(endTime := endTime)
    ensures |childIDs| == |orderIDs|
    ensures forall i :: 0 <= i < |orderIDs| ==> childIDs[i] == ChildWorkflowID(orderIDs[i])
    ensures err == None
  {
    var acc := InitialBatch(orderIDs, startTime);
    childIDs := [];
    var i := 0;
    while i < |orderIDs|
      invariant 0 <= i <= |orderIDs|
      invariant acc == Aggregate(InitialBatch(orderIDs, startTime), children[..i], alreadyStarted)
      invariant |childIDs| == i
      invariant forall k :: 0 <= k < i ==> childIDs[k] == ChildWorkflowID(orderIDs[k])
    {
      var workflowID := ChildWorkflowID(orderIDs[i]);
      childIDs := childIDs + [workflowID];
      match children[i] {
        case ChildFailed(e) =>
          if !alreadyStarted(e) {
            acc := acc.(failCount := acc.failCount + 1);
          } else {
            acc := Record(acc, ZeroPaymentResult);
          }
        case ChildDone(result) =>
          acc := Record(acc, result);
      }
      assert children[..i + 1][..i] == children[..i];
      i := i + 1;
    }
    assert children[..i] == children;
    batch := acc.(endTime := endTime);
    err := None;
  }

  /** What the orchestrator promises whatever the children do: the counts add
      up to TotalCount, no error is ever counted as a success, Results holds at
      most one entry per order, in input order, and the success rate is a
      percentage. */
  lemma OrchestratorTotals(orderIDs: seq<string>, children: seq<ChildOutcome>, alreadyStarted: string -> bool, t0: int, t1: int)
    requires |children| == |orderIDs|
    ensures var b := Aggregate(InitialBatch(orderIDs, t0), children, alreadyStarted).(endTime := t1);
      && b.totalCount == |orderIDs| && b.orderIDs == orderIDs
      && b.successCount + b.failCount == b.totalCount
      && b.successCount == Succeeded(children)
      && b.results == AppendedAll(children, alreadyStarted)
      && |b.results| <= b.totalCount
      && 0 <= GetSuccessRate(b) <= 100
  {
    var init := InitialBatch(orderIDs, t0);
    AggregateShape(init, children, alreadyStarted);
    AppendedAllLength(children, alreadyStarted);
    var b := Aggregate(init, children, alreadyStarted).(endTime := t1);
    if b.totalCount > 0 {
      SuccessRateIsPercentage(b);
    }
  }

  /** When every child returns a result, Results[i] is order i's result. */
  lemma OrchestratorAllChildrenReturn(orderIDs: seq<string>, children: seq<ChildOutcome>, alreadyStarted: string -> bool, t0: int)
    requires |children| == |orderIDs|
    requires forall i :: 0 <= i < |children| ==> children[i].ChildDone?
    ensures var b := Aggregate(InitialBatch(orderIDs, t0), children, alreadyStarted);
      |b.results| == |orderIDs| && forall i :: 0 <= i < |orderIDs| ==> b.results[i] == children[i].result
  {
    AggregateShape(InitialBatch(orderIDs, t0), children, alreadyStarted);
    AppendedAllWhenAllDone(children, alreadyStarted);
  }

  /** When every child fails with an error the already-started test rejects,
      nothing is appended and every order is a failure. */
  lemma {:induction false} OrchestratorAllChildrenRejected(init: BatchResult, children: seq<ChildOutcome>, alreadyStarted: string -> bool)
    requires forall i :: 0 <= i < |children| ==> children[i].ChildFailed? && !alreadyStarted(children[i].err)
    ensures var b := Aggregate(init, children, alreadyStarted);
      b.results == init.results && b.successCount == init.successCount && b.failCount == init.failCount + |children|
  {
    if |children| > 0 {
      OrchestratorAllChildrenRejected(init, children[..|children| - 1], alreadyStarted);
    }
  }
}
