/**
 * The iWF variant of the superscript workflows. The single-payment workflow's
 * one state maps the script activity's outcome onto a PaymentResult; the
 * orchestrator's StartChildren state issues one child-workflow command per
 * order and persists a pre-sized BatchResult, its Decide step fills that batch
 * from (mocked) child results, and the AggregateResults state stamps EndTime.
 *
 * Decoding the state input and the activity call are parameters; the data
 * attributes the states share are a value that Start returns and Decide reads.
 * `PaymentResult.Error`, which these states write, is the record's
 * ErrorMessage field.
 */
module IwfSuperscript {
  import opened GoTypes
  import opened Superscript

  const StateCollectPayment := "COLLECT_PAYMENT"
  const StateStartChildren := "START_CHILDREN"
  const StateAggregateResults := "AGGREGATE_RESULTS"
  const SinglePaymentWfType := "single-payment-wf"
  const OrchestratorWfType := "orchestrator-wf"
  const DefaultConcurrency := 3

  /** What a state hands back to iWF: a decision that completes the workflow
      with an output, or a Go error. */
  datatype StateResult<+T> = ForceCompleteWorkflow(output: T) | StateError(err: string)

  /** CollectPaymentState.Execute. `input` is the decoded order ID (or the
      decode error) and `activity` runs the payment script for an order. */
  function CollectPayment(input: Outcome<string>, activity: string -> Outcome<PaymentResult>): (r: StateResult<PaymentResult>)
    ensures input.Err? ==> r == StateError(input.msg)
    ensures input.Ok? ==> r.ForceCompleteWorkflow? && r.output.orderID == input.value
    ensures input.Ok? ==> (r.output.success <==> activity(input.value).Ok? && activity(input.value).value.success)
    ensures input.Ok? && activity(input.value).Err? ==>
      r.output.errorMessage == activity(input.value).msg && r.output.output == "" && r.output.exitCode == 0
    ensures input.Ok? && activity(input.value).Ok? ==>
      var a := activity(input.value).value;
      && r.output.output == a.output && r.output.exitCode == a.exitCode
      && r.output.errorMessage == (if a.success then "" else a.errorMessage)
  {
    match input
    case Err(e) => StateError(e)
    case Ok(orderID) =>
      var base := PaymentResult(orderID, false, "", "", 0);
      match activity(orderID)
      case Err(e) => ForceCompleteWorkflow(base.(errorMessage := e))
      case Ok(result) =>
        if !result.success then
          ForceCompleteWorkflow(base.(errorMessage := result.errorMessage, output := result.output, exitCode := result.exitCode))
        else
          ForceCompleteWorkflow(base.(success := true, output := result.output, exitCode := result.exitCode))
  }

  /** OrchestratorWorkflowParams: RunDate is only logged and is left out. */
  datatype OrchestratorParams = OrchestratorParams(orderIDs: seq<string>, maxConcurrent: int)

  /** The concurrency Start computes (and only logs). */
  function EffectiveConcurrency(maxConcurrent: int): (c: int)
    ensures c > 0
    ensures maxConcurrent > 0 ==> c == maxConcurrent
    ensures maxConcurrent <= 0 ==> c == DefaultConcurrency
  {
    if maxConcurrent <= 0 then DefaultConcurrency else maxConcurrent
  }

  datatype IdReusePolicy = RejectDuplicate

  /** An `iwf.ExecuteWorkflow` command; its input is the child's order ID. */
  datatype ExecuteWorkflow = ExecuteWorkflow(workflowType: string, orderID: string, workflowID: string, policy: IdReusePolicy)

  function ChildCommand(parentWorkflowID: string, orderID: string): ExecuteWorkflow
  {
    ExecuteWorkflow(SinglePaymentWfType, orderID, parentWorkflowID + "-" + orderID, RejectDuplicate)
  }

  /** Within one parent, distinct orders get distinct child workflow IDs. */
  lemma ChildWorkflowIDInjective(parentWorkflowID: string, a: string, b: string)
    requires ChildCommand(parentWorkflowID, a).workflowID == ChildCommand(parentWorkflowID, b).workflowID
    ensures a == b
  {
    var n := |parentWorkflowID + "-"|;
    assert (parentWorkflowID + "-" + a)[n..] == a;
    assert (parentWorkflowID + "-" + b)[n..] == b;
  }

  /** The data attributes "orderIDs" and "batchResult"; None is never set. */
  datatype DataAttributes = DataAttributes(orderIDs: Option<seq<string>>, batchResult: Option<BatchResult>)

  /** What Start returns to iWF: the command request, or a Go error. */
  datatype StartResult = StartFailed(err: string) | CommandRequest(commands: seq<ExecuteWorkflow>)

  /** The BatchResult Start persists: Results pre-sized with zero values. */
  function PresizedBatch(orderIDs: seq<string>, startTime: int): (b: BatchResult)
    ensures |b.results| == b.totalCount == |orderIDs| && b.orderIDs == orderIDs
    ensures b.successCount == 0 && b.failCount == 0
    ensures forall i :: 0 <= i < |b.results| ==> b.results[i] == ZeroPaymentResult
  {
    BatchResult(orderIDs, seq(|orderIDs|, _ => ZeroPaymentResult), |orderIDs|, 0, 0, startTime, 0)
  }

  /** StartChildrenState.Start. `parentWorkflowID` is ctx.GetWorkflowId();
      `startTime` and `endTime` are the two clock readings. */
  method Start(input: Outcome<OrchestratorParams>, parentWorkflowID: string, attrs: DataAttributes, startTime: int, endTime: int)
    returns (r: StartResult, attrs': DataAttributes)
    ensures input.Err? ==> r == StartFailed("unable to decode input for StartChildrenState: " + input.msg) && attrs' == attrs
    ensures input.Ok? && |input.value.orderIDs| == 0 ==>
      r == CommandRequest([]) && attrs' == attrs.(batchResult := Some(PresizedBatch([], startTime).(endTime := endTime)))
    ensures input.Ok? && |input.value.orderIDs| > 0 ==>
      var ids := input.value.orderIDs;
      && r.CommandRequest? && |r.commands| == |ids|
      && (forall i :: 0 <= i < |ids| ==> r.commands[i] == ChildCommand(parentWorkflowID, ids[i]))
      && attrs' == DataAttributes(Some(ids), Some(PresizedBatch(ids, startTime)))
  {
    if input.Err? {
      return StartFailed("unable to decode input for StartChildrenState: " + input.msg), attrs;
    }
    var params := input.value;
    var concurrency := EffectiveConcurrency(params.maxConcurrent);
    var batch := PresizedBatch(params.orderIDs, startTime);
    if |params.orderIDs| == 0 {
      batch := batch.(endTime := endTime);
      return CommandRequest([]), attrs.(batchResult := Some(batch));
    }
    var commands: seq<ExecuteWorkflow> := [];
    var i := 0;
    while i < |params.orderIDs|
      invariant 0 <= i <= |params.orderIDs|
      invariant |commands| == i
      invariant forall k :: 0 <= k < i ==> commands[k] == ChildCommand(parentWorkflowID, params.orderIDs[k])
    {
      var orderID := params.orderIDs[i];
      commands := commands + [ExecuteWorkflow(SinglePaymentWfType, orderID, parentWorkflowID + "-" + orderID, RejectDuplicate)];
      i := i + 1;
    }
    attrs' := attrs.(orderIDs := Some(params.orderIDs), batchResult := Some(batch));
    r := CommandRequest(commands);
  }

  /** The child result Decide records for every order (the child outcomes are
      not read back; every child is taken to have succeeded). */
  function MockChildResult(orderID: string): PaymentResult
  {
    PaymentResult(orderID, true, "Payment processed successfully", "", 0)
  }

  /** What Decide hands back: the completed batch, or the index-out-of-range
      panic raised when Results is shorter than the order list. */
  datatype DecideResult = Completed(batch: BatchResult) | IndexPanic(index: int)

  /** Go's zero BatchResult, which GetDataAttribute leaves when nothing is stored. */
  const ZeroBatch := BatchResult([], [], 0, 0, 0, 0, 0)

  /** The orders Decide reads. */
  function StoredOrderIDs(attrs: DataAttributes): seq<string>
  {
    if attrs.orderIDs.Some? then attrs.orderIDs.value else []
  }

  function StoredBatch(attrs: DataAttributes): BatchResult
  {
    if attrs.batchResult.Some? then attrs.batchResult.value else ZeroBatch
  }

  /** Decide's outcome, stated over the stored attributes. It panics exactly
      when there are orders and the stored Results is shorter than them.
      Otherwise each order's mock result sits at its index, the rest of
      Results and FailCount are kept, and only an empty order list sets
      EndTime. */
  function DecideSpec(attrs: DataAttributes, endTime: int): (r: DecideResult)
    ensures r.IndexPanic? <==> |StoredOrderIDs(attrs)| > 0 && |StoredBatch(attrs).results| < |StoredOrderIDs(attrs)|
    ensures r.Completed? ==>
      && r.batch.failCount == StoredBatch(attrs).failCount
      && r.batch.successCount == StoredBatch(attrs).successCount + |StoredOrderIDs(attrs)|
      && |r.batch.results| == |StoredBatch(attrs).results|
      && r.batch.totalCount == StoredBatch(attrs).totalCount
    ensures r.Completed? ==>
      && |StoredOrderIDs(attrs)| <= |r.batch.results|
      && (forall i :: 0 <= i < |StoredOrderIDs(attrs)| ==> r.batch.results[i] == MockChildResult(StoredOrderIDs(attrs)[i]))
      && r.batch.results[|StoredOrderIDs(attrs)|..] == StoredBatch(attrs).results[|StoredOrderIDs(attrs)|..]
    ensures |StoredOrderIDs(attrs)| == 0 ==> r == Completed(StoredBatch(attrs).(endTime := endTime))
    ensures |StoredOrderIDs(attrs)| > 0 && r.Completed? ==>
      r.batch == StoredBatch(attrs).(results := r.batch.results, successCount := r.batch.successCount)
  {
    var ids := StoredOrderIDs(attrs);
    var b := StoredBatch(attrs);
    if |ids| == 0 then Completed(b.(endTime := endTime))
    else if |b.results| < |ids| then IndexPanic(|b.results|)
    else Completed(b.(results := seq(|ids|, i requires 0 <= i < |ids| => MockChildResult(ids[i])) + b.results[|ids|..],
                      successCount := b.successCount + |ids|))
  }

  /** StartChildrenState.Decide: writes Results[i] for every stored order and
      counts each mock result by its Success flag. */
  method Decide(attrs: DataAttributes, endTime: int) returns (r: DecideResult)
    ensures r == DecideSpec(attrs, endTime)
  {
    var orderIDs := StoredOrderIDs(attrs);
    var batch := StoredBatch(attrs);
    if |orderIDs| == 0 {
      return Completed(batch.(endTime := endTime));
    }
    var i := 0;
    while i < |orderIDs|
      invariant 0 <= i <= |orderIDs|
      invariant i <= |batch.results|
      invariant batch == StoredBatch(attrs).(results := batch.results, successCount := batch.successCount)
      invariant |batch.results| == |StoredBatch(attrs).results|
      invariant batch.successCount == StoredBatch(attrs).successCount + i
      invariant forall k :: 0 <= k < i ==> batch.results[k] == MockChildResult(orderIDs[k])
      invariant batch.results[i..] == StoredBatch(attrs).results[i..]
    {
      if i >= |batch.results| {
        return IndexPanic(i);
      }
      var result := MockChildResult(orderIDs[i]);
      batch := batch.(results := batch.results[i := result]);
      if result.success {
        batch := batch.(successCount := batch.successCount + 1);
      } else {
        batch := batch.(failCount := batch.failCount + 1);
      }
      i := i + 1;
    }
    r := Completed(batch);
    assert batch.results == seq(|orderIDs|, k requires 0 <= k < |orderIDs| => MockChildResult(orderIDs[k])) + StoredBatch(attrs).results[|orderIDs|..];
  }

  /** Start followed by Decide on a non-empty order list: every order is
      recorded at its own index as a success, the counts add up to the total
      and the success rate is 100. */
  lemma StartThenDecide(orderIDs: seq<string>, attrs: DataAttributes, startTime: int, endTime: int)
    requires |orderIDs| > 0
    ensures var d := DecideSpec(DataAttributes(Some(orderIDs), Some(PresizedBatch(orderIDs, startTime))), endTime);
      && d.Completed?
      && |d.batch.results| == |orderIDs|
      && (forall i :: 0 <= i < |orderIDs| ==> d.batch.results[i].orderID == orderIDs[i] && d.batch.results[i].success)
      && d.batch.successCount == d.batch.totalCount == |orderIDs| && d.batch.failCount == 0
      && d.batch.successCount + d.batch.failCount == d.batch.totalCount
      && GetSuccessRate(d.batch) == 100
  {
    var d := DecideSpec(DataAttributes(Some(orderIDs), Some(PresizedBatch(orderIDs, startTime))), endTime);
    SuccessRateIsPercentage(d.batch);
  }

  /** Start followed by Decide on an empty order list: the batch Start stored
      comes back with nothing counted and only EndTime set again. */
  lemma StartThenDecideEmpty(attrs: DataAttributes, startTime: int, t1: int, t2: int)
    requires attrs.orderIDs == None
    ensures DecideSpec(attrs.(batchResult := Some(PresizedBatch([], startTime).(endTime := t1))), t2)
         == Completed(BatchResult([], [], 0, 0, 0, startTime, t2))
    ensures GetSuccessRate(BatchResult([], [], 0, 0, 0, startTime, t2)) == 0
  {
  }

  /** AggregateResultsState.Execute: only EndTime changes. */
  function AggregateResults(input: Outcome<BatchResult>, now: int): (r: StateResult<BatchResult>)
    ensures input.Err? ==> r == StateError("unable to decode input for AggregateResultsState: " + input.msg)
    ensures input.Ok? ==>
      r.ForceCompleteWorkflow? && r.output.endTime == now && r.output == input.value.(endTime := r.output.endTime)
    ensures input.Ok? ==> GetSuccessRate(r.output) == GetSuccessRate(input.value)
  {
    match input
    case Err(e) => StateError("unable to decode input for AggregateResultsState: " + e)
    case Ok(b) => ForceCompleteWorkflow(b.(endTime := now))
  }
}
