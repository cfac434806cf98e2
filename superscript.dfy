/**
 * The superscript records: one payment collection attempt (PaymentResult),
 * a batch of them (BatchResult) and the batch's success rate.
 * Durations and wall-clock timestamps are left out; StartTime and EndTime
 * are opaque ticks supplied by the caller.
 */
module Superscript {
  import opened GoTypes

  const SuperscriptTaskQueue := "superscript-task-queue"
  const SinglePaymentWorkflowType := "single-payment-workflow"
  const OrchestratorWorkflowType := "orchestrator-workflow"
  const SampleOrderID := "ORD-DEMO-123"
  const SinglePaymentScriptPath := "./internal/superscript/scripts/single_payment_collection.sh"
  const TraditionalBatchScriptPath := "./internal/superscript/scripts/traditional_payment_collection.sh"

  datatype PaymentResult = PaymentResult(
    orderID: string,
    success: bool,
    output: string,
    errorMessage: string,
    exitCode: int)

  /** Go's zero value `PaymentResult{}`. */
  const ZeroPaymentResult := PaymentResult("", false, "", "", 0)

  datatype BatchResult = BatchResult(
    orderIDs: seq<string>,
    results: seq<PaymentResult>,
    totalCount: int,
    successCount: int,
    failCount: int,
    startTime: int,
    endTime: int)

  /** `BatchResult.GetSuccessRate`: the success percentage, truncated, and 0 for
      an empty batch. It only reads the batch. */
  function GetSuccessRate(br: BatchResult): (rate: int)
    ensures br.totalCount == 0 ==> rate == 0
    ensures br.totalCount != 0 ==>
      Abs(rate) * Abs(br.totalCount) <= Abs(br.successCount * 100) < (Abs(rate) + 1) * Abs(br.totalCount)
    ensures br.totalCount != 0 && rate != 0 ==> (rate > 0 <==> (br.successCount > 0) == (br.totalCount > 0))
  {
    if br.totalCount == 0 then 0 else GoDiv(br.successCount * 100, br.totalCount)
  }

  lemma MulMonotone(t: int, x: int, y: int)
    requires t >= 0
    ensures x <= y ==> t * x <= t * y
  {
    if x <= y {
      assert t * y - t * x == t * (y - x);
    }
  }

  lemma DivMonotone(a: int, b: int, t: int)
    requires 0 <= a <= b && t > 0
    ensures a / t <= b / t
  {
    var qa, qb := a / t, b / t;
    assert t * qa <= a;
    assert b < t * qb + t;
    assert t * qa < t * (qb + 1);
    MulMonotone(t, qb + 1, qa);
  }

  lemma DivBounds(a: int, t: int)
    requires t > 0
    ensures t * (a / t) <= a < t * (a / t) + t
  {
  }

  lemma HundredTimesOver(t: int)
    requires t > 0
    ensures (t * 100) / t == 100
  {
    DivBounds(t * 100, t);
    MulMonotone(t, 100, (t * 100) / t);
    MulMonotone(t, (t * 100) / t, 100);
  }

  lemma PercentBelowHundred(s: int, t: int)
    requires 0 <= s < t
    ensures (s * 100) / t < 100
  {
    var q := (s * 100) / t;
    DivBounds(s * 100, t);
    assert t * q < t * 100;
    MulMonotone(t, 100, q);
  }

  /** The integer facts behind the percentage: for 0 <= s <= t and t > 0,
      (s * 100) / t lies in 0..100 and is 100 only when s == t. */
  lemma PercentBounds(s: int, t: int)
    requires 0 <= s <= t && t > 0
    ensures 0 <= (s * 100) / t <= 100
    ensures (s * 100) / t == 100 <==> s == t
  {
    DivMonotone(s * 100, t * 100, t);
    DivMonotone(0, s * 100, t);
    HundredTimesOver(t);
    if s < t {
      PercentBelowHundred(s, t);
    }
  }

  /** With 0 <= SuccessCount <= TotalCount the rate is a percentage, and it is
      100 exactly when every order succeeded. */
  lemma SuccessRateIsPercentage(br: BatchResult)
    requires br.totalCount > 0 && 0 <= br.successCount <= br.totalCount
    ensures 0 <= GetSuccessRate(br) <= 100
    ensures GetSuccessRate(br) == 100 <==> br.successCount == br.totalCount
  {
    GoDivNonNegative(br.successCount * 100, br.totalCount);
    PercentBounds(br.successCount, br.totalCount);
  }

  /** For a fixed positive total, more successes never lower the rate. */
  lemma SuccessRateMonotone(b1: BatchResult, b2: BatchResult)
    requires b1.totalCount == b2.totalCount > 0
    requires 0 <= b1.successCount <= b2.successCount
    ensures GetSuccessRate(b1) <= GetSuccessRate(b2)
  {
    GoDivNonNegative(b1.successCount * 100, b1.totalCount);
    GoDivNonNegative(b2.successCount * 100, b2.totalCount);
    DivMonotone(b1.successCount * 100, b2.successCount * 100, b1.totalCount);
  }
}
