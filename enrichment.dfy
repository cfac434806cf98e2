/**
 * What the data-enrichment workflows share: the customer records, the
 * fan-out that starts one child workflow per customer and keeps the children
 * that returned without error, and the fetch -> merge -> store pipeline each
 * child runs.
 *
 * Child results and activity results are parameters: one outcome per child,
 * and one function per activity from its arguments to its outcome.
 */
module Enrichment {
  import opened GoTypes

  datatype Customer = Customer(id: string, name: string, email: string)

  datatype Demographics = Demographics(age: int, location: string)

  datatype EnrichedCustomer = EnrichedCustomer(customer: Customer, demographics: Demographics)

  /** Go's zero `EnrichedCustomer{}`. */
  const ZeroEnriched := EnrichedCustomer(Customer("", "", ""), Demographics(0, ""))

  const TaskQueue := "data-enrichment-demo"

  /** The children that returned a value, in input order. */
  function SuccessfulResults(children: seq<Outcome<EnrichedCustomer>>): seq<EnrichedCustomer>
  {
    if |children| == 0 then []
    else
      var last := children[|children| - 1];
      SuccessfulResults(children[..|children| - 1]) + (if last.Ok? then [last.value] else [])
  }

  /** The filter distributes over concatenation, so the kept results keep the
      children's relative order. */
  lemma {:induction false} SuccessfulResultsAppend(a: seq<Outcome<EnrichedCustomer>>, b: seq<Outcome<EnrichedCustomer>>)
    ensures SuccessfulResults(a + b) == SuccessfulResults(a) + SuccessfulResults(b)
    decreases |b|
  {
    if |b| == 0 {
      assert a + b == a;
    } else {
      assert (a + b)[..|a + b| - 1] == a + b[..|b| - 1];
      SuccessfulResultsAppend(a, b[..|b| - 1]);
    }
  }

  /** A failed child is dropped, never more results than children, and when
      every child returned, the output is all of their values. */
  lemma {:induction false} SuccessfulResultsBounds(children: seq<Outcome<EnrichedCustomer>>)
    ensures |SuccessfulResults(children)| <= |children|
    ensures (forall i :: 0 <= i < |children| ==> children[i].Err?) ==> SuccessfulResults(children) == []
    ensures (forall i :: 0 <= i < |children| ==> children[i].Ok?) ==>
      |SuccessfulResults(children)| == |children| &&
      forall i :: 0 <= i < |children| ==> SuccessfulResults(children)[i] == children[i].value
  {
    if |children| > 0 {
      SuccessfulResultsBounds(children[..|children| - 1]);
    }
  }

  /** Every kept result is the value of some successful child. */
  lemma {:induction false} SuccessfulResultsFromChildren(children: seq<Outcome<EnrichedCustomer>>, j: nat)
    requires j < |SuccessfulResults(children)|
    ensures exists i :: 0 <= i < |children| && children[i] == Ok(SuccessfulResults(children)[j])
  {
    var n := |children|;
    var prefix := SuccessfulResults(children[..n - 1]);
    if j < |prefix| {
      SuccessfulResultsFromChildren(children[..n - 1], j);
      var i :| 0 <= i < n - 1 && children[..n - 1][i] == Ok(prefix[j]);
      assert children[i] == Ok(SuccessfulResults(children)[j]);
    } else {
      assert children[n - 1] == Ok(SuccessfulResults(children)[j]);
    }
  }

  /** The fan-out both batch workflows perform: start one child per customer
      under `childID(customer.ID)`, then wait on each in order and keep the
      results of those that returned without error. The error is always nil. */
  method StartAndCollect(customers: seq<Customer>, childID: string -> string, children: seq<Outcome<EnrichedCustomer>>)
    returns (enriched: seq<EnrichedCustomer>, childIDs: seq<string>, err: Option<string>)
    requires |children| == |customers|
    ensures |childIDs| == |customers|
    ensures forall i :: 0 <= i < |customers| ==> childIDs[i] == childID(customers[i].id)
    ensures enriched == SuccessfulResults(children)
    ensures err == None
  {
    childIDs := [];
    var futures: seq<nat> := [];
    var i := 0;
    while i < |customers|
      invariant 0 <= i <= |customers|
      invariant |childIDs| == i && |futures| == i
      invariant forall k :: 0 <= k < i ==> childIDs[k] == childID(customers[k].id) && futures[k] == k
    {
      childIDs := childIDs + [childID(customers[i].id)];
      futures := futures + [i];
      i := i + 1;
    }
    enriched := [];
    var j := 0;
    while j < |futures|
      invariant 0 <= j <= |futures|
      invariant enriched == SuccessfulResults(children[..j])
    {
      assert children[..j + 1] == children[..j] + [children[futures[j]]];
      SuccessfulResultsAppend(children[..j], [children[futures[j]]]);
      assert SuccessfulResults([children[futures[j]]]) == if children[futures[j]].Ok? then [children[futures[j]].value] else [] by {
        assert [children[futures[j]]][..0] == [];
      }
      match children[futures[j]] {
        case Err(_) =>
        case Ok(value) =>
          enriched := enriched + [value];
      }
      j := j + 1;
    }
    assert children[..j] == children;
    err := None;
  }

  /** An activity the pipeline ran, with the arguments it was given. */
  datatype ActivityCall =
    | FetchDemographicsCall(customerID: Option<string>)
    | MergeDataCall(customer: Customer, demographics: Demographics)
    | StoreEnrichedDataCall(enriched: EnrichedCustomer)

  /** The workflow's `(EnrichedCustomer, error)` and the activities it ran. */
  datatype PipelineRun = PipelineRun(result: Ret<EnrichedCustomer>, calls: seq<ActivityCall>)

  /** EnrichSingleCustomerWorkflow's early-return chain. `fetchArg` is what the
      workflow passes to FetchDemographics (None: no argument). The activities
      run in the order fetch, merge, store; the first error stops the chain
      (later activities are not called) and is returned with the zero
      EnrichedCustomer; a nil error means all three ran and the result is what
      MergeData produced from the customer and the fetched demographics. */
  function EnrichPipeline(
    customer: Customer,
    fetchArg: Option<string>,
    fetch: Option<string> -> Outcome<Demographics>,
    merge: (Customer, Demographics) -> Outcome<EnrichedCustomer>,
    store: EnrichedCustomer -> Option<string>): (run: PipelineRun)
    ensures 1 <= |run.calls| <= 3
    ensures run.calls[0] == FetchDemographicsCall(fetchArg)
    ensures |run.calls| >= 2 ==> fetch(fetchArg).Ok? && run.calls[1] == MergeDataCall(customer, fetch(fetchArg).value)
    ensures |run.calls| == 3 ==>
      merge(customer, fetch(fetchArg).value).Ok?
      && run.calls[2] == StoreEnrichedDataCall(merge(customer, fetch(fetchArg).value).value)
    ensures run.result.err.Some? ==> run.result.value == ZeroEnriched
    ensures |run.calls| < 3 ==> run.result.err.Some?
    ensures fetch(fetchArg).Err? ==> run.result.err == Some(fetch(fetchArg).msg) && |run.calls| == 1
    ensures run.result.err == None <==>
      fetch(fetchArg).Ok? && merge(customer, fetch(fetchArg).value).Ok?
      && store(merge(customer, fetch(fetchArg).value).value) == None
    ensures run.result.err == None ==> run.result.value == merge(customer, fetch(fetchArg).value).value
  {
    match fetch(fetchArg)
    case Err(e) => PipelineRun(Ret(ZeroEnriched, Some(e)), [FetchDemographicsCall(fetchArg)])
    case Ok(demographics) =>
      match merge(customer, demographics)
      case Err(e) =>
        PipelineRun(Ret(ZeroEnriched, Some(e)), [FetchDemographicsCall(fetchArg), MergeDataCall(customer, demographics)])
      case Ok(enriched) =>
        var calls := [FetchDemographicsCall(fetchArg), MergeDataCall(customer, demographics), StoreEnrichedDataCall(enriched)];
        match store(enriched)
        case Some(e) => PipelineRun(Ret(ZeroEnriched, Some(e)), calls)
        case None => PipelineRun(Ret(enriched, None), calls)
  }
}
