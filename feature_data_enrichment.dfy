/**
 * The feature-package data-enrichment workflows
 * (internal/features/data-enrichment): the child workflow ID is formatted with
 * `%s`, so it is exactly "enrich-" + ID, and FetchDemographics receives the
 * customer's ID. The activities are named by string constants.
 */
module FeatureDataEnrichment {
  import opened GoTypes
  import opened Enrichment

  const ActivityFetchDemographics := "FetchDemographics"
  const ActivityMergeData := "MergeData"
  const ActivityStoreEnrichedData := "StoreEnrichedData"

  /** `fmt.Sprintf("enrich-%s", customerID)`. */
  function ChildWorkflowID(customerID: string): string
  {
    "enrich-" + customerID
  }

  /** Distinct customers get distinct child workflow IDs. */
  lemma ChildWorkflowIDInjective(a: string, b: string)
    requires ChildWorkflowID(a) == ChildWorkflowID(b)
    ensures a == b
  {
    assert ChildWorkflowID(a)[7..] == a;
    assert ChildWorkflowID(b)[7..] == b;
  }

  /** DataEnrichmentWorkflow: one child per customer, the successful results in
      input order, and never an error. */
  method DataEnrichmentWorkflow(customers: seq<Customer>, children: seq<Outcome<EnrichedCustomer>>)
    returns (enriched: seq<EnrichedCustomer>, childIDs: seq<string>, err: Option<string>)
    requires |children| == |customers|
    ensures |childIDs| == |customers|
    ensures forall i :: 0 <= i < |customers| ==> childIDs[i] == ChildWorkflowID(customers[i].id)
    ensures enriched == SuccessfulResults(children) && |enriched| <= |customers|
    ensures err == None
  {
    enriched, childIDs, err := StartAndCollect(customers, ChildWorkflowID, children);
    SuccessfulResultsBounds(children);
  }

  /** Customers with distinct IDs are started under distinct child IDs. */
  lemma ChildIDsDistinct(customers: seq<Customer>, childIDs: seq<string>)
    requires |childIDs| == |customers|
    requires forall i :: 0 <= i < |customers| ==> childIDs[i] == ChildWorkflowID(customers[i].id)
    ensures forall i, j :: 0 <= i < j < |customers| && customers[i].id != customers[j].id ==> childIDs[i] != childIDs[j]
  {
    forall i, j | 0 <= i < j < |customers| && customers[i].id != customers[j].id
      ensures childIDs[i] != childIDs[j]
    {
      if childIDs[i] == childIDs[j] {
        ChildWorkflowIDInjective(customers[i].id, customers[j].id);
      }
    }
  }

  /** EnrichSingleCustomerWorkflow: FetchDemographics gets the customer's ID,
      so the demographics merged are those fetched for this customer. */
  function EnrichSingleCustomerWorkflow(
    customer: Customer,
    fetch: Option<string> -> Outcome<Demographics>,
    merge: (Customer, Demographics) -> Outcome<EnrichedCustomer>,
    store: EnrichedCustomer -> Option<string>): (run: PipelineRun)
    ensures |run.calls| > 0 && run.calls[0] == FetchDemographicsCall(Some(customer.id))
    ensures |run.calls| >= 2 ==>
      fetch(Some(customer.id)).Ok? && run.calls[1] == MergeDataCall(customer, fetch(Some(customer.id)).value)
    ensures run.result.err == None ==>
      fetch(Some(customer.id)).Ok? && merge(customer, fetch(Some(customer.id)).value).Ok?
      && run.result.value == merge(customer, fetch(Some(customer.id)).value).value
  {
    EnrichPipeline(customer, Some(customer.id), fetch, merge, store)
  }
}
