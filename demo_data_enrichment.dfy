/**
 * The demo data-enrichment workflows (internal/demos/data-enrichment): each
 * runs one activity and either passes its result on or wraps the fetched
 * demographics together with the customer.
 */
module DemoDataEnrichment {
  import opened GoTypes
  import opened Enrichment

  datatype DataEnrichmentWorkflowResult = DataEnrichmentWorkflowResult(success: bool, message: string)

  /** How a workflow run ends: a Go return pair, or a nil-pointer panic. */
  datatype WorkflowRun<+T> = Returned(ret: Ret<Option<T>>) | NilDereference

  /** DataEnrichmentWorkflow: `enrichData` is the EnrichData activity's outcome
      for a data ID, where `None` is a nil result pointer. The result is passed
      on unchanged; a nil result with a nil error is dereferenced when the
      completion is logged. */
  function DataEnrichmentWorkflow(dataID: string, enrichData: string -> Outcome<Option<DataEnrichmentWorkflowResult>>): (r: WorkflowRun<DataEnrichmentWorkflowResult>)
    ensures enrichData(dataID).Err? ==> r == Returned(Ret(None, Some(enrichData(dataID).msg)))
    ensures enrichData(dataID).Ok? && enrichData(dataID).value.Some? ==> r == Returned(Ret(enrichData(dataID).value, None))
    ensures r.NilDereference? <==> enrichData(dataID) == Ok(None)
  {
    match enrichData(dataID)
    case Err(e) => Returned(Ret(None, Some(e)))
    case Ok(result) => if result.None? then NilDereference else Returned(Ret(result, None))
  }

  /** EnrichSingleCustomerWorkflow: fetch the customer's demographics and pair
      them with the customer unchanged; a fetch error gives a nil result. */
  function EnrichSingleCustomerWorkflow(customer: Customer, fetch: string -> Outcome<Demographics>): (r: Ret<Option<EnrichedCustomer>>)
    ensures fetch(customer.id).Err? ==> r == Ret(None, Some(fetch(customer.id).msg))
    ensures fetch(customer.id).Ok? ==>
      r.err == None && r.value.Some?
      && r.value.value.customer == customer && r.value.value.demographics == fetch(customer.id).value
  {
    match fetch(customer.id)
    case Err(e) => Ret(None, Some(e))
    case Ok(demographics) => Ret(Some(EnrichedCustomer(customer, demographics)), None)
  }
}
