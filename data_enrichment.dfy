/**
 * The original data-enrichment workflows (internal/data-enrichment). They
 * differ from the feature variant in two places: the child workflow ID is
 * built by handing `"enrich-" + ID` to Sprintf as its format, and
 * FetchDemographics is executed without the customer's ID.
 */
module LegacyDataEnrichment {
  import opened GoTypes
  import opened GoFmt
  import opened Enrichment

  /** The child workflow ID as the code builds it: the customer ID becomes
      part of a format string formatted with no operands. */
  function ChildWorkflowIDAsWritten(customerID: string): string
  {
    SprintfNoArgs("enrich-" + customerID)
  }

  /** For an ID without `%`, the ID is the intended "enrich-" + ID. */
  lemma ChildWorkflowIDWithoutPercent(customerID: string)
    requires '%' !in customerID
    ensures ChildWorkflowIDAsWritten(customerID) == "enrich-" + customerID
  {
    assert '%' !in "enrich-" + customerID by {
      forall k | 0 <= k < |"enrich-" + customerID|
        ensures ("enrich-" + customerID)[k] != '%'
      {
        if k >= 7 {
          assert ("enrich-" + customerID)[k] == customerID[k - 7];
        }
      }
    }
    SprintfPlain("enrich-" + customerID);
  }

  lemma EnrichPrefix(customerID: string)
    ensures ChildWorkflowIDAsWritten(customerID) == "enrich-" + FormatFrom("enrich-" + customerID, 7)
  {
    FormatFromPrefix("enrich-", customerID, 0);
  }

  /** In "enrich-%d" the directive after the `%` is a bare `d` verb. */
  lemma MissingVerbDirective()
    ensures FormatDirective("enrich-%d", 8) == Directive("%!d(MISSING)", Some(9))
  {
    var s := "enrich-%d";
    assert s[8] == 'd' && !IsFlag(s[8]) && s[8] != '[' && s[8] != '*' && !Strings.IsDigit(s[8]);
    assert SkipFlags(s, 8) == 8;
    assert ArgNumber(s, 8) == (8, false, false);
    assert ParseNum(s, 8, |s|, 0, false) == (false, 8);
  }

  lemma MissingVerbID()
    ensures ChildWorkflowIDAsWritten("%d") == "enrich-%!d(MISSING)"
  {
    EnrichPrefix("%d");
    var s := "enrich-%d";
    MissingVerbDirective();
    assert FormatFrom(s, 7) == FormatDirective(s, 8).text + FormatFrom(s, 9);
  }

  /** An ID made of `%%` and then `%`-free text prints one `%` and the text. */
  lemma EscapedPercentID(rest: string)
    requires '%' !in rest
    ensures ChildWorkflowIDAsWritten("%%" + rest) == "enrich-%" + rest
  {
    var t := "enrich-" + ("%%" + rest);
    EnrichPrefix("%%" + rest);
    assert t[8] == '%' && t[9..] == rest;
    assert FormatDirective(t, 8) == Directive("%", Some(9)) by {
      assert !IsFlag(t[8]) && t[8] != '[' && t[8] != '*' && !Strings.IsDigit(t[8]);
      assert SkipFlags(t, 8) == 8;
      assert ArgNumber(t, 8) == (8, false, false);
      assert ParseNum(t, 8, |t|, 0, false) == (false, 8);
    }
    FormatFromPlain(t, 9);
    assert FormatFrom(t, 7) == "%" + rest;
  }

  /** Two different customer IDs, "%d" and "%%!d(MISSING)", get the same child
      workflow ID, so the second child would collide with the first. */
  lemma ChildWorkflowIDCollision()
    ensures "%d" != "%%!d(MISSING)"
    ensures ChildWorkflowIDAsWritten("%d") == ChildWorkflowIDAsWritten("%%!d(MISSING)") == "enrich-%!d(MISSING)"
  {
    MissingVerbID();
    EscapedPercentID("!d(MISSING)");
    assert "%%" + "!d(MISSING)" == "%%!d(MISSING)";
  }

  /** DataEnrichmentWorkflow: one child per customer under the as-written ID;
      the output is the successful children's results in input order, and the
      error is always nil. */
  method DataEnrichmentWorkflow(customers: seq<Customer>, children: seq<Outcome<EnrichedCustomer>>)
    returns (enriched: seq<EnrichedCustomer>, childIDs: seq<string>, err: Option<string>)
    requires |children| == |customers|
    ensures |childIDs| == |customers|
    ensures forall i :: 0 <= i < |customers| ==> childIDs[i] == ChildWorkflowIDAsWritten(customers[i].id)
    ensures enriched == SuccessfulResults(children) && |enriched| <= |customers|
    ensures err == None
  {
    enriched, childIDs, err := StartAndCollect(customers, ChildWorkflowIDAsWritten, children);
    SuccessfulResultsBounds(children);
  }

  /** EnrichSingleCustomerWorkflow as written: FetchDemographics gets no
      customer ID. */
  function EnrichSingleCustomerWorkflow(
    customer: Customer,
    fetch: Option<string> -> Outcome<Demographics>,
    merge: (Customer, Demographics) -> Outcome<EnrichedCustomer>,
    store: EnrichedCustomer -> Option<string>): (run: PipelineRun)
    ensures |run.calls| > 0 && run.calls[0] == FetchDemographicsCall(None)
    ensures run.result.err == None ==>
      fetch(None).Ok? && merge(customer, fetch(None).value).Ok?
      && run.result.value == merge(customer, fetch(None).value).value
    ensures |run.calls| >= 2 ==> fetch(None).Ok? && run.calls[1] == MergeDataCall(customer, fetch(None).value)
  {
    EnrichPipeline(customer, None, fetch, merge, store)
  }
}
