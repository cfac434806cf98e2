# go-temporal-sre in Dafny

A model of the decision logic in go-temporal-sre, a collection of Temporal and
iWF demos aimed at SRE work. The model covers:

- how the superscript orchestrators fold per-order payment outcomes into a
  `BatchResult`;
- how the data-enrichment workflows fan out to children and keep the
  successful results;
- how the fee-deduction service and workflows validate, deduct and report;
- how the template and breakglass workflows and the breakglass HTTP API map
  outcomes onto results and responses;
- the just-in-time access workflow that elevates a role and reverts it;
- the script activities that turn an exit status into a `PaymentResult`;
- the worker's registries, its environment-driven configuration and its
  start/stop guard.

Every Temporal or iWF call, HTTP round trip, shell command and external
service is a parameter of the model:

- an `Outcome` value;
- one outcome per child, in input order;
- a function from the call's arguments to its outcome, so each contract shows
  which arguments the code passes.

A Go `(T, error)` pair is a `Ret<T>`, and a `*T` result is an `Option<T>`.
Amounts are integer cents. Go's `int` is unbounded here, except where the
code parses one (`strconv.Atoi` on 64 bits). Go's truncating `/` is written
out as `GoDiv`.

The project has one module per Go file. The shared pieces are:

- `GoTypes`: Option, Outcome, Ret and truncating division.
- `Strings`: decimal text, `Atoi`, `%.2f`/`%f` of cents, and
  `strings.Split`/`Join`.
- `GoFmt`: `fmt.Sprintf` with a format and no operands.
- `Enrichment`: the customer records, the fan-out and the
  fetch → merge → store pipeline, which all three data-enrichment packages
  share.

Where the code changes state in place, the model is imperative:

- the account store, the role directory, the registries and the worker are
  classes;
- the orchestrator loop, iWF Start/Decide, the fan-out, the registry listings
  and `IsFeatureEnabled` are methods with loops.

Each of these is proved against a specification function, and the properties
are proved about that function.

## Model

| member | source | states |
|---|---|---|
| Superscript.GetSuccessRate | internal/superscript/superscript.go:48-53 | An empty batch has rate 0. Otherwise the rate is SuccessCount*100 divided by TotalCount, truncated toward zero: its magnitude is the truncated quotient of the magnitudes, and a nonzero rate is positive iff SuccessCount and TotalCount have the same sign. |
| Superscript.SuccessRateIsPercentage | internal/superscript/superscript.go:52 | When 0 <= SuccessCount <= TotalCount and TotalCount > 0, the rate is between 0 and 100, and it is 100 exactly when every order succeeded. |
| Superscript.SuccessRateMonotone | internal/superscript/superscript.go:52 | For a fixed positive total, more successes never lower the rate. |
| GoTypes.GoDiv | internal/superscript/superscript.go:52 | Go's integer division truncates toward zero: the quotient's magnitude is the floor of the magnitudes' quotient, and its sign is the sign of the operands' product. |
| SuperscriptWorkflow.SinglePaymentCollectionWorkflow | internal/superscript/workflow.go:27-55 | The activity's result comes back unchanged with a nil error; an activity error comes back as (nil, err). |
| SuperscriptWorkflow.ChildWorkflowIDInjective | internal/superscript/workflow.go:93 | Child IDs are "single-payment-workflow-" + order ID, and distinct orders get distinct child IDs. |
| SuperscriptWorkflow.AggregateShape | internal/superscript/workflow.go:114-139 | Each child outcome bumps exactly one counter. Only a returned result with Success set counts as a success. Results grows, in input order, by what each outcome appends. No other field changes. |
| SuperscriptWorkflow.AppendedAllLength | internal/superscript/workflow.go:114-134 | Each order appends at most one result. |
| SuperscriptWorkflow.AppendedAllWhenAllDone | internal/superscript/workflow.go:112-134 | When every child returns, Results is exactly their results, in order. |
| SuperscriptWorkflow.OrchestratorWorkflow | internal/superscript/workflow.go:59-156 | The loop computes the fold over the children's outcomes, starting from the initial batch (TotalCount = number of orders, empty Results, both counts 0). It starts child i under the ID for order i, and the error is always nil. |
| SuperscriptWorkflow.OrchestratorTotals | internal/superscript/workflow.go:64-155 | Whatever the children do: SuccessCount + FailCount == TotalCount; SuccessCount is the number of successful children; len(Results) <= TotalCount; the rate is a percentage. |
| SuperscriptWorkflow.OrchestratorAllChildrenReturn | internal/superscript/workflow.go:112-139 | When every child returns a result, Results[i] is order i's result. |
| SuperscriptWorkflow.OrchestratorAllChildrenRejected | internal/superscript/workflow.go:117-121 | Errors that fail the already-started test append nothing and are all counted as failures. |
| IwfSuperscript.CollectPayment | internal/iwf-superscript/iwf_workflow.go:103-146 | A decode error is returned. Otherwise the state always completes the workflow, and Success holds iff the activity returned with Success set. On an activity error, Error is its text and Output/ExitCode stay zero. On a reported failure, Error, Output and ExitCode are copied. |
| IwfSuperscript.EffectiveConcurrency | internal/iwf-superscript/iwf_workflow.go:296-299 | The concurrency is MaxConcurrent when it is positive, else 3. |
| IwfSuperscript.ChildWorkflowIDInjective | internal/iwf-superscript/iwf_workflow.go:332-353 | Within one parent, child IDs parent + "-" + order are distinct for distinct orders. |
| IwfSuperscript.PresizedBatch | internal/iwf-superscript/iwf_workflow.go:307-314 | The stored batch has Results pre-sized to len(OrderIDs) zero values, TotalCount = len(OrderIDs) and both counts 0. |
| IwfSuperscript.Start | internal/iwf-superscript/iwf_workflow.go:284-365 | A decode error is wrapped and returned. No orders: no commands, and only the batch (with EndTime) is stored. Otherwise: exactly one REJECT_DUPLICATE command per order, in input order, with ID parent + "-" + order; the orders and the pre-sized batch are stored. |
| IwfSuperscript.DecideSpec | internal/iwf-superscript/iwf_workflow.go:207-281 | Decide panics exactly when there are orders and Results is shorter than them. Otherwise Results[i] is the mock success for order i, the tail of Results past the orders is untouched, FailCount and TotalCount are kept and SuccessCount grows by the number of orders. With no orders only EndTime is set; with orders EndTime is left alone. |
| IwfSuperscript.Decide | internal/iwf-superscript/iwf_workflow.go:207-281 | The loop that writes Results[i] in place and bumps the counter computes DecideSpec. |
| IwfSuperscript.StartThenDecide | internal/iwf-superscript/iwf_workflow.go:227-276 | After Start on a non-empty list, Decide records order i at index i as a success, SuccessCount == TotalCount, FailCount is 0 and the rate is 100. |
| IwfSuperscript.StartThenDecideEmpty | internal/iwf-superscript/iwf_workflow.go:220-224 | With no orders, Decide returns the stored batch with only EndTime set, and its rate is 0. |
| IwfSuperscript.AggregateResults | internal/iwf-superscript/iwf_workflow.go:400-424 | A decode error is wrapped. Otherwise only EndTime changes, so the counts, the results and the success rate are kept. |
| Enrichment.SuccessfulResultsAppend | internal/data-enrichment/workflow.go:56-63 | The success filter distributes over concatenation, so kept results keep input order. |
| Enrichment.SuccessfulResultsBounds | internal/data-enrichment/workflow.go:56-65 | The output is never longer than the input. All failures give an empty output. All successes give every value, in order. |
| Enrichment.SuccessfulResultsFromChildren | internal/data-enrichment/workflow.go:56-63 | Every kept result is the value of some successful child. |
| Enrichment.StartAndCollect | internal/data-enrichment/workflow.go:36-66 | The two loops start one child per customer under its ID and collect exactly the successful results in input order; the error is nil. |
| Enrichment.EnrichPipeline | internal/data-enrichment/workflow.go:68-106 | Fetch, merge and store run in order. The first error stops the chain and returns the zero EnrichedCustomer with that error. A nil error means all three succeeded, and the value is MergeData's output. |
| LegacyDataEnrichment.ChildWorkflowIDWithoutPercent | internal/data-enrichment/workflow.go:47 | For an ID without '%', the ID is "enrich-" + ID. |
| LegacyDataEnrichment.MissingVerbDirective | internal/data-enrichment/workflow.go:47 | Example, one input: in "enrich-%d", the directive prints "%!d(MISSING)". |
| LegacyDataEnrichment.MissingVerbID | internal/data-enrichment/workflow.go:47 | Customer "%d" gets child ID "enrich-%!d(MISSING)". |
| LegacyDataEnrichment.EscapedPercentID | internal/data-enrichment/workflow.go:47 | Customer "%%" + rest, with rest free of '%', gets child ID "enrich-%" + rest. |
| LegacyDataEnrichment.ChildWorkflowIDCollision | internal/data-enrichment/workflow.go:47 | Distinct customers "%d" and "%%!d(MISSING)" get the same child ID. |
| LegacyDataEnrichment.DataEnrichmentWorkflow | internal/data-enrichment/workflow.go:36-66 | One child per customer under the as-written ID. The output is the successful results in input order, never longer than the input, and the error is nil. |
| LegacyDataEnrichment.EnrichSingleCustomerWorkflow | internal/data-enrichment/workflow.go:68-106 | FetchDemographics is called with no customer ID, so for every customer the merged demographics are those fetched for no one. On success the value is MergeData's output. |
| GoFmt.SprintfPlain | internal/data-enrichment/workflow.go:47 | A format without '%' prints itself. |
| FeatureDataEnrichment.ChildWorkflowIDInjective | internal/features/data-enrichment/workflow.go:53 | Child IDs are exactly "enrich-" + ID, which is injective. |
| FeatureDataEnrichment.DataEnrichmentWorkflow | internal/features/data-enrichment/workflow.go:42-72 | One child per customer under "enrich-" + ID. The output is the successful results in input order, and the error is never set. |
| FeatureDataEnrichment.ChildIDsDistinct | internal/features/data-enrichment/workflow.go:49-58 | Customers with distinct IDs are started under distinct child IDs. |
| FeatureDataEnrichment.EnrichSingleCustomerWorkflow | internal/features/data-enrichment/workflow.go:74-104 | FetchDemographics receives customer.ID. The pipeline stops at the first failure, and on success the value is MergeData's output for this customer's demographics. |
| DemoDataEnrichment.DataEnrichmentWorkflow | internal/demos/data-enrichment/workflow.go:40-59 | The activity's result is passed on unchanged, or (nil, err). A nil result with a nil error panics at the completion log. |
| DemoDataEnrichment.EnrichSingleCustomerWorkflow | internal/demos/data-enrichment/workflow.go:62-87 | The result carries the input customer unchanged and the demographics fetched for customer.ID. A fetch error gives (nil, err). |
| BatchActivities.Deduct | internal/batch/activities.go:59-81 | An unknown account fails with balance 0 and changes nothing. Balance < amount fails, returns the current balance and changes nothing. Otherwise only this balance drops by exactly amount, and the new balance is returned. |
| BatchActivities.DeductKeepsBalancesNonNegative | internal/batch/activities.go:75-80 | Non-negative balances stay non-negative after any deduction. |
| BatchActivities.DeductTwiceTakesTwice | internal/batch/activities.go:59-81 | The order ID plays no part, so the same deduction applied twice takes the amount twice. |
| BatchActivities.AccountStore.constructor | internal/batch/activities.go:26-30 | A new store holds no accounts. |
| BatchActivities.AccountStore.GetAccount | internal/batch/activities.go:33-42 | Returns the stored account, or "account <id> not found". |
| BatchActivities.AccountStore.CreateAccount | internal/batch/activities.go:45-55 | Stores the account with the given balance, replacing any with the same ID. |
| BatchActivities.AccountStore.DeductFee | internal/batch/activities.go:59-81 | The store's new map, the returned balance and the error text are those of Deduct on the old map. |
| BatchActivities.OrderIDFromPath | internal/batch/activities.go:109 | The order ID is everything after the first 12 characters. A shorter path has none (Go panics). |
| BatchActivities.OrderIDFromRoute | internal/batch/activities.go:109 | "/deduct-fee/" + id yields id. |
| BatchActivities.ValidateRequest | internal/batch/activities.go:103-139 | Checks run in order: non-POST gets 405, a short path panics, and an empty order ID, unreadable body, bad JSON, empty AccountID or Amount <= 0 each get 400. The request is accepted iff all checks pass. |
| BatchActivities.HandlerResponse | internal/batch/activities.go:97-157 | A response is 200 iff Success is set, iff the request is valid and the deduction goes through. A 200 carries the new balance and "Fee deducted successfully". A rejected request is answered with the validation's own outcome, and a store error gets 500 with its text. |
| BatchActivities.ServeDeductFee | internal/batch/activities.go:97-157 | Serving a request answers HandlerResponse for the old balances. A rejected request leaves the store untouched; an accepted one applies Deduct. |
| BatchWorkflow.FeeDeductionWorkflow | internal/batch/workflow.go:47-97 | OrderID is copied. An activity error gives Success false, "Activity execution failed: " + err, and the error is returned. Otherwise NewBalance and Success are copied, and Message is the activity's Error or "Fee deduction successful". |
| BatchWorkflow.DeductFeeActivity | internal/batch/workflow.go:101-188 | There is never a Go error. Success holds only for a 200 whose decoded body says Success, and then NewBalance comes from the response. Every failure gives Success false and NewBalance 0, with its Error text: "Failed to marshal JSON: ", "Failed to create request: ", "HTTP request failed: ", "Failed to read response: " or "Failed to parse response: " followed by the underlying error, "Unexpected status code: N, body: B" for a non-200, and the response's own Message for a 200 that reports failure. |
| BatchWorkflow.UnexpectedStatusMessage | internal/batch/workflow.go:159-164 | A non-200 response is reported as "Unexpected status code: N, body: B". |
| BatchWorkflow.ActivityOverHandler | internal/batch/workflow.go:101-188 | The activity posting to the handler for order o succeeds iff o, AccountID and Amount > 0 pass validation and the deduction goes through, and it reports the store's new balance. |
| FeatureBatchWorkflow.FeeDeductionWorkflow | internal/features/batch/workflow.go:42-103 | OrderID is copied. An activity error gives Success false, "Activity execution failed: " + err, and the error is returned. Otherwise NewBalance and Success are copied, and Message is the activity's Error or "Fee deduction successful. NewBalance: " + the balance in %f form. |
| FeatureBatchWorkflow.SuccessMessageExample | internal/features/batch/workflow.go:98 | Example, one input: a balance of 80.00 is reported as "80.000000". |
| Strings.CentsFixedExamples | internal/batch/activities.go:76 | Examples, fixed inputs: %.2f of cents: 123.45, -0.05; %f: 80.000000. |
| TemplateDemo.TemplateWorkflow | internal/demos/template/workflow.go:41-73 | The result ID and the activity input ID are input.ID. An activity error gives Success false with Message = error text, and the error is returned. Otherwise Success is copied, and Message is the activity's Error when unsuccessful, else empty. |
| Breakglass.ActivityFor | internal/demos/breakglass/workflow.go:47-58 | "restart", "scale" and "rollback" select their own activity, and nothing else is supported. |
| Breakglass.BreakglassWorkflow | internal/demos/breakglass/workflow.go:29-75 | ServiceID and Action are copied. An unsupported action runs nothing and returns "Unsupported action" with a nil error. A supported one runs exactly its activity. An activity error gives Message = error text, and the error is returned. Otherwise Success is the activity's boolean, with the completed or failed message. |
| BreakglassApi.ServeHTTP | internal/demos/breakglass/api/handlers.go:26-43 | POST /api/breakglass starts a workflow and GET /api/breakglass/status reads one. Another method on those paths gets 405, and any other path gets 404; neither reaches the client. |
| BreakglassApi.HandleBreakglass | internal/demos/breakglass/api/handlers.go:46-83 | An undecodable body gets 400 without a client call. Otherwise one start call on "breakglass-task-queue" with ID ServiceID + "-" + timestamp: failure gets 500, success echoes ServiceID/Action with Status "STARTED". |
| BreakglassApi.HandleStatus | internal/demos/breakglass/api/handlers.go:86-114 | A missing workflow_id gets 400 before any lookup. A failed lookup gets 500. Otherwise the response is "COMPLETED" with the result's Success and Message. |
| BreakglassApi.ClientReachedOnlyByRoutes | internal/demos/breakglass/api/handlers.go:26-43 | The client is called only for POST /api/breakglass with a decodable body or GET /api/breakglass/status with a workflow_id. |
| BreakglassApi.StatusEchoesStartedWorkflow | internal/demos/breakglass/api/handlers.go:46-114 | For a workflow the start handler launched, a status lookup reports the service and action it was started for when the workflow returned no error, and answers 500 when it returned one. |
| JitAccess.RoleDirectory.GetUserRoleActivity | demo/jit/demo-be/internal/jitaccess/workflow.go:36-39 | Reading a role gives the directory's role, or the failure. |
| JitAccess.RoleDirectory.SetUserRoleActivity | demo/jit/demo-be/internal/jitaccess/workflow.go:48-51 | Setting a role writes only that user's entry, unless the call fails. |
| JitAccess.AccessRun | demo/jit/demo-be/internal/jitaccess/workflow.go:19-65 | A read failure ends the run with its error and changes nothing. An equal role gives the non-retryable "InvalidRole" error and changes nothing. A failed elevation neither sleeps nor reverts. A failed revert leaves the user at NewRole. The run succeeds iff every call does and the roles differ, and it then elevates, sleeps Duration and restores the original role. |
| JitAccess.JITAccessWorkflow | demo/jit/demo-be/internal/jitaccess/workflow.go:19-65 | The step-by-step workflow against the directory ends with AccessRun's roles, error and steps. |
| JitAccess.ElevationIsTemporary | demo/jit/demo-be/internal/jitaccess/workflow.go:48-62 | After an elevation, the user keeps NewRole exactly when the revert failed. |
| SuperscriptActivities.PaymentCommandEndsWithOrder | internal/superscript/activities.go:36 | The command is the script path, a space, and the order ID. |
| SuperscriptActivities.RunPaymentCollectionScript | internal/superscript/activities.go:29-80 | The Go error is always nil. OrderID and Output are copied. The exit code is 1 iff the run errs, else 0. Success iff the exit code is 0. ErrorMessage is "" or "Script failed with exit code: 1". |
| FeatureSuperscriptActivities.ScriptPath | internal/features/superscript/activities.go:37-41 | Order "4242" runs happy_payment_collection.sh; every other order runs single_payment_collection.sh, both under the base path. |
| FeatureSuperscriptActivities.RunPaymentCollectionScript | internal/features/superscript/activities.go:29-81 | ExitCode is the exit status and Success iff it is 0. A non-zero status gives "Script failed with exit code: N" and also the error "Script execution failed with exit code: N" beside the result. Zero gives "" and a nil error. |
| FeatureSuperscriptActivities.ErrorIffFailure | internal/features/superscript/activities.go:71-80 | The error is returned exactly when the result reports a failure. |
| FeatureSuperscriptActivities.ExitStatusTwoMessage | internal/features/superscript/activities.go:71-76 | Example, one input: exit status 2 gives "Script failed with exit code: 2" and a matching error. |
| WorkerConfig.GetEnv | internal/worker/config/config.go:91-96 | The variable when set and non-empty, else the default. |
| WorkerConfig.GetEnvInt | internal/worker/config/config.go:98-105 | The parsed value when the variable parses as an int, else the default. |
| WorkerConfig.GetEnvSlice | internal/worker/config/config.go:107-112 | A non-empty variable is split at every comma, and the pieces join back to it. Otherwise the default. |
| WorkerConfig.LoadConfig | internal/worker/config/config.go:43-78 | Each field is read from its own variable with its own default, and the Atlas settings default to "". |
| WorkerConfig.EmptyEnvironmentDefaults | internal/worker/config/config.go:43-78 | An empty environment gives localhost:7233, default, 10/10, 8080, INFO, localhost and the five default features. |
| WorkerConfig.IntSettingRoundTrip | internal/worker/config/config.go:98-105 | A 64-bit integer written in decimal reads back as itself. |
| WorkerConfig.MalformedIntSetting | internal/worker/config/config.go:98-105 | " 1" and "1O" fall back to the default. |
| WorkerConfig.FeatureListKeepsEmptyItems | internal/worker/config/config.go:107-112 | "a,,b" enables three features, one of them "". |
| WorkerConfig.IsFeatureEnabled | internal/worker/config/config.go:81-88 | The search returns true iff the feature is exactly an element of EnabledFeatures. |
| Strings.Atoi | internal/worker/config/config.go:100 | A parsed value fits in 64 bits and the text ends in a digit. |
| Strings.AtoiOfDecimal | internal/worker/config/config.go:100 | Atoi reads back every 64-bit integer's decimal text. |
| Strings.JoinSplit | internal/worker/config/config.go:109 | Joining the split pieces with commas gives the text back. |
| Strings.SplitShape | internal/worker/config/config.go:109 | There is one more piece than there are commas, and no piece holds a comma. |
| Strings.SplitExample | internal/worker/config/config.go:109 | Example, one input: "a,,b" splits into "a", "", "b". |
| JitConfig.LoadConfig | demo/jit/demo-be/internal/config/config.go:14-33 | The Atlas fields are copied verbatim. Port, TemporalHost and TemporalNamespace default to "8080", "localhost:7233" and "default" when empty, and set values pass through. |
| JitConfig.DefaultsAgreeWithWorker | demo/jit/demo-be/internal/config/config.go:23-31 | The three patched fields follow the worker's getEnv rule. |
| WorkerRegistry.KeysInSomeOrder | internal/worker/registry.go:54-60 | A range over a map lists every key exactly once. |
| WorkerRegistry.Registry.constructor | internal/worker/registry.go:18-24 | A new registry is empty. |
| WorkerRegistry.Registry.RegisterWorkflow | internal/worker/registry.go:27-30 | Sets workflows[name], overwriting, and leaves activities alone. |
| WorkerRegistry.Registry.RegisterActivity | internal/worker/registry.go:33-36 | Sets activities[name], overwriting, and leaves workflows alone. |
| WorkerRegistry.Registry.GetRegisteredWorkflows | internal/worker/registry.go:54-60 | Each registered workflow name exactly once. |
| WorkerRegistry.Registry.GetRegisteredActivities | internal/worker/registry.go:63-69 | Each registered activity name exactly once. |
| WorkerRegistry.QueuesOfMembers | internal/worker/registry.go:127-134 | A queue is in the concatenation iff one of the listed features has it. |
| WorkerRegistry.FeatureManager.constructor | internal/worker/registry.go:86-92 | A new manager has no features and keeps its registry. |
| WorkerRegistry.FeatureManager.RegisterFeature | internal/worker/registry.go:95-100 | Keys the feature by its name, overwriting, and always returns nil. |
| WorkerRegistry.FeatureManager.InitializeFeature | internal/worker/registry.go:103-115 | An unknown name gives "feature X not found" and calls nothing. Otherwise the feature's RegisterComponents runs, and its error comes back wrapped as "failed to register components for feature X: e". The result is nil iff the feature exists and registered cleanly. |
| WorkerRegistry.FeatureManager.GetFeatureTaskQueues | internal/worker/registry.go:118-124 | The feature's queues, or nothing for an unknown feature. |
| WorkerRegistry.FeatureManager.GetAllTaskQueues | internal/worker/registry.go:127-134 | Every feature's queues concatenated in some order of the features, and a queue is listed iff some feature has it. |
| WorkerRegistry.FeatureManager.GetRegisteredFeatures | internal/worker/registry.go:137-143 | Each registered feature name exactly once. |
| SuperscriptWorker.Worker.constructor | cmd/superscript/worker.go:26-48 | A new worker is not running. |
| SuperscriptWorker.Worker.Start | cmd/superscript/worker.go:51-64 | A running worker refuses with "worker is already running" and changes nothing. A failed underlying start returns "failed to start worker: " + e and the worker stays stopped. Otherwise the worker is running. |
| SuperscriptWorker.Worker.Stop | cmd/superscript/worker.go:67-75 | Stop is a no-op when the worker is stopped; otherwise it stops the underlying worker once and clears the flag. |
| SuperscriptWorker.StopIsIdempotent | cmd/superscript/worker.go:67-75 | Two Stops stop the underlying worker at most once. |
| SuperscriptWorker.StartTwice | cmd/superscript/worker.go:51-64 | A second Start on a fresh worker is refused. |

### Where the model follows the code rather than its description

- **Duplicate child start** (internal/superscript/workflow.go:114-139).
  - The description says an "already started" child error counts as a success.
  - The code does something else. An error that passes the `errors.Is` test
    appends the zero `PaymentResult` that the failed `Get` left behind. That
    result's Success is false, so it is counted as a failure.
  - The test itself compares against a typed nil pointer. The model keeps it
    as an opaque predicate, `alreadyStarted`.
- **No concurrency cap.**
  - The Temporal orchestrator awaits each child before it starts the next.
  - The iWF Start computes a concurrency of MaxConcurrent, or 3 by default,
    and never uses it.
  - The model is the sequential fold the code performs.
- **iWF Decide is a mock.** It writes a successful mock result for every order
  and never reads the child outcomes. When the stored Results is shorter than
  the order list, Go panics on the index; the model returns `IndexPanic`.
- **The iWF structs.** The states use `MaxConcurrent` and
  `PaymentResult.Error`, which the record types shown in
  internal/superscript/superscript.go do not declare. They are modelled as if
  declared, with `Error` being `ErrorMessage`.

## Left out

- Temporal and iWF behaviour are left out: retries, timeouts, ID-reuse
  deduplication, persistence and replay. Each call's outcome is a parameter.
- Time is left out or kept as opaque ticks. This covers `StartTime`,
  `EndTime`, `ExecutionTime`, `Timestamp`, `CompletedAt` and `RequestedAt`,
  the JIT `Duration` (kept only in the step trace), the random delay in
  `DeductFee`, and sleeps.
- Concurrency is left out: the AccountStore mutex and goroutines. The store is
  sequential, so the aliasing of the `*Account` pointers it hands out is not
  modelled.
- JSON encoding and decoding are reduced to "decoded or not". An encoding
  failure in `respondWithJSON` and the HTTP body's Content-Type are not
  modelled.
- The HTTP round trip inside `DeductFeeActivity` (marshal, request, transport,
  read, decode) is reduced to how far it got. URL parsing is not modelled:
  `ActivityOverHandler` hands the handler the path directly.
- Shell execution is a function from the command line to its output and its
  error or exit status.
- Floating point is left out: amounts are integer cents, so `%.2f` and `%f`
  are exact.
- `StartChildrenState.Execute` returns `(nil, nil)`, and the CollectPayment
  and AggregateResults `Decide` methods only return a fixed error. These are
  iWF stubs with nothing to model.
- The feature retry count is not modelled: the policy allows 2 attempts and
  a test expects 3.
- `getEnvDuration` is not called by `LoadConfig`.
- Superscript.GetSuccessRate: the 64-bit width of Go's `int` is not modelled, so an overflow of `SuccessCount*100` is not captured; the rate is stated over unbounded integers.
- `Registry.ApplyRegistrations` only forwards to the SDK worker.
- `RunDate` and `Reason` are only logged.
- `RegisterComponents` and `GetTaskQueues` belong to each feature's own
  `feature.go`, which is not part of this model. A feature's error and queues
  are fields of `FeatureRegistrar`, and what it registers is not modelled.
- The JIT activities call the Atlas API, which is not part of this model.
  `RoleDirectory` stands in for it: an unlisted user reads as the empty role,
  and a failing call changes nothing.
- `WaitForInterrupt`, the `main.go` files and the HTTP servers around the
  handlers are process plumbing.
- `SuperscriptWorker.Worker` keeps only the running flag and a count of calls
  reaching the SDK worker. Its client, logger and activities are left out.

## Findings

| source | as written | input that shows it | evidently intended | confidence | as-written member | corrected member |
|---|---|---|---|---|---|---|
| internal/data-enrichment/workflow.go:47 | `fmt.Sprintf("enrich-" + customer.ID)` puts the customer ID into the format string | customers "%d" and "%%!d(MISSING)" both get child ID "enrich-%!d(MISSING)" | the child ID is "enrich-" + ID, as `fmt.Sprintf("enrich-%s", customer.ID)` builds it at internal/features/data-enrichment/workflow.go:53 | not executed | LegacyDataEnrichment.ChildWorkflowIDCollision | FeatureDataEnrichment.ChildWorkflowIDInjective |
| internal/data-enrichment/workflow.go:84 | FetchDemographics is executed with no customer ID, so every customer is merged with the same demographics, fetched for no one | any customer c with fetch(None) = Ok(d): MergeData gets (c, d) whatever c.ID is | FetchDemographics receives customer.ID, as at internal/features/data-enrichment/workflow.go:90 (the e2e test's activity comment calls the empty ID a bug) | not executed | LegacyDataEnrichment.EnrichSingleCustomerWorkflow | FeatureDataEnrichment.EnrichSingleCustomerWorkflow |
