# DevOps Autopilot core, modelled in Dafny

This project models the bookkeeping core of the DevOps Autopilot dashboard. The
dashboard is a chat front end; it sends each request for infrastructure,
container or Kubernetes work to a simulated workflow that runs in a Blaxel
sandbox. The model covers five pieces:

- **Model gateway** (`ModelGateway`, `gateway.dfy`). A fixed routing table maps
  (task type, complexity) to a model name, with `gpt-4o-mini` as the fallback.
  A price table gives the cost per 1K tokens, with 0.001 as the default price.
  A ledger of total cost and request count changes only through `TrackUsage`.
- **Workflow orchestrator** (`Orchestrator`, `orchestrator.dfy`). There are
  three workflows, each a fixed and partly gated list of steps. Every step that
  returns appends one step record. The first step that raises stops the
  workflow and marks it failed; that step leaves no record. Every run appends
  exactly one record to an unbounded history. The summary counts the history
  and shows the last ten records. `Execute` is the reference sequencer, and
  each workflow method is proved equal to it. The step executors are an oracle
  that the workflows reach through `StepPort`. `StubOutcome` is the executors
  as they currently ship: each returns a fixed payload.
- **Security scanner cache** (`SecurityScanner`, `security_scanner.dfy`).
  `scan_codebase` memoises its result on a digest of the repository and the
  *sorted* tool list. `StringSort` models Python's `sorted` on strings and
  proves that the sort depends only on the multiset of its input. Hence any
  reordering of the tool list hits the same entry.
- **Docker analyzer** (`DockerAnalyzer`, `docker_analyzer.dfy`).
  `analyze_dockerfile` memoises its result on a digest of the content.
  `scan_container_image` creates a sandbox on every call and never touches the
  cache.
- **Dashboard state** (`Dashboard`, `dashboard.dfy`).
  - `DevOpsState` keeps its counters, its log and the by-key tallies in place.
  - `add_log` returns a view of the last 20 lines, joined by the two
    characters `\` and `n`. `get_logs` shows the last 15 lines, joined by real
    newlines.
  - `chat_response` first counts the operation. It then sends the message to
    one of three branches or to the general answer by keyword, in priority
    order: infrastructure, then docker, then Kubernetes.
  - Every branch that raises `active_sandboxes` lowers it again, so the
    counter is net zero after every chat message.

Some facts about the code are worth knowing:

- "validate" is an infrastructure keyword. So the Kubernetes example the
  general answer suggests, "Validate K8s manifest" (`app.py:340`), is sent to
  the infrastructure branch. `ValidateOutranksKubernetes` states this.
- "Scan for vulnerabilities" and "Check for drift", the other two suggestions,
  match no keyword. They get the general answer.
- A cache hit returns the stored result unchanged. Its `meta.cached` therefore
  stays `false`, as stored on the miss.
- In `utils/orchestrator.py` no step record carries a failed status: a step
  record is appended only after its executor returned, always with status
  "success" (lines 50-77). The history is never trimmed (line 89); only the
  summary is limited to the last ten records (line 246). Any raising step,
  optional or not, sends control to the one `except` branch, which fails the
  whole workflow (lines 83-87).
- A tool call whose `SandboxInstance.create` raises ends with that exception:
  the creation is outside any `try` (security scanner line 43, Docker analyzer
  lines 40 and 103). Nothing is cached, so the next request misses again.

Clock and random values are parameters. Elapsed-time readings are `real`
values, and rendered timestamps and stamps are strings. The boot-time draw is
a `nat`. The cost draw is a `real`, already rounded to four places. It is the
one value both added to `cumulative_cost` and printed in the cost log line.
`DevOpsState` prints it through a printing function fixed when the state is
built. Digests are functions fixed when each server is built. Prices and costs
are exact reals.

## Model

| member | source | states |
|---|---|---|
| ModelGateway.TaskComplexity.Value | utils/model_gateway.py:9-13 | each complexity renders as its enum value string |
| ModelGateway.SelectModel | utils/model_gateway.py:31-67 | a routed pair gets the table's model; any other pair gets `gpt-4o-mini` |
| ModelGateway.RoutingTableDomain | utils/model_gateway.py:43-63 | the table covers a (task, complexity) pair exactly when the task is one of the five known task types |
| ModelGateway.UnknownTaskFallsBack | utils/model_gateway.py:65 | an unknown task type gets the fallback model at every complexity |
| ModelGateway.RoutedModelsArePriced | utils/model_gateway.py:21-26 | every model the router can return has its own price, so the 0.001 default never applies to a routed model |
| ModelGateway.UnitCost | utils/model_gateway.py:80 | the table price when the model has one, otherwise the default 0.001 |
| ModelGateway.EstimateCost | utils/model_gateway.py:69-81 | tokens/1000 at the model's table price, or at the 0.001 default when the table has no entry |
| ModelGateway.EstimateCostScale | utils/model_gateway.py:69-81 | zero tokens cost nothing; 1000 tokens cost exactly one unit price |
| ModelGateway.EstimateCostMonotone | utils/model_gateway.py:69-81 | with non-negative prices the estimate never falls as tokens grow |
| ModelGateway.RoutedCostUsesTable | utils/model_gateway.py:69-81 | the cost of a routed model is its table price times tokens/1000 |
| ModelGateway.Gateway.constructor | utils/model_gateway.py:20-29 | the ledger starts empty: zero cost, zero requests, the four-model price table |
| ModelGateway.Gateway.TrackUsage | utils/model_gateway.py:83-87 | one more request; the total grows by exactly the estimate for the model and token count, and never falls for non-negative tokens; the ledger invariant is kept |
| ModelGateway.Gateway.GetUsageStats | utils/model_gateway.py:89-96 | the totals are reported as they are; the average times the count is the total; with no requests the average and saving are 0; the saving is positive exactly when the average is below Lambda's 0.02 |
| ModelGateway.Gateway.GetRoutingExplanation | utils/model_gateway.py:98-117 | reports the routed model, the reason for that model from the four-entry table (never the default reason), its price at 1000 tokens, and the request echoed back |
| Orchestrator.Truthy | utils/orchestrator.py:127 | the truthiness of `image_name`: `None` and the empty string are false, and any non-empty name is true |
| Orchestrator.Started | utils/orchestrator.py:36-44 | a new record carries the kind's id prefix with the stamp, the kind and the start time; it has no steps, is running and is not yet finished |
| Orchestrator.StepName.Label | utils/orchestrator.py:46-201 | each step name renders as the record's `"step"` string |
| Orchestrator.WorkflowKind.Label | utils/orchestrator.py:36-163 | each workflow kind renders as the record's `"type"` string |
| Orchestrator.WorkflowKind.IdPrefix | utils/orchestrator.py:36-158 | each workflow id starts with the kind's prefix |
| Orchestrator.Execute | utils/orchestrator.py:46-87 | the reference sequencer of the try block: it calls at most the whole plan, and exactly one step more than it records when a step raised, as many as it records otherwise |
| Orchestrator.ExecuteCharacterization | utils/orchestrator.py:46-83 | a run records each step before the first raising one, in plan order, with its payload; it calls exactly the steps up to and including the raising one; that step's message is the error |
| Orchestrator.ExecuteStopsAtFirstFailure | utils/orchestrator.py:46-84 | when step k is the first to raise, the run has k records, stops after calling step k and carries that step's message |
| Orchestrator.ExecuteAllSucceed | utils/orchestrator.py:46-81 | when no step raises, the run has no error and one record per planned step |
| Orchestrator.ExecuteAppend | utils/orchestrator.py:46-84 | running two plans back to back equals running the second only when the first did not raise |
| Orchestrator.ExecuteSnoc | utils/orchestrator.py:46-78 | after steps that all returned, one more step either adds its record or ends the run with its message |
| Orchestrator.ExecuteAfterFailure | utils/orchestrator.py:83-84 | no step after a raising one changes the run |
| Orchestrator.Names | utils/orchestrator.py:49-78 | the step names of a plan, position by position |
| Orchestrator.RecordNames | utils/orchestrator.py:49-78 | the step names of a list of records, position by position |
| Orchestrator.InfrastructurePlan | utils/orchestrator.py:46-77 | terraform validation first, then security scan exactly when enabled (line 58), then drift detection exactly when enabled (line 69), all on the Terraform code |
| Orchestrator.ContainerPlan | utils/orchestrator.py:115-135 | dockerfile analysis first, then an image scan of the image name exactly when the name is truthy (line 127) |
| Orchestrator.K8sPlan | utils/orchestrator.py:168-188 | manifest validation first, then a policy check exactly when enabled (line 180), both on the manifest |
| Orchestrator.Finish | utils/orchestrator.py:79-87 | the record is finished; id, kind, start and steps are kept; it succeeds exactly when nothing raised, carries the message otherwise, and sets duration and completion time |
| Orchestrator.Workflow | utils/orchestrator.py:36-90 | the returned record is finished; its id prefix, kind and start are set; its steps and error are those of the reference run; it succeeds exactly when no step raised; it sets duration and completion time |
| Orchestrator.InfrastructureStepOrder | utils/orchestrator.py:46-78 | without a raising step the records are terraform validation, then security scan exactly when enabled, then drift detection exactly when enabled |
| Orchestrator.InfrastructureTwoSteps | utils/orchestrator.py:21-90 | the default flags (scan on, drift off) give a successful record with exactly two steps |
| Orchestrator.ContainerImageScanGate | utils/orchestrator.py:115-141 | the image scan is called exactly when an image name is given and the analysis returned; a raising analysis leaves no record and an error |
| Orchestrator.K8sPolicyGate | utils/orchestrator.py:168-194 | manifest validation is always called first; policy checks are called exactly when enabled and validation returned |
| Orchestrator.StubOutcome | utils/orchestrator.py:204-237 | every shipped executor returns its fixed payload and none raises |
| Orchestrator.StubWorkflowsSucceed | utils/orchestrator.py:204-237 | with the shipped executors every workflow succeeds and records every planned step with that executor's payload |
| Orchestrator.CountStatus | utils/orchestrator.py:243-244 | a status count never exceeds the history length |
| Orchestrator.CountPartition | utils/orchestrator.py:242-244 | on finished records, successes plus failures equal the history length |
| Orchestrator.CountAppend | utils/orchestrator.py:89 | appending a record adds one to the count of its own status only |
| Orchestrator.StepPort.constructor | utils/orchestrator.py:204-237 | a port over the given executors has no calls yet |
| Orchestrator.StepPort.Call | utils/orchestrator.py:204-237 | the executor's outcome for the step, with the call added to the trace |
| Orchestrator.WorkflowOrchestrator.constructor | utils/orchestrator.py:16-19 | empty history and zero counters |
| Orchestrator.WorkflowOrchestrator.Record | utils/orchestrator.py:89 | exactly one finished record is appended to the history |
| Orchestrator.WorkflowOrchestrator.ExecuteInfrastructureValidationWorkflow | utils/orchestrator.py:21-90 | the record returned and appended is that of the reference run of the gated infrastructure plan; the executors called are exactly those of that run |
| Orchestrator.WorkflowOrchestrator.ExecuteContainerWorkflow | utils/orchestrator.py:92-148 | the same, for the container plan, with the image scan gated on a non-empty image name |
| Orchestrator.WorkflowOrchestrator.ExecuteK8sWorkflow | utils/orchestrator.py:150-201 | the same, for the Kubernetes plan, with the policy check gated on its flag |
| Orchestrator.WorkflowOrchestrator.GetWorkflowSummary | utils/orchestrator.py:239-247 | the total is the history length; successes plus failures equal it; the cost is 0; the last min(10, n) records are shown in order |
| StringSort.Le | mcp_servers/security_scanner/server.py:30 | Python's `<=` on strings: a prefix is no greater than the string it starts; a non-empty string no greater than another has a first character no greater than the other's |
| StringSort.LeReflexive | mcp_servers/security_scanner/server.py:30 | string order is reflexive |
| StringSort.LeTotal | mcp_servers/security_scanner/server.py:30 | string order is total |
| StringSort.LeAntisymmetric | mcp_servers/security_scanner/server.py:30 | string order is antisymmetric |
| StringSort.LeTransitive | mcp_servers/security_scanner/server.py:30 | string order is transitive |
| StringSort.Insert | mcp_servers/security_scanner/server.py:30 | inserting into a sorted list keeps it sorted and adds exactly that element |
| StringSort.BeforeAll | mcp_servers/security_scanner/server.py:30 | an element no greater than the head can go in front |
| StringSort.Sort | mcp_servers/security_scanner/server.py:30 | `sorted` yields a sorted permutation of its input |
| StringSort.HeadIsLeast | mcp_servers/security_scanner/server.py:30 | the head of a sorted list is no greater than any element |
| StringSort.DropCommonHead | mcp_servers/security_scanner/server.py:30 | equal multisets with equal heads have equal tails |
| StringSort.SortedUnique | mcp_servers/security_scanner/server.py:30 | two sorted lists with the same elements are equal |
| StringSort.SortIgnoresOrder | mcp_servers/security_scanner/server.py:30 | permutations sort to the same list |
| SecurityScanner.KeyOf | mcp_servers/security_scanner/server.py:30 | the key keeps the repository and holds the requested tools sorted, each as often as requested |
| SecurityScanner.ScansFor | mcp_servers/security_scanner/server.py:58-73 | the report holds exactly the requested tools that are known, trivy and bandit, and no others |
| SecurityScanner.DefaultScanTypesRunBoth | mcp_servers/security_scanner/server.py:18 | with the default tool list both trivy and bandit run, each with its findings, and nothing else |
| SecurityScanner.SandboxName | mcp_servers/security_scanner/server.py:40 | `sec-scan-` followed by the first 8 digest characters |
| SecurityScanner.KeyIgnoresToolOrder | mcp_servers/security_scanner/server.py:30 | reordering the tool list gives the same cache key |
| SecurityScanner.KeyKeepsRepo | mcp_servers/security_scanner/server.py:30 | equal keys come from the same repository and the same multiset of tools |
| SecurityScanner.ScanServer.constructor | mcp_servers/security_scanner/server.py:15 | the cache starts empty and no sandbox has been requested |
| SecurityScanner.ScanServer.ScanCodebase | mcp_servers/security_scanner/server.py:18-84 | a hit returns the stored result and changes nothing; a miss requests a `sec-scan-` sandbox named by the first 8 digest characters on the py-app image; if creation raises there is no result and the cache is unchanged; otherwise it reports exactly the requested known tools' findings, marks the result uncached and stores it under the key |
| SecurityScanner.ScanServer.ScanTwice | mcp_servers/security_scanner/server.py:30-43 | once the first request has a result, a second with the tools in any order returns it and creates no sandbox; after a failed creation the second request misses again and requests another sandbox |
| DockerAnalyzer.Echo | mcp_servers/docker_analyzer/server.py:47 | the echo is the first min(100, n) characters followed by `...` |
| DockerAnalyzer.AnalysisSandboxName | mcp_servers/docker_analyzer/server.py:36-40 | `docker-analyze-` followed by the first 8 digest characters |
| DockerAnalyzer.AnalyzerServer.constructor | mcp_servers/docker_analyzer/server.py:14 | the cache starts empty and no sandbox has been requested |
| DockerAnalyzer.AnalyzerServer.AnalyzeDockerfile | mcp_servers/docker_analyzer/server.py:17-84 | a hit returns the stored result and changes nothing; a miss requests a prod-node sandbox; if creation raises there is no result and the cache is unchanged; otherwise it builds the fixed analysis with the echoed content, marks it uncached and stores it under the content's digest |
| DockerAnalyzer.AnalyzerServer.AnalyzeTwice | mcp_servers/docker_analyzer/server.py:27-40 | once the first analysis has a result, analysing the same content again returns it and creates no sandbox; after a failed creation the second call misses again |
| DockerAnalyzer.AnalyzerServer.ScanContainerImage | mcp_servers/docker_analyzer/server.py:87-134 | every call requests one `image-scan-` prod-base sandbox; there is a result exactly when creation returned, and it reports the image with the fixed counts, details and advice; the cache is outside its frame |
| Dashboard.Lower | app.py:300 | lower-casing keeps the length and lowers each ASCII letter in place |
| Dashboard.Upper | app.py:300 | not a model of source code: the ASCII upper-casing that `ClassifyIgnoresCase` uses to state that the lower-cased dispatch ignores case; it keeps the length and raises each ASCII letter in place |
| Dashboard.ContainsOccurs | app.py:302-313 | the substring test holds exactly when the word occurs at some position |
| Dashboard.Classify | app.py:297-313 | infrastructure words win; docker words win next when no infrastructure word occurs; Kubernetes words only when neither does; otherwise the general answer |
| Dashboard.TerraformWins | app.py:302 | a message mentioning "terraform" goes to the infrastructure branch whatever else it says |
| Dashboard.DockerBeforeKubernetes | app.py:308 | without infrastructure words, "container" goes to the docker branch |
| Dashboard.ValidateOutranksKubernetes | app.py:302-312 | a message naming "validate" and "k8s" mentions a Kubernetes word and still goes to the infrastructure branch |
| Dashboard.LowerUpper | app.py:300 | lower-casing after upper-casing equals lower-casing |
| Dashboard.ClassifyIgnoresCase | app.py:300-313 | the dispatch of a message does not change when the message is upper-cased |
| Common.Prefix | mcp_servers/docker_analyzer/server.py:47 | the slice `s[:k]`: the first min(k, n) elements, in order; it is also the `[:8]` of the sandbox names (security scanner line 40, Docker analyzer line 37) |
| Common.Last | app.py:119 | the slice `s[-k:]`: the last min(k, n) elements, in order; it is also the window of `get_logs` (app.py:461) and of the workflow summary (orchestrator.py:246) |
| Dashboard.Contains | app.py:302 | the substring test `word in text`: the empty word and any prefix of the text are in it, and no word longer than the text is |
| Dashboard.MentionsAny | app.py:302 | the `any(... in message_lower ...)` test of each branch: it holds exactly when some word of the list occurs at some position of the message |
| Common.Join | app.py:119 | `sep.join`: empty for no items, the item for one, and otherwise it starts with the first item |
| Common.JoinEndsWithLast | app.py:119 | a joined non-empty list ends with its last item, whatever the separator |
| Dashboard.LogView | app.py:119 | the view `add_log` returns: empty for an empty log, otherwise it ends with the newest line |
| Dashboard.LogEntry | app.py:117-118 | a log line starts with the bracketed timestamp, ends with the message, and adds six characters of framing to the timestamp, level and message |
| Dashboard.LastKeepsNewest | app.py:119 | a non-empty window keeps the newest line last |
| Dashboard.LogViewEndsWithNewest | app.py:116-119 | right after a line is added, the view ends with that line |
| Dashboard.Bump | app.py:123-124 | the key is added if missing; its tally rises by one; every other tally is unchanged |
| Dashboard.Get | app.py:123-124 | `dict.get(key, 0)`: the tally when the key is present, 0 otherwise |
| Dashboard.DecimalText | app.py:144 | the printed boot time: at least one character, only digits, no leading zero, and a single digit exactly below ten |
| Dashboard.DecimalTextRoundTrip | app.py:144 | the printed boot time is all digits and reads back as the same number |
| Dashboard.BranchModelsAndCharges | app.py:121-126 | the three branches (their select_model calls at app.py lines 141, 216 and 260) route to sonnet, gpt-4o and gpt-4o; each tracked operation charges 0.0045, 0.00375 and 0.00375 |
| Dashboard.OperationOf | app.py:147-261 | the tally key of each branch's `track_operation` call; the general answer counts none |
| Dashboard.ImageOf | app.py:147-261 | the sandbox image of each branch's `track_operation` call: prod-base for the infrastructure and Kubernetes branches, prod-node for Docker, none for the general answer |
| Dashboard.ModelOf | app.py:141-260 | the model of each branch's `select_model` call; the general answer routes to none |
| Dashboard.HubCallsOf | app.py:138-262 | at most three hub calls; a branch makes some exactly when it is the infrastructure or Kubernetes one |
| Dashboard.BranchKeysTallied | app.py:111-114 | every branch counts an operation and an image that the initial tallies already hold, and routes to a priced model |
| Dashboard.InfrastructureLogs | app.py:133-166 | seven lines, each headed by the bracketed timestamp; the third names the routed model, the fifth the boot time and the last the printed cost |
| Dashboard.DockerLogs | app.py:213-252 | four stamped lines; the third names the model and the last reports the analysis complete |
| Dashboard.KubernetesLogs | app.py:257-294 | two stamped lines; the last reports the validation complete |
| Dashboard.LogsOf | app.py:302-313 | the lines of the branch the dispatch picked, all stamped: none for the general answer, seven, four or two otherwise, the infrastructure ones ending with the printed cost |
| Dashboard.DevOpsState.constructor | app.py:105-114 | zero counters, an empty log, demo mode on, the two tallies with their initial keys at zero, and the given gateway and cost printer |
| Dashboard.DevOpsState.AppendLogs | app.py:116-118 | the lines are appended to the log, in order |
| Dashboard.DevOpsState.AddLog | app.py:116-119 | exactly one `[ts] [level] message` line is appended; the view is the last 20 lines and ends with the new one |
| Dashboard.DevOpsState.TrackOperation | app.py:121-126 | both tallies are bumped at their keys; one gateway request is counted; the gateway is charged for 1500 tokens of the model |
| Dashboard.DevOpsState.ComprehensiveInfraWorkflow | app.py:131-209 | routes to sonnet; appends the seven log lines in order; three hub calls; the rounded cost draw is added to the ledger and the same value is printed in the last line; one terraform/prod-base operation is tracked; the sandbox counter is back where it started |
| Dashboard.DevOpsState.DockerAnalysis | app.py:211-253 | routes to gpt-4o; appends the four log lines in order; one docker/prod-node operation is tracked; the sandbox counter is back where it started |
| Dashboard.DevOpsState.K8sValidation | app.py:255-295 | routes to gpt-4o; appends the two log lines; one hub call; one k8s/prod-base operation is tracked |
| Dashboard.DevOpsState.ChatResponse | app.py:297-313 | one more operation; the branch is `Classify`'s; the sandbox counter is net zero; the log, hub calls, cost, tallies and the gateway's ledger change exactly as that branch says; the general answer changes nothing else |
| Dashboard.DevOpsState.RunBranch | app.py:302-313 | each branch's effect on the state, by intent |
| Dashboard.DevOpsState.GetLogs | app.py:458-461 | a placeholder when the log is empty; otherwise the last 15 lines joined by newlines inside the panel, ending with the newest line |

Specification helpers that state no contract of their own, and so have no row:

- `Common.EndsWith`: the suffix test.
- `StringSort.Sorted`: the order of `sorted`'s output.
- `Orchestrator.Finished`: a record with a final status.
- `Orchestrator.FailsAt`: the first raising step.
- `Orchestrator.Continue`: two runs back to back, the second only when the first did not raise.
- `Dashboard.OccursAt`: an occurrence of a word at a position.
- `Dashboard.DigitsValue`: the number a digit string reads as.
- `Dashboard.Stamped`: every line headed by the bracketed timestamp.
- `Dashboard.CostText`: the `${cost}` rendering of the cost in app.py:166, by the printer fixed on `DevOpsState`.

## Left out

- I/O and presentation are not modelled. This covers the Gradio interface, the markdown responses, the HTML of the metrics panels, `json.dumps`, `print`, and the text of `general_response`.
- The clock (`time.time()`, `datetime.now()`) and the random draws (`random.randint`, `random.uniform`) are parameters. The `round(random.uniform(0.003, 0.007), 4)` of app.py:160 is folded into the `cost` parameter: the method adds that rounded value to the ledger and prints the same value. How Python's `str` prints a float is the `printCost` function given to `DevOpsState` when it is built.
- Default arguments are not modelled: the model's members take `select_model`'s `complexity` (default `MODERATE`, utils/model_gateway.py:31), `estimate_cost`'s token count (default 1000, :69) and the workflow flags (defaults at utils/orchestrator.py:24-25, 101 and 154) as required parameters. Where the source relies on a default, at `get_routing_explanation`'s `estimate_cost(model)` (utils/model_gateway.py:103), `GetRoutingExplanation` passes the default's value of 1000 tokens, which gives the same result. No modelled code calls the `execute_*` workflows, so their flag defaults are used by no caller.
- Each `execute_*` workflow returns the same dictionary it has just appended to `workflow_history` (utils/orchestrator.py:89-90, 148, 201). So a caller that changes the returned dictionary also changes the history. The model returns a `WorkflowRecord` value, so this aliasing is not captured. No modelled caller changes a returned record.
- Floating point is not modelled: prices, costs and averages are exact reals, and the roundings in `get_usage_stats` are dropped.
- MD5 is a digest function given to each server when it is built. How the key's text is rendered is folded into that function.
- Sandbox creation (`SandboxInstance.create`) is recorded as a creation request, and whether it returned is an input of each tool method. The sandbox SDK itself is not modelled.
- The tool servers' concurrency and the event loop that `chat_response` creates are left out. No branch awaits between two updates of the state.
- Consecutive `add_log` calls whose returned views are discarded are modelled by one `AppendLogs` call. `AddLog` models a single call and the view it returns.
- The per-step `duration_ms` in the orchestrator is left out. The step executors' `asyncio.sleep` delays are left out too.
- The workflow dictionary that `comprehensive_infra_workflow` builds is not modelled beyond its cost, and neither are its display-only steps.
- The dashboard uses the gateway's `get_routing_explanation` only for its text, so that call changes no state.
- `demo_mode` is set and never read.
- The other tool servers are not part of this model: terraform_validator, k8s_validator and infra_diff. Neither are agent.py and the test scripts.
- One clock reading stands for several in the source. `Workflow` and the workflow methods use `t0` both for `started_at` (orchestrator.py:42) and for the start of `duration_ms` (:37), so `startedAt` and the duration's start are always equal. They use `t1` both for the end of `duration_ms` and for `completed_at` (:80-81). So the model fixes `durationMs == (completedAt - startedAt) * 1000`, which the source's separate readings only approximate.
- The dashboard branch methods give all their log lines one `timestamp`. The source's `add_log` reads `datetime.now()` afresh for each line (app.py:117), so lines written across a second boundary can differ.
- The workflow methods take any executors, so any step may raise through the oracle. The shipped executors never raise; `StubWorkflowsSucceed` covers that case.
- Dashboard.Lower: lower-cases ASCII letters only. Python's `str.lower` also lowers non-ASCII characters, and some of them become ASCII keyword letters. U+212A KELVIN SIGN lowers to `k`, so "\u212A8s" reaches the Kubernetes branch and "DOC\u212AER" the Docker branch in the source. The model's `Classify` sends both to the general answer.
