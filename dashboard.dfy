/** The dashboard's bookkeeping (`DevOpsState` and the chat dispatch): counters
    bumped in place, a log list shown through bounded windows, and the keyword
    dispatch of a chat message to one of three demo workflows or the general
    answer. Response texts are presentation and are not modelled; random boot
    times and costs, and the clock's rendering, are parameters. */
module Dashboard {
  import opened Common
  import MG = ModelGateway

  // ---------------------------------------------------------------------------
  // Intent classification

  datatype Intent = Infrastructure | Docker | Kubernetes | General

  const InfrastructureWords: seq<string> := ["validate", "terraform", "infrastructure", "infra"]
  const DockerWords: seq<string> := ["docker", "dockerfile", "container"]
  const KubernetesWords: seq<string> := ["kubernetes", "k8s", "manifest", "pod"]

  function LowerChar(c: char): char
  {
    if 'A' <= c <= 'Z' then (c as int + 32) as char else c
  }

  function UpperChar(c: char): char
  {
    if 'a' <= c <= 'z' then (c as int - 32) as char else c
  }

  /** `str.lower()` on ASCII letters; every other character is kept. */
  function Lower(s: string): (r: string)
    ensures |r| == |s| && forall i :: 0 <= i < |s| ==> r[i] == LowerChar(s[i])
  {
    if s == [] then [] else [LowerChar(s[0])] + Lower(s[1..])
  }

  function Upper(s: string): (r: string)
    ensures |r| == |s| && forall i :: 0 <= i < |s| ==> r[i] == UpperChar(s[i])
  {
    if s == [] then [] else [UpperChar(s[0])] + Upper(s[1..])
  }

  /** Python's `w in s` on strings, by scanning start positions. */
  predicate Contains(s: string, w: string)
    ensures Contains(s, w) ==> |w| <= |s|
    ensures w <= s ==> Contains(s, w)
    ensures w == [] ==> Contains(s, w)
    decreases |s|
  {
    |w| <= |s| && (s[..|w|] == w || Contains(s[1..], w))
  }

  /** `w` occurs in `s` starting at position `i`. */
  predicate OccursAt(s: string, w: string, i: int)
  {
    0 <= i && i + |w| <= |s| && s[i..i + |w|] == w
  }

  /** The scan finds `w` exactly when it occurs at some position of `s`. */
  lemma {:induction false} ContainsOccurs(s: string, w: string)
    ensures Contains(s, w) <==> exists i :: OccursAt(s, w, i)
    decreases |s|
  {
    if |w| <= |s| {
      if s[..|w|] == w {
        assert OccursAt(s, w, 0);
      } else {
        ContainsOccurs(s[1..], w);
        if exists i :: OccursAt(s, w, i) {
          var i :| OccursAt(s, w, i);
          assert i > 0;
          assert OccursAt(s[1..], w, i - 1) by {
            assert s[1..][i - 1..i - 1 + |w|] == s[i..i + |w|];
          }
        }
        if Contains(s[1..], w) {
          var i :| OccursAt(s[1..], w, i);
          assert OccursAt(s, w, i + 1) by {
            assert s[1..][i..i + |w|] == s[i + 1..i + 1 + |w|];
          }
        }
      }
    }
  }

  /** `any(word in s for word in words)`. */
  predicate MentionsAny(s: string, words: seq<string>)
    ensures MentionsAny(s, words) <==> exists i, j :: 0 <= i < |words| && OccursAt(s, words[i], j)
  {
    assert forall i :: 0 <= i < |words| ==> (Contains(s, words[i]) <==> exists j :: OccursAt(s, words[i], j)) by {
      forall i | 0 <= i < |words| ensures Contains(s, words[i]) <==> exists j :: OccursAt(s, words[i], j) {
        ContainsOccurs(s, words[i]);
      }
    }
    exists i :: 0 <= i < |words| && Contains(s, words[i])
  }

  /** The dispatch of `chat_response`, in its priority order. */
  function Classify(message: string): (intent: Intent)
    ensures intent == Infrastructure <==> MentionsAny(Lower(message), InfrastructureWords)
    ensures intent == Docker <==>
      !MentionsAny(Lower(message), InfrastructureWords) && MentionsAny(Lower(message), DockerWords)
    ensures intent == Kubernetes <==>
      && !MentionsAny(Lower(message), InfrastructureWords)
      && !MentionsAny(Lower(message), DockerWords)
      && MentionsAny(Lower(message), KubernetesWords)
  {
    var m := Lower(message);
    if MentionsAny(m, InfrastructureWords) then Infrastructure
    else if MentionsAny(m, DockerWords) then Docker
    else if MentionsAny(m, KubernetesWords) then Kubernetes
    else General
  }

  /** Infrastructure keywords win over all others: a message that mentions
      "terraform" goes to the infrastructure branch even if it also mentions
      "docker" or "k8s". */
  lemma TerraformWins(message: string)
    requires Contains(Lower(message), "terraform")
    ensures Classify(message) == Infrastructure
  {
    assert InfrastructureWords[1] == "terraform";
  }

  /** Docker keywords win over Kubernetes ones when no infrastructure keyword
      occurs. */
  lemma DockerBeforeKubernetes(message: string)
    requires !MentionsAny(Lower(message), InfrastructureWords)
    requires Contains(Lower(message), "container")
    ensures Classify(message) == Docker
  {
    assert DockerWords[2] == "container";
  }

  /** "validate" outranks every Kubernetes keyword: the Kubernetes example the
      general answer suggests, "Validate K8s manifest", names Kubernetes and
      is still dispatched to the infrastructure branch. */
  lemma ValidateOutranksKubernetes(message: string)
    requires Contains(Lower(message), "validate") && Contains(Lower(message), "k8s")
    ensures MentionsAny(Lower(message), KubernetesWords)
    ensures Classify(message) == Infrastructure
  {
    assert InfrastructureWords[0] == "validate";
    assert KubernetesWords[1] == "k8s";
  }

  lemma {:induction false} LowerUpper(s: string)
    ensures Lower(Upper(s)) == Lower(s)
  {
    var a, b := Lower(Upper(s)), Lower(s);
    assert |a| == |b|;
    forall i | 0 <= i < |s| ensures a[i] == b[i] {
      assert a[i] == LowerChar(UpperChar(s[i]));
    }
  }

  /** The dispatch ignores case: shouting a message changes nothing. */
  lemma ClassifyIgnoresCase(message: string)
    ensures Classify(Upper(message)) == Classify(message)
  {
    LowerUpper(message);
  }

  // ---------------------------------------------------------------------------
  // The state

  /** `add_log` joins its window with the two characters backslash and n. */
  const LogSeparator: string := "\\n"
  const AddLogWindow: nat := 20
  const LogsPanelWindow: nat := 15
  const NoLogsPanel: string := "<div class='logs-panel'>No logs yet...</div>"
  const LogsPanelOpen: string := "<div class='logs-panel'>"
  const LogsPanelClose: string := "</div>"

  /** Tokens charged to the gateway for every tracked operation. */
  const TokensPerOperation: int := 1500

  const InitialImagesUsed: map<string, nat> := map["prod-base" := 0, "prod-python" := 0, "prod-node" := 0]
  const InitialOperationsByType: map<string, nat> :=
    map["terraform" := 0, "security" := 0, "docker" := 0, "k8s" := 0, "drift" := 0]

  /** What `add_log` returns: the last 20 lines joined, oldest first. */
  function LogView(logs: seq<string>): (view: string)
    ensures logs == [] ==> view == ""
    ensures logs != [] ==> EndsWith(view, logs[|logs| - 1])
  {
    if logs != [] then
      LastKeepsNewest(logs, AddLogWindow);
      JoinEndsWithLast(Last(logs, AddLogWindow), LogSeparator);
      Join(Last(logs, AddLogWindow), LogSeparator)
    else
      Join(Last(logs, AddLogWindow), LogSeparator)
  }

  /** The newest of the lines a window keeps is the newest line of all. */
  lemma LastKeepsNewest(logs: seq<string>, k: nat)
    requires logs != [] && k > 0
    ensures |Last(logs, k)| > 0 && Last(logs, k)[|Last(logs, k)| - 1] == logs[|logs| - 1]
  {
  }

  /** Right after a line is logged, the view `add_log` returns ends with it. */
  lemma LogViewEndsWithNewest(logs: seq<string>, line: string)
    ensures EndsWith(LogView(logs + [line]), line)
  {
    LastKeepsNewest(logs + [line], AddLogWindow);
    JoinEndsWithLast(Last(logs + [line], AddLogWindow), LogSeparator);
  }

  /** One log line: `"[ts] [level] message"`. */
  function LogEntry(timestamp: string, level: string, message: string): (e: string)
    ensures |e| == |timestamp| + |level| + |message| + 6
    ensures e[..|timestamp| + 2] == "[" + timestamp + "]"
    ensures EndsWith(e, message)
  {
    "[" + timestamp + "] [" + level + "] " + message
  }

  /** `counts.get(key, 0)`. */
  function Get(counts: map<string, nat>, key: string): (n: nat)
    ensures key in counts ==> n == counts[key]
    ensures key !in counts ==> n == 0
  {
    if key in counts then counts[key] else 0
  }

  /** `counts[key] = counts.get(key, 0) + 1`. */
  function Bump(counts: map<string, nat>, key: string): (r: map<string, nat>)
    ensures r.Keys == counts.Keys + {key}
    ensures Get(r, key) == Get(counts, key) + 1
    ensures forall k :: k != key ==> Get(r, k) == Get(counts, k)
  {
    counts[key := Get(counts, key) + 1]
  }

  /** Decimal digits of a natural number, as `str` prints it: at least one
      digit, and no leading zero. */
  function DecimalText(n: nat): (r: string)
    ensures |r| > 0 && forall i :: 0 <= i < |r| ==> '0' <= r[i] <= '9'
    ensures |r| > 1 ==> r[0] != '0'
    ensures n < 10 <==> |r| == 1
  {
    if n < 10 then [('0' as int + n) as char]
    else DecimalText(n / 10) + [('0' as int + n % 10) as char]
  }

  /** Python's `int(s)` on a string of decimal digits. */
  function DigitsValue(s: string): int
  {
    if s == [] then 0 else DigitsValue(s[..|s| - 1]) * 10 + (s[|s| - 1] as int - '0' as int)
  }

  /** The rendering is all digits and reads back as the same number. */
  lemma {:induction false} DecimalTextRoundTrip(n: nat)
    ensures forall i :: 0 <= i < |DecimalText(n)| ==> '0' <= DecimalText(n)[i] <= '9'
    ensures DigitsValue(DecimalText(n)) == n
  {
    var s := DecimalText(n);
    if n < 10 {
      assert s[..|s| - 1] == [];
    } else {
      DecimalTextRoundTrip(n / 10);
      assert s[..|s| - 1] == DecimalText(n / 10);
    }
  }

  /** What the branch taken by `chat_response` counts: its operation type, its
      sandbox image and the model it routes to. */
  /** The tally key a branch counts; the general answer counts none. */
  function OperationOf(intent: Intent): (op: string)
    ensures intent == General <==> op == ""
  {
    match intent
    case Infrastructure => "terraform"
    case Docker => "docker"
    case Kubernetes => "k8s"
    case General => ""
  }

  /** The sandbox image a branch counts: the base image for the infrastructure
      and Kubernetes branches, the node image for Docker, none for the general
      answer. */
  function ImageOf(intent: Intent): (image: string)
    ensures intent == General <==> image == ""
    ensures intent == Infrastructure || intent == Kubernetes ==> image == "prod-base"
    ensures intent == Docker ==> image == "prod-node"
  {
    match intent
    case Infrastructure => "prod-base"
    case Docker => "prod-node"
    case Kubernetes => "prod-base"
    case General => ""
  }

  /** The model a branch routes to; the general answer routes to none. */
  function ModelOf(intent: Intent): (model: string)
    ensures intent == General <==> model == ""
  {
    match intent
    case Infrastructure => MG.SelectModel("terraform", MG.Complex)
    case Docker => MG.SelectModel("docker", MG.Moderate)
    case Kubernetes => MG.SelectModel("k8s", MG.Moderate)
    case General => ""
  }

  /** The models the three branches route to, and what each tracked operation
      of theirs adds to the gateway's ledger at 1500 tokens. */
  lemma BranchModelsAndCharges()
    ensures ModelOf(Infrastructure) == "claude-3-5-sonnet"
    ensures ModelOf(Docker) == "gpt-4o" && ModelOf(Kubernetes) == "gpt-4o"
    ensures MG.EstimateCost(MG.InitialModelCosts, ModelOf(Infrastructure), TokensPerOperation) == 0.0045
    ensures MG.EstimateCost(MG.InitialModelCosts, ModelOf(Docker), TokensPerOperation) == 0.00375
    ensures MG.EstimateCost(MG.InitialModelCosts, ModelOf(Kubernetes), TokensPerOperation) == 0.00375
  {
    assert ("terraform", MG.Complex) in MG.RoutingTable;
    assert ("docker", MG.Moderate) in MG.RoutingTable;
    assert ("k8s", MG.Moderate) in MG.RoutingTable;
  }

  /** Every branch counts an operation and an image the initial tallies
      already hold, and routes to a model the price table holds. */
  lemma BranchKeysTallied(intent: Intent)
    requires intent != General
    ensures OperationOf(intent) in InitialOperationsByType
    ensures ImageOf(intent) in InitialImagesUsed
    ensures ModelOf(intent) in MG.InitialModelCosts
  {
    BranchModelsAndCharges();
  }

  /** The MCP hub calls a branch adds. */
  function HubCallsOf(intent: Intent): (n: nat)
    ensures n <= 3
    ensures n > 0 <==> intent == Infrastructure || intent == Kubernetes
  {
    match intent
    case Infrastructure => 3
    case Kubernetes => 1
    case _ => 0
  }

  /** The fixed parts of the log lines the branches write. */
  const StartingInfraMsg: string := "🚀 Starting comprehensive infrastructure validation"
  const HubConnectMsg: string := "📦 Blaxel MCP Hub: Connecting to GitHub, Filesystem, Memory servers"
  const RoutedToMsg: string := "🤖 Model Gateway: Routed to "
  const InfraSandboxMsg: string := "🐳 Sandbox: Using prod-base image for Terraform"
  const SandboxReadyMsg: string := "⏱️  Sandbox ready in "
  const SandboxReadySuffix: string := "ms (<25ms target!)"
  const WorkflowDoneMsg: string := "✅ Workflow completed successfully"
  const CostMsg: string := "💰 Cost: $"
  const CostSuffix: string := " (85% cheaper than Lambda)"
  const AnalyzingDockerMsg: string := "🐳 Analyzing Docker container"
  const DockerSandboxMsg: string := "🐳 Sandbox: Using prod-node image (Docker tools)"
  const ModelMsg: string := "🤖 Model: "
  const DockerDoneMsg: string := "✅ Docker analysis complete"
  const ValidatingK8sMsg: string := "☸️ Validating Kubernetes manifests"
  const K8sDoneMsg: string := "✅ K8s validation complete"

  /** Every line carries the bracketed timestamp at its head. */
  predicate Stamped(lines: seq<string>, timestamp: string)
  {
    forall i :: 0 <= i < |lines| ==>
      |timestamp| + 2 <= |lines[i]| && lines[i][..|timestamp| + 2] == "[" + timestamp + "]"
  }

  /** The log lines each branch adds, in order: the routed model in the third
      line, the boot time in the fifth and the printed cost in the last. */
  function InfrastructureLogs(timestamp: string, model: string, bootTime: nat, costText: string): (lines: seq<string>)
    ensures |lines| == 7 && Stamped(lines, timestamp)
    ensures EndsWith(lines[2], RoutedToMsg + model)
    ensures EndsWith(lines[4], SandboxReadyMsg + DecimalText(bootTime) + SandboxReadySuffix)
    ensures EndsWith(lines[6], CostMsg + costText + CostSuffix)
  {
    [ LogEntry(timestamp, "INFO", StartingInfraMsg),
      LogEntry(timestamp, "INFO", HubConnectMsg),
      LogEntry(timestamp, "INFO", RoutedToMsg + model),
      LogEntry(timestamp, "INFO", InfraSandboxMsg),
      LogEntry(timestamp, "SUCCESS", SandboxReadyMsg + DecimalText(bootTime) + SandboxReadySuffix),
      LogEntry(timestamp, "SUCCESS", WorkflowDoneMsg),
      LogEntry(timestamp, "INFO", CostMsg + costText + CostSuffix) ]
  }

  function DockerLogs(timestamp: string, model: string): (lines: seq<string>)
    ensures |lines| == 4 && Stamped(lines, timestamp)
    ensures EndsWith(lines[2], ModelMsg + model)
    ensures EndsWith(lines[3], DockerDoneMsg)
  {
    [ LogEntry(timestamp, "INFO", AnalyzingDockerMsg),
      LogEntry(timestamp, "INFO", DockerSandboxMsg),
      LogEntry(timestamp, "INFO", ModelMsg + model),
      LogEntry(timestamp, "SUCCESS", DockerDoneMsg) ]
  }

  function KubernetesLogs(timestamp: string): (lines: seq<string>)
    ensures |lines| == 2 && Stamped(lines, timestamp)
    ensures EndsWith(lines[1], K8sDoneMsg)
  {
    [ LogEntry(timestamp, "INFO", ValidatingK8sMsg),
      LogEntry(timestamp, "SUCCESS", K8sDoneMsg) ]
  }

  /** The log lines the branch for `intent` adds; the general answer adds none. */
  function LogsOf(intent: Intent, timestamp: string, bootTime: nat, costText: string): (lines: seq<string>)
    ensures Stamped(lines, timestamp)
    ensures intent == General <==> lines == []
    ensures intent == Infrastructure ==> |lines| == 7 && EndsWith(lines[6], CostMsg + costText + CostSuffix)
    ensures intent == Docker ==> |lines| == 4
    ensures intent == Kubernetes ==> |lines| == 2
  {
    match intent
    case Infrastructure => InfrastructureLogs(timestamp, ModelOf(Infrastructure), bootTime, costText)
    case Docker => DockerLogs(timestamp, ModelOf(Docker))
    case Kubernetes => KubernetesLogs(timestamp)
    case General => []
  }

  /** The cost as an f-string prints it, by the printer `render`. */
  function CostText(render: real -> string, cost: real): string
  {
    render(cost)
  }

  class DevOpsState {
    var activeSandboxes: int
    var totalOperations: nat
    var cumulativeCost: real
    var logs: seq<string>
    var demoMode: bool
    var sandboxImagesUsed: map<string, nat>
    var mcpHubCalls: nat
    var modelGatewayRequests: nat
    var operationsByType: map<string, nat>
    /** The process-wide `model_gateway`. */
    const gateway: MG.Gateway
    /** How an f-string prints a cost (Python's `str` of a float). */
    const printCost: real -> string

    ghost predicate Valid()
      reads this, gateway
    {
      gateway.Valid()
    }

    constructor (gateway: MG.Gateway, printCost: real -> string)
      requires gateway.Valid()
      ensures Valid() && this.gateway == gateway && this.printCost == printCost
      ensures activeSandboxes == 0 && totalOperations == 0 && cumulativeCost == 0.0
      ensures logs == [] && demoMode
      ensures sandboxImagesUsed == InitialImagesUsed && operationsByType == InitialOperationsByType
      ensures mcpHubCalls == 0 && modelGatewayRequests == 0
    {
      this.gateway := gateway;
      this.printCost := printCost;
      activeSandboxes := 0;
      totalOperations := 0;
      cumulativeCost := 0.0;
      logs := [];
      demoMode := true;
      sandboxImagesUsed := InitialImagesUsed;
      mcpHubCalls := 0;
      modelGatewayRequests := 0;
      operationsByType := InitialOperationsByType;
    }

    /** Appends lines to the log, in order. A run of `add_log` calls whose
        views are discarded and between which nothing else happens is one call
        of this method. */
    method AppendLogs(lines: seq<string>)
      modifies this`logs
      ensures logs == old(logs) + lines
    {
      logs := logs + lines;
    }

    /** `add_log`: one more line; the view is the last 20 lines, oldest first,
        so it ends with the new line. */
    method AddLog(message: string, level: string, timestamp: string) returns (view: string)
      modifies this`logs
      ensures logs == old(logs) + [LogEntry(timestamp, level, message)]
      ensures view == LogView(logs)
      ensures EndsWith(view, LogEntry(timestamp, level, message))
    {
      AppendLogs([LogEntry(timestamp, level, message)]);
      view := LogView(logs);
      LogViewEndsWithNewest(old(logs), LogEntry(timestamp, level, message));
    }

    /** `track_operation`: bumps two counters by key, counts one gateway
        request, and charges the gateway for 1500 tokens of `modelUsed`. */
    method TrackOperation(opType: string, sandboxImage: string, modelUsed: string)
      modifies this`operationsByType, this`sandboxImagesUsed, this`modelGatewayRequests
      modifies gateway`totalCost, gateway`requestCount
      ensures Valid()
      ensures operationsByType == Bump(old(operationsByType), opType)
      ensures sandboxImagesUsed == Bump(old(sandboxImagesUsed), sandboxImage)
      ensures modelGatewayRequests == old(modelGatewayRequests) + 1
      ensures gateway.requestCount == old(gateway.requestCount) + 1
      ensures gateway.totalCost == old(gateway.totalCost) + MG.EstimateCost(gateway.modelCosts, modelUsed, TokensPerOperation)
    {
      operationsByType := Bump(operationsByType, opType);
      sandboxImagesUsed := Bump(sandboxImagesUsed, sandboxImage);
      modelGatewayRequests := modelGatewayRequests + 1;
      gateway.TrackUsage(modelUsed, TokensPerOperation);
    }

    /** `comprehensive_infra_workflow`'s bookkeeping; `bootTime` is its
        boot-time draw and `cost` its cost draw already rounded to four places:
        the one value both added to the ledger and printed in the last line. */
    method ComprehensiveInfraWorkflow(timestamp: string, bootTime: nat, cost: real)
      returns (model: string)
      modifies this`logs, this`activeSandboxes, this`mcpHubCalls, this`cumulativeCost
      modifies this`operationsByType, this`sandboxImagesUsed, this`modelGatewayRequests
      modifies gateway`totalCost, gateway`requestCount
      ensures Valid()
      ensures model == ModelOf(Infrastructure)
      ensures logs == old(logs) + InfrastructureLogs(timestamp, model, bootTime, CostText(printCost, cost))
      ensures activeSandboxes == old(activeSandboxes)
      ensures mcpHubCalls == old(mcpHubCalls) + 3
      ensures cumulativeCost == old(cumulativeCost) + cost
      ensures operationsByType == Bump(old(operationsByType), "terraform")
      ensures sandboxImagesUsed == Bump(old(sandboxImagesUsed), "prod-base")
      ensures modelGatewayRequests == old(modelGatewayRequests) + 1
      ensures gateway.requestCount == old(gateway.requestCount) + 1
      ensures gateway.totalCost == old(gateway.totalCost) + MG.EstimateCost(gateway.modelCosts, model, TokensPerOperation)
    {
      var opening := [LogEntry(timestamp, "INFO", StartingInfraMsg), LogEntry(timestamp, "INFO", HubConnectMsg)];
      AppendLogs(opening);
      activeSandboxes := activeSandboxes + 1;
      mcpHubCalls := mcpHubCalls + 3;
      model := MG.SelectModel("terraform", MG.Complex);
      BranchModelsAndCharges();
      var routing := [
        LogEntry(timestamp, "INFO", RoutedToMsg + model),
        LogEntry(timestamp, "INFO", InfraSandboxMsg),
        LogEntry(timestamp, "SUCCESS", SandboxReadyMsg + DecimalText(bootTime) + SandboxReadySuffix)];
      AppendLogs(routing);
      TrackOperation("terraform", "prod-base", model);
      cumulativeCost := cumulativeCost + cost;
      activeSandboxes := activeSandboxes - 1;
      var closing := [LogEntry(timestamp, "SUCCESS", WorkflowDoneMsg), LogEntry(timestamp, "INFO", CostMsg + CostText(printCost, cost) + CostSuffix)];
      AppendLogs(closing);
      assert opening + routing + closing == InfrastructureLogs(timestamp, model, bootTime, CostText(printCost, cost));
    }

    /** `docker_analysis`'s bookkeeping. */
    method DockerAnalysis(timestamp: string) returns (model: string)
      modifies this`logs, this`activeSandboxes
      modifies this`operationsByType, this`sandboxImagesUsed, this`modelGatewayRequests
      modifies gateway`totalCost, gateway`requestCount
      ensures Valid()
      ensures model == ModelOf(Docker)
      ensures logs == old(logs) + DockerLogs(timestamp, model)
      ensures activeSandboxes == old(activeSandboxes)
      ensures operationsByType == Bump(old(operationsByType), "docker")
      ensures sandboxImagesUsed == Bump(old(sandboxImagesUsed), "prod-node")
      ensures modelGatewayRequests == old(modelGatewayRequests) + 1
      ensures gateway.requestCount == old(gateway.requestCount) + 1
      ensures gateway.totalCost == old(gateway.totalCost) + MG.EstimateCost(gateway.modelCosts, model, TokensPerOperation)
    {
      AppendLogs([LogEntry(timestamp, "INFO", AnalyzingDockerMsg)]);
      model := MG.SelectModel("docker", MG.Moderate);
      BranchModelsAndCharges();
      activeSandboxes := activeSandboxes + 1;
      TrackOperation("docker", "prod-node", model);
      AppendLogs([LogEntry(timestamp, "INFO", DockerSandboxMsg), LogEntry(timestamp, "INFO", ModelMsg + model)]);
      activeSandboxes := activeSandboxes - 1;
      AppendLogs([LogEntry(timestamp, "SUCCESS", DockerDoneMsg)]);
    }

    /** `k8s_validation`'s bookkeeping. */
    method K8sValidation(timestamp: string) returns (model: string)
      modifies this`logs, this`mcpHubCalls
      modifies this`operationsByType, this`sandboxImagesUsed, this`modelGatewayRequests
      modifies gateway`totalCost, gateway`requestCount
      ensures Valid()
      ensures model == ModelOf(Kubernetes)
      ensures logs == old(logs) + KubernetesLogs(timestamp)
      ensures mcpHubCalls == old(mcpHubCalls) + 1
      ensures operationsByType == Bump(old(operationsByType), "k8s")
      ensures sandboxImagesUsed == Bump(old(sandboxImagesUsed), "prod-base")
      ensures modelGatewayRequests == old(modelGatewayRequests) + 1
      ensures gateway.requestCount == old(gateway.requestCount) + 1
      ensures gateway.totalCost == old(gateway.totalCost) + MG.EstimateCost(gateway.modelCosts, model, TokensPerOperation)
    {
      AppendLogs([LogEntry(timestamp, "INFO", ValidatingK8sMsg)]);
      model := MG.SelectModel("k8s", MG.Moderate);
      BranchModelsAndCharges();
      TrackOperation("k8s", "prod-base", model);
      mcpHubCalls := mcpHubCalls + 1;
      AppendLogs([LogEntry(timestamp, "SUCCESS", K8sDoneMsg)]);
    }

    /** `chat_response`: one more operation, then the branch the dispatch picks.
        The general answer changes nothing else; every other branch counts its
        operation, image and model once and leaves `activeSandboxes` as it was. */
    method ChatResponse(message: string, timestamp: string, bootTime: nat, cost: real)
      returns (intent: Intent)
      requires Valid()
      modifies this`totalOperations, this`logs, this`activeSandboxes, this`mcpHubCalls, this`cumulativeCost
      modifies this`operationsByType, this`sandboxImagesUsed, this`modelGatewayRequests
      modifies gateway`totalCost, gateway`requestCount
      ensures Valid()
      ensures intent == Classify(message)
      ensures totalOperations == old(totalOperations) + 1
      ensures activeSandboxes == old(activeSandboxes)
      ensures mcpHubCalls == old(mcpHubCalls) + HubCallsOf(intent)
      ensures cumulativeCost == old(cumulativeCost) + (if intent == Infrastructure then cost else 0.0)
      ensures logs == old(logs) + LogsOf(intent, timestamp, bootTime, CostText(printCost, cost))
      ensures intent == General ==>
        && operationsByType == old(operationsByType) && sandboxImagesUsed == old(sandboxImagesUsed)
        && modelGatewayRequests == old(modelGatewayRequests)
        && gateway.requestCount == old(gateway.requestCount) && gateway.totalCost == old(gateway.totalCost)
      ensures intent != General ==>
        && operationsByType == Bump(old(operationsByType), OperationOf(intent))
        && sandboxImagesUsed == Bump(old(sandboxImagesUsed), ImageOf(intent))
        && modelGatewayRequests == old(modelGatewayRequests) + 1
        && gateway.requestCount == old(gateway.requestCount) + 1
        && gateway.totalCost == old(gateway.totalCost)
             + MG.EstimateCost(gateway.modelCosts, ModelOf(intent), TokensPerOperation)
    {
      totalOperations := totalOperations + 1;
      intent := Classify(message);
      RunBranch(intent, timestamp, bootTime, cost);
    }

    /** The `if`/`elif` chain of `chat_response` once the branch is known. */
    method RunBranch(intent: Intent, timestamp: string, bootTime: nat, cost: real)
      requires Valid()
      modifies this`logs, this`activeSandboxes, this`mcpHubCalls, this`cumulativeCost
      modifies this`operationsByType, this`sandboxImagesUsed, this`modelGatewayRequests
      modifies gateway`totalCost, gateway`requestCount
      ensures Valid()
      ensures activeSandboxes == old(activeSandboxes)
      ensures mcpHubCalls == old(mcpHubCalls) + HubCallsOf(intent)
      ensures cumulativeCost == old(cumulativeCost) + (if intent == Infrastructure then cost else 0.0)
      ensures logs == old(logs) + LogsOf(intent, timestamp, bootTime, CostText(printCost, cost))
      ensures intent == General ==>
        && operationsByType == old(operationsByType) && sandboxImagesUsed == old(sandboxImagesUsed)
        && modelGatewayRequests == old(modelGatewayRequests)
        && gateway.requestCount == old(gateway.requestCount) && gateway.totalCost == old(gateway.totalCost)
      ensures intent != General ==>
        && operationsByType == Bump(old(operationsByType), OperationOf(intent))
        && sandboxImagesUsed == Bump(old(sandboxImagesUsed), ImageOf(intent))
        && modelGatewayRequests == old(modelGatewayRequests) + 1
        && gateway.requestCount == old(gateway.requestCount) + 1
        && gateway.totalCost == old(gateway.totalCost)
             + MG.EstimateCost(gateway.modelCosts, ModelOf(intent), TokensPerOperation)
    {
      match intent
      case Infrastructure =>
        var _ := ComprehensiveInfraWorkflow(timestamp, bootTime, cost);
      case Docker =>
        var _ := DockerAnalysis(timestamp);
      case Kubernetes =>
        var _ := K8sValidation(timestamp);
      case General =>
    }

    /** `get_logs`: a placeholder when empty, else the last 15 lines joined by
        newlines inside the logs panel. */
    function GetLogs(): (panel: string)
      reads this
      ensures logs == [] ==> panel == NoLogsPanel
      ensures logs != [] ==>
        panel == LogsPanelOpen + Join(Last(logs, LogsPanelWindow), "\n") + LogsPanelClose
      ensures logs != [] ==> EndsWith(panel, logs[|logs| - 1] + LogsPanelClose)
    {
      if logs == [] then NoLogsPanel
      else
        var body := Join(Last(logs, LogsPanelWindow), "\n");
        LastKeepsNewest(logs, LogsPanelWindow);
        JoinEndsWithLast(Last(logs, LogsPanelWindow), "\n");
        var panel := LogsPanelOpen + body + LogsPanelClose;
        assert panel[|panel| - |logs[|logs| - 1] + LogsPanelClose|..]
            == body[|body| - |logs[|logs| - 1]|..] + LogsPanelClose;
        panel
    }
  }
}
