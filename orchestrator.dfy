/** The workflow sequencer and its history (`WorkflowOrchestrator`). Each of the
    three workflows runs a fixed, ordered list of steps, some gated by flags;
    every step that returns appends one step record; the first step that raises
    stops the rest and marks the workflow failed, keeping the records already
    made; every run, successful or not, appends exactly one record to the
    history. The step executors (`_validate_terraform` and the rest) are an
    oracle reached through `StepPort`, which also keeps the trace of calls. */
module Orchestrator {
  import opened Common

  /** The executors the workflows call, one per step. */
  datatype StepName =
    | TerraformValidation | SecurityScan | DriftDetection
    | DockerfileAnalysis | ImageScan
    | ManifestValidation | PolicyCheck
  {
    /** The `"step"` field of the step's record. */
    function Label(): string
    {
      match this
      case TerraformValidation => "terraform_validation"
      case SecurityScan => "security_scan"
      case DriftDetection => "drift_detection"
      case DockerfileAnalysis => "dockerfile_analysis"
      case ImageScan => "image_scan"
      case ManifestValidation => "manifest_validation"
      case PolicyCheck => "policy_check"
    }
  }

  /** A planned call: the executor and the content it is given. */
  datatype Step = Step(name: StepName, input: string)

  /** An executor's result payload, passed through without interpretation. */
  type Payload = string

  /** What an executor does: returns a payload, or raises with a message. */
  datatype Outcome = Ok(payload: Payload) | Err(msg: string)

  /** The executors' behaviour, fixed for one port. */
  type Oracle = Step -> Outcome

  /** A step record: every record the source appends has status "success",
      so the model keeps only the step and its payload. */
  datatype StepRecord = StepRecord(step: StepName, result: Payload)

  datatype WorkflowKind = InfrastructureValidation | ContainerAnalysis | K8sValidation
  {
    /** The record's `"type"` field. */
    function Label(): string
    {
      match this
      case InfrastructureValidation => "infrastructure_validation"
      case ContainerAnalysis => "container_analysis"
      case K8sValidation => "k8s_validation"
    }

    /** The prefix of the workflow id, which ends in the clock's seconds. */
    function IdPrefix(): string
    {
      match this
      case InfrastructureValidation => "infra-val-"
      case ContainerAnalysis => "container-"
      case K8sValidation => "k8s-"
    }
  }

  /** `Running` is the state of a record before its status key is set. */
  datatype Status = Running | Success | Failed

  /** The `workflow_log` dictionary. Clock readings are opaque reals; the keys
      the source sets only at the end are `Option`s. */
  datatype WorkflowRecord = WorkflowRecord(
    workflowId: string,
    kind: WorkflowKind,
    startedAt: real,
    steps: seq<StepRecord>,
    status: Status,
    error: Option<string>,
    durationMs: Option<real>,
    completedAt: Option<real>)

  /** A record on which one of the two endings of the try block has run. */
  predicate Finished(w: WorkflowRecord)
  {
    && (w.status == Success || w.status == Failed)
    && (w.status == Failed <==> w.error.Some?)
    && w.durationMs.Some? && w.completedAt.Some?
  }

  /** What running a plan produced: the records appended, the executors
      called, and the message of the step that raised, if one did. */
  datatype RunResult = RunResult(steps: seq<StepRecord>, invoked: seq<Step>, error: Option<string>)

  /** The reference sequencer: run the plan in order and stop at the first step
      that raises; that step is called but leaves no record. */
  function Execute(plan: seq<Step>, outcome: Oracle): (r: RunResult)
    ensures |r.invoked| <= |plan|
    ensures |r.invoked| == |r.steps| + (if r.error.Some? then 1 else 0)
    decreases |plan|
  {
    if plan == [] then RunResult([], [], None)
    else match outcome(plan[0])
      case Err(msg) => RunResult([], [plan[0]], Some(msg))
      case Ok(payload) =>
        var rest := Execute(plan[1..], outcome);
        RunResult([StepRecord(plan[0].name, payload)] + rest.steps, [plan[0]] + rest.invoked, rest.error)
  }

  /** What a run is: a record for each step before the first raising one, in
      plan order with that step's payload; every step called up to and
      including the raising one; and that step's message as the error. */
  lemma {:induction false} ExecuteCharacterization(plan: seq<Step>, outcome: Oracle)
    ensures var r := Execute(plan, outcome);
      && |r.steps| <= |plan|
      && (forall i :: 0 <= i < |r.steps| ==>
            r.steps[i].step == plan[i].name && outcome(plan[i]) == Ok(r.steps[i].result))
      && (r.error.None? ==> |r.steps| == |plan| && r.invoked == plan)
      && (r.error.Some? ==>
            && |r.steps| < |plan|
            && outcome(plan[|r.steps|]) == Err(r.error.value)
            && r.invoked == plan[..|r.steps| + 1])
    decreases |plan|
  {
    if plan != [] && outcome(plan[0]).Ok? {
      ExecuteCharacterization(plan[1..], outcome);
      var r := Execute(plan, outcome);
      var rest := Execute(plan[1..], outcome);
      assert r.steps == [StepRecord(plan[0].name, outcome(plan[0]).payload)] + rest.steps;
      assert r.invoked == [plan[0]] + rest.invoked && r.error == rest.error;
      forall i | 0 <= i < |r.steps|
        ensures r.steps[i].step == plan[i].name && outcome(plan[i]) == Ok(r.steps[i].result)
      {
        if i > 0 {
          assert r.steps[i] == rest.steps[i - 1];
          assert plan[i] == plan[1..][i - 1];
        }
      }
      if rest.error.Some? {
        assert plan[..|r.steps| + 1] == [plan[0]] + plan[1..][..|rest.steps| + 1];
      } else {
        assert plan == [plan[0]] + plan[1..];
      }
    }
  }

  /** The first failing step of a plan, if any. */
  ghost predicate FailsAt(plan: seq<Step>, outcome: Oracle, k: nat)
  {
    k < |plan| && outcome(plan[k]).Err? && forall j :: 0 <= j < k ==> outcome(plan[j]).Ok?
  }

  /** The run fails exactly when some step raises, and then it has stopped at the
      first such step: the records are those of the steps before it. */
  lemma {:induction false} ExecuteStopsAtFirstFailure(plan: seq<Step>, outcome: Oracle, k: nat)
    requires FailsAt(plan, outcome, k)
    ensures Execute(plan, outcome).error == Some(outcome(plan[k]).msg)
    ensures |Execute(plan, outcome).steps| == k
    ensures Execute(plan, outcome).invoked == plan[..k + 1]
    decreases k
  {
    if k > 0 {
      assert outcome(plan[0]).Ok?;
      assert FailsAt(plan[1..], outcome, k - 1) by {
        forall j | 0 <= j < k - 1 ensures outcome(plan[1..][j]).Ok? {
          assert outcome(plan[j + 1]).Ok?;
        }
      }
      ExecuteStopsAtFirstFailure(plan[1..], outcome, k - 1);
    }
  }

  /** Without a raising step the run records every planned step, in order. */
  lemma {:induction false} ExecuteAllSucceed(plan: seq<Step>, outcome: Oracle)
    requires forall j :: 0 <= j < |plan| ==> outcome(plan[j]).Ok?
    ensures Execute(plan, outcome).error.None?
    ensures |Execute(plan, outcome).steps| == |plan|
    decreases |plan|
  {
    if plan != [] {
      assert outcome(plan[0]).Ok?;
      assert forall j :: 0 <= j < |plan[1..]| ==> outcome(plan[1..][j]).Ok? by {
        forall j | 0 <= j < |plan[1..]| ensures outcome(plan[1..][j]).Ok? {
          assert plan[1..][j] == plan[j + 1];
        }
      }
      ExecuteAllSucceed(plan[1..], outcome);
    }
  }

  /** Running two plans back to back: the second runs only if the first did
      not raise. */
  function Continue(a: RunResult, b: RunResult): RunResult
  {
    if a.error.Some? then a else RunResult(a.steps + b.steps, a.invoked + b.invoked, b.error)
  }

  lemma {:induction false} ExecuteAppend(p: seq<Step>, q: seq<Step>, outcome: Oracle)
    ensures Execute(p + q, outcome) == Continue(Execute(p, outcome), Execute(q, outcome))
    decreases |p|
  {
    if p == [] {
      assert p + q == q;
    } else {
      assert (p + q)[0] == p[0];
      assert (p + q)[1..] == p[1..] + q;
      match outcome(p[0])
      case Err(_) =>
      case Ok(payload) =>
        var a := Execute(p[1..], outcome);
        var b := Execute(q, outcome);
        var head := StepRecord(p[0].name, payload);
        ExecuteAppend(p[1..], q, outcome);
        assert Execute(p, outcome) == RunResult([head] + a.steps, [p[0]] + a.invoked, a.error);
        if a.error.None? {
          assert [head] + (a.steps + b.steps) == ([head] + a.steps) + b.steps;
          assert [p[0]] + (a.invoked + b.invoked) == ([p[0]] + a.invoked) + b.invoked;
        }
    }
  }

  /** One more step after steps that all returned. */
  lemma ExecuteSnoc(done: seq<Step>, s: Step, outcome: Oracle)
    requires Execute(done, outcome).error.None?
    ensures var e := Execute(done, outcome);
      Execute(done + [s], outcome) == match outcome(s)
        case Ok(p) => RunResult(e.steps + [StepRecord(s.name, p)], e.invoked + [s], None)
        case Err(m) => RunResult(e.steps, e.invoked + [s], Some(m))
  {
    ExecuteAppend(done, [s], outcome);
    assert [s][1..] == [];
  }

  /** Nothing after a raising step changes the run. */
  lemma ExecuteAfterFailure(done: seq<Step>, rest: seq<Step>, outcome: Oracle)
    requires Execute(done, outcome).error.Some?
    ensures Execute(done + rest, outcome) == Execute(done, outcome)
  {
    ExecuteAppend(done, rest, outcome);
  }

  function Names(plan: seq<Step>): (names: seq<StepName>)
    ensures |names| == |plan| && forall i :: 0 <= i < |plan| ==> names[i] == plan[i].name
  {
    if plan == [] then [] else [plan[0].name] + Names(plan[1..])
  }

  function RecordNames(steps: seq<StepRecord>): (names: seq<StepName>)
    ensures |names| == |steps| && forall i :: 0 <= i < |steps| ==> names[i] == steps[i].step
  {
    if steps == [] then [] else [steps[0].step] + RecordNames(steps[1..])
  }

  /** The infrastructure plan: terraform validation, then security scan if
      enabled, then drift detection if enabled; all three get the code. */
  function InfrastructurePlan(code: string, enableSecurityScan: bool, enableDriftDetection: bool): (p: seq<Step>)
    ensures |p| == 1 + (if enableSecurityScan then 1 else 0) + (if enableDriftDetection then 1 else 0)
    ensures p[0] == Step(TerraformValidation, code)
    ensures enableSecurityScan ==> p[1] == Step(SecurityScan, code)
    ensures enableDriftDetection ==> p[|p| - 1] == Step(DriftDetection, code)
    ensures forall i :: 0 <= i < |p| ==> p[i].input == code
  {
    [Step(TerraformValidation, code)]
    + (if enableSecurityScan then [Step(SecurityScan, code)] else [])
    + (if enableDriftDetection then [Step(DriftDetection, code)] else [])
  }

  /** Python truthiness of `Optional[str]`: neither None nor empty. */
  predicate Truthy(s: Option<string>)
    ensures s == None ==> !Truthy(s)
    ensures s == Some("") ==> !Truthy(s)
    ensures s.Some? && |s.value| > 0 ==> Truthy(s)
  {
    s.Some? && s.value != ""
  }

  /** The container plan: dockerfile analysis on the content, then an image
      scan of the image name when one is given. */
  function ContainerPlan(dockerfileContent: string, imageName: Option<string>): (p: seq<Step>)
    ensures 1 <= |p| <= 2 && (|p| == 2 <==> Truthy(imageName))
    ensures p[0] == Step(DockerfileAnalysis, dockerfileContent)
    ensures Truthy(imageName) ==> p[1] == Step(ImageScan, imageName.value)
  {
    [Step(DockerfileAnalysis, dockerfileContent)]
    + (if Truthy(imageName) then [Step(ImageScan, imageName.value)] else [])
  }

  /** The Kubernetes plan: manifest validation, then policy checks if enabled. */
  function K8sPlan(manifestContent: string, checkPolicies: bool): (p: seq<Step>)
    ensures 1 <= |p| <= 2 && (|p| == 2 <==> checkPolicies)
    ensures p[0] == Step(ManifestValidation, manifestContent)
    ensures checkPolicies ==> p[1] == Step(PolicyCheck, manifestContent)
  {
    [Step(ManifestValidation, manifestContent)]
    + (if checkPolicies then [Step(PolicyCheck, manifestContent)] else [])
  }

  /** A record as first built: no steps and no status yet. */
  function Started(kind: WorkflowKind, stamp: string, t0: real): (w: WorkflowRecord)
    ensures w.workflowId == kind.IdPrefix() + stamp && w.kind == kind && w.startedAt == t0
    ensures w.steps == [] && w.status == Running && !Finished(w)
  {
    WorkflowRecord(kind.IdPrefix() + stamp, kind, t0, [], Running, None, None, None)
  }

  /** The record a workflow returns, given its plan, the executors, the clock's
      seconds in the id (`stamp`) and the readings at start and end. */
  function Workflow(kind: WorkflowKind, plan: seq<Step>, outcome: Oracle, stamp: string, t0: real, t1: real): (w: WorkflowRecord)
    ensures Finished(w)
    ensures w.workflowId == kind.IdPrefix() + stamp && w.kind == kind && w.startedAt == t0
    ensures w.steps == Execute(plan, outcome).steps
    ensures w.status == Success <==> Execute(plan, outcome).error.None?
    ensures w.error == Execute(plan, outcome).error
    ensures w.durationMs == Some((t1 - t0) * 1000.0) && w.completedAt == Some(t1)
  {
    var r := Execute(plan, outcome);
    Started(kind, stamp, t0).(
      steps := r.steps,
      status := if r.error.None? then Success else Failed,
      error := r.error,
      durationMs := Some((t1 - t0) * 1000.0),
      completedAt := Some(t1))
  }

  /** Infrastructure steps appear in the declared order, each optional one
      exactly when its flag is set, once no step raises. */
  lemma InfrastructureStepOrder(code: string, sec: bool, drift: bool, outcome: Oracle)
    requires forall s :: s in InfrastructurePlan(code, sec, drift) ==> outcome(s).Ok?
    ensures Execute(InfrastructurePlan(code, sec, drift), outcome).error.None?
    ensures RecordNames(Execute(InfrastructurePlan(code, sec, drift), outcome).steps)
         == [TerraformValidation] + (if sec then [SecurityScan] else []) + (if drift then [DriftDetection] else [])
  {
    var plan := InfrastructurePlan(code, sec, drift);
    assert forall j :: 0 <= j < |plan| ==> outcome(plan[j]).Ok? by {
      forall j | 0 <= j < |plan| ensures outcome(plan[j]).Ok? {
        assert plan[j] in plan;
      }
    }
    ExecuteAllSucceed(plan, outcome);
    ExecuteCharacterization(plan, outcome);
    var names := RecordNames(Execute(plan, outcome).steps);
    assert names == Names(plan);
  }

  /** Security scan on and drift detection off: exactly two records. */
  lemma InfrastructureTwoSteps(code: string, outcome: Oracle)
    requires outcome(Step(TerraformValidation, code)).Ok? && outcome(Step(SecurityScan, code)).Ok?
    ensures var w := Workflow(InfrastructureValidation, InfrastructurePlan(code, true, false), outcome, "", 0.0, 0.0);
      w.status == Success && RecordNames(w.steps) == [TerraformValidation, SecurityScan]
  {
    InfrastructureStepOrder(code, true, false, outcome);
  }

  /** A failing dockerfile analysis never yields an image scan, and an image
      scan is called exactly when an image name is given and the analysis
      returned. */
  lemma ContainerImageScanGate(content: string, imageName: Option<string>, outcome: Oracle)
    ensures var r := Execute(ContainerPlan(content, imageName), outcome);
      (ImageScan in Names(r.invoked) <==>
         (Truthy(imageName) && outcome(Step(DockerfileAnalysis, content)).Ok?))
      && (outcome(Step(DockerfileAnalysis, content)).Err? ==> r.steps == [] && r.error.Some?)
  {
    var plan := ContainerPlan(content, imageName);
    var r := Execute(plan, outcome);
    ExecuteCharacterization(plan, outcome);
    if outcome(plan[0]).Err? {
      assert r.invoked == [plan[0]];
    } else if Truthy(imageName) {
      assert |plan| == 2 && plan[1] == Step(ImageScan, imageName.value);
      assert r.invoked == plan;
    } else {
      assert plan == [Step(DockerfileAnalysis, content)];
      assert r.invoked == plan;
    }
  }

  /** Manifest validation is always called first; policy checks are called
      exactly when enabled and validation returned. */
  lemma K8sPolicyGate(content: string, checkPolicies: bool, outcome: Oracle)
    ensures var r := Execute(K8sPlan(content, checkPolicies), outcome);
      && |r.invoked| >= 1 && r.invoked[0] == Step(ManifestValidation, content)
      && (PolicyCheck in Names(r.invoked) <==>
           (checkPolicies && outcome(Step(ManifestValidation, content)).Ok?))
  {
    var plan := K8sPlan(content, checkPolicies);
    var r := Execute(plan, outcome);
    ExecuteCharacterization(plan, outcome);
    if outcome(plan[0]).Err? {
      assert r.invoked == [plan[0]];
    } else if checkPolicies {
      assert |plan| == 2 && plan[1] == Step(PolicyCheck, content);
      assert r.invoked == plan;
    } else {
      assert plan == [Step(ManifestValidation, content)];
      assert r.invoked == plan;
    }
  }

  /** The executors as the orchestrator currently ships them: each one returns
      its fixed payload (rendered as the dictionary's text) and none raises. */
  function StubOutcome(s: Step): (o: Outcome)
    ensures o.Ok?
  {
    match s.name
    case TerraformValidation => Ok("{'valid': True, 'resources': 3}")
    case SecurityScan => Ok("{'vulnerabilities': {'high': 0, 'medium': 1}}")
    case DriftDetection => Ok("{'drift_detected': False}")
    case DockerfileAnalysis => Ok("{'score': 85, 'issues': 2}")
    case ImageScan => Ok("{'vulnerabilities': {'critical': 0, 'high': 2}}")
    case ManifestValidation => Ok("{'valid': True, 'warnings': 3}")
    case PolicyCheck => Ok("{'compliant': True, 'violations': 0}")
  }

  /** With the shipped executors every workflow succeeds and records every
      planned step, each with its executor's payload. */
  lemma StubWorkflowsSucceed(kind: WorkflowKind, plan: seq<Step>, stamp: string, t0: real, t1: real)
    ensures var w := Workflow(kind, plan, StubOutcome, stamp, t0, t1);
      && w.status == Success && w.error.None?
      && RecordNames(w.steps) == Names(plan)
      && forall i :: 0 <= i < |w.steps| ==> Ok(w.steps[i].result) == StubOutcome(plan[i])
  {
    ExecuteAllSucceed(plan, StubOutcome);
    ExecuteCharacterization(plan, StubOutcome);
  }

  /** Number of records in `h` with status `st` (the list comprehensions). */
  function CountStatus(h: seq<WorkflowRecord>, st: Status): (n: nat)
    ensures n <= |h|
  {
    if h == [] then 0 else (if h[0].status == st then 1 else 0) + CountStatus(h[1..], st)
  }

  /** On finished records, successes and failures add up to the whole. */
  lemma {:induction false} CountPartition(h: seq<WorkflowRecord>)
    requires forall i :: 0 <= i < |h| ==> Finished(h[i])
    ensures CountStatus(h, Success) + CountStatus(h, Failed) == |h|
  {
    if h != [] {
      assert Finished(h[0]);
      assert forall i :: 0 <= i < |h[1..]| ==> Finished(h[1..][i]) by {
        forall i | 0 <= i < |h[1..]| ensures Finished(h[1..][i]) {
          assert h[1..][i] == h[i + 1];
        }
      }
      CountPartition(h[1..]);
    }
  }

  /** Appending one record adds one to the count of its own status only. */
  lemma {:induction false} CountAppend(h: seq<WorkflowRecord>, w: WorkflowRecord, st: Status)
    ensures CountStatus(h + [w], st) == CountStatus(h, st) + (if w.status == st then 1 else 0)
  {
    if h != [] {
      assert (h + [w])[1..] == h[1..] + [w];
      CountAppend(h[1..], w, st);
    } else {
      assert [w][1..] == [];
    }
  }

  /** The result of `get_workflow_summary`. */
  datatype WorkflowSummary = WorkflowSummary(
    totalWorkflows: nat,
    successful: nat,
    failed: nat,
    totalCost: real,
    workflows: seq<WorkflowRecord>)

  /** How many records the summary shows. */
  const SummaryWindow: nat := 10

  /** The executors, reached as a port: each call is answered by the oracle
      and recorded in `calls`. */
  class StepPort {
    const outcome: Oracle
    var calls: seq<Step>

    constructor (outcome: Oracle)
      ensures this.outcome == outcome && calls == []
    {
      this.outcome := outcome;
      calls := [];
    }

    method Call(step: Step) returns (r: Outcome)
      modifies this`calls
      ensures r == outcome(step)
      ensures calls == old(calls) + [step]
    {
      r := outcome(step);
      calls := calls + [step];
    }
  }

  class WorkflowOrchestrator {
    var workflowHistory: seq<WorkflowRecord>
    var activeSandboxes: int
    var totalCost: real

    /** Nothing ever writes the two counters, and the history holds only
        finished records. */
    ghost predicate Valid()
      reads this
    {
      && activeSandboxes == 0 && totalCost == 0.0
      && forall i :: 0 <= i < |workflowHistory| ==> Finished(workflowHistory[i])
    }

    constructor ()
      ensures Valid()
      ensures workflowHistory == [] && activeSandboxes == 0 && totalCost == 0.0
    {
      workflowHistory := [];
      activeSandboxes := 0;
      totalCost := 0.0;
    }

    /** The step after `try:` that appends the record, shared by all three. */
    method Record(w: WorkflowRecord)
      requires Valid() && Finished(w)
      modifies this`workflowHistory
      ensures Valid()
      ensures workflowHistory == old(workflowHistory) + [w]
    {
      workflowHistory := workflowHistory + [w];
    }

    method ExecuteInfrastructureValidationWorkflow(
      port: StepPort, terraformCode: string, enableSecurityScan: bool, enableDriftDetection: bool,
      stamp: string, t0: real, t1: real)
      returns (log: WorkflowRecord)
      requires Valid()
      modifies this`workflowHistory, port`calls
      ensures Valid()
      ensures log == Workflow(InfrastructureValidation,
        InfrastructurePlan(terraformCode, enableSecurityScan, enableDriftDetection), port.outcome, stamp, t0, t1)
      ensures workflowHistory == old(workflowHistory) + [log]
      ensures port.calls == old(port.calls)
        + Execute(InfrastructurePlan(terraformCode, enableSecurityScan, enableDriftDetection), port.outcome).invoked
    {
      ghost var plan := InfrastructurePlan(terraformCode, enableSecurityScan, enableDriftDetection);
      ghost var done: seq<Step> := [];
      ghost var rest: seq<Step> := [];
      log := Started(InfrastructureValidation, stamp, t0);
      var failure: Option<string> := None;
      label attempt: {
        var step := Step(TerraformValidation, terraformCode);
        var r := port.Call(step);
        ExecuteSnoc(done, step, port.outcome);
        done := done + [step];
        if r.Err? { failure := Some(r.msg); rest := plan[1..]; break attempt; }
        log := log.(steps := log.steps + [StepRecord(TerraformValidation, r.payload)]);
        if enableSecurityScan {
          step := Step(SecurityScan, terraformCode);
          r := port.Call(step);
          ExecuteSnoc(done, step, port.outcome);
          done := done + [step];
          if r.Err? { failure := Some(r.msg); rest := plan[2..]; break attempt; }
          log := log.(steps := log.steps + [StepRecord(SecurityScan, r.payload)]);
        }
        if enableDriftDetection {
          step := Step(DriftDetection, terraformCode);
          r := port.Call(step);
          ExecuteSnoc(done, step, port.outcome);
          done := done + [step];
          if r.Err? { failure := Some(r.msg); break attempt; }
          log := log.(steps := log.steps + [StepRecord(DriftDetection, r.payload)]);
        }
      }
      assert plan == done + rest;
      if failure.Some? { ExecuteAfterFailure(done, rest, port.outcome); }
      log := Finish(log, failure, t0, t1);
      Record(log);
    }

    method ExecuteContainerWorkflow(
      port: StepPort, dockerfileContent: string, imageName: Option<string>,
      stamp: string, t0: real, t1: real)
      returns (log: WorkflowRecord)
      requires Valid()
      modifies this`workflowHistory, port`calls
      ensures Valid()
      ensures log == Workflow(ContainerAnalysis, ContainerPlan(dockerfileContent, imageName), port.outcome, stamp, t0, t1)
      ensures workflowHistory == old(workflowHistory) + [log]
      ensures port.calls == old(port.calls) + Execute(ContainerPlan(dockerfileContent, imageName), port.outcome).invoked
    {
      ghost var plan := ContainerPlan(dockerfileContent, imageName);
      ghost var done: seq<Step> := [];
      ghost var rest: seq<Step> := [];
      log := Started(ContainerAnalysis, stamp, t0);
      var failure: Option<string> := None;
      label attempt: {
        var step := Step(DockerfileAnalysis, dockerfileContent);
        var r := port.Call(step);
        ExecuteSnoc(done, step, port.outcome);
        done := done + [step];
        if r.Err? { failure := Some(r.msg); rest := plan[1..]; break attempt; }
        log := log.(steps := log.steps + [StepRecord(DockerfileAnalysis, r.payload)]);
        if imageName.Some? && imageName.value != "" {
          step := Step(ImageScan, imageName.value);
          r := port.Call(step);
          ExecuteSnoc(done, step, port.outcome);
          done := done + [step];
          if r.Err? { failure := Some(r.msg); break attempt; }
          log := log.(steps := log.steps + [StepRecord(ImageScan, r.payload)]);
        }
      }
      assert plan == done + rest;
      if failure.Some? { ExecuteAfterFailure(done, rest, port.outcome); }
      log := Finish(log, failure, t0, t1);
      Record(log);
    }

    method ExecuteK8sWorkflow(
      port: StepPort, manifestContent: string, checkPolicies: bool,
      stamp: string, t0: real, t1: real)
      returns (log: WorkflowRecord)
      requires Valid()
      modifies this`workflowHistory, port`calls
      ensures Valid()
      ensures log == Workflow(K8sValidation, K8sPlan(manifestContent, checkPolicies), port.outcome, stamp, t0, t1)
      ensures workflowHistory == old(workflowHistory) + [log]
      ensures port.calls == old(port.calls) + Execute(K8sPlan(manifestContent, checkPolicies), port.outcome).invoked
    {
      ghost var plan := K8sPlan(manifestContent, checkPolicies);
      ghost var done: seq<Step> := [];
      ghost var rest: seq<Step> := [];
      log := Started(K8sValidation, stamp, t0);
      var failure: Option<string> := None;
      label attempt: {
        var step := Step(ManifestValidation, manifestContent);
        var r := port.Call(step);
        ExecuteSnoc(done, step, port.outcome);
        done := done + [step];
        if r.Err? { failure := Some(r.msg); rest := plan[1..]; break attempt; }
        log := log.(steps := log.steps + [StepRecord(ManifestValidation, r.payload)]);
        if checkPolicies {
          step := Step(PolicyCheck, manifestContent);
          r := port.Call(step);
          ExecuteSnoc(done, step, port.outcome);
          done := done + [step];
          if r.Err? { failure := Some(r.msg); break attempt; }
          log := log.(steps := log.steps + [StepRecord(PolicyCheck, r.payload)]);
        }
      }
      assert plan == done + rest;
      if failure.Some? { ExecuteAfterFailure(done, rest, port.outcome); }
      log := Finish(log, failure, t0, t1);
      Record(log);
    }

    /** `get_workflow_summary`: the counts partition the history and the last
        ten records are shown in insertion order. It changes nothing. */
    function GetWorkflowSummary(): (s: WorkflowSummary)
      requires Valid()
      reads this
      ensures s.totalWorkflows == |workflowHistory|
      ensures s.successful + s.failed == s.totalWorkflows
      ensures s.successful == CountStatus(workflowHistory, Success)
      ensures s.totalCost == 0.0
      ensures |s.workflows| == Min(SummaryWindow, |workflowHistory|)
      ensures forall i :: 0 <= i < |s.workflows| ==>
        s.workflows[i] == workflowHistory[|workflowHistory| - |s.workflows| + i]
    {
      CountPartition(workflowHistory);
      WorkflowSummary(
        |workflowHistory|,
        CountStatus(workflowHistory, Success),
        CountStatus(workflowHistory, Failed),
        totalCost,
        Last(workflowHistory, SummaryWindow))
    }
  }

  /** The two endings of the try block: success, or failure with the message. */
  function Finish(log: WorkflowRecord, failure: Option<string>, t0: real, t1: real): (w: WorkflowRecord)
    ensures Finished(w)
    ensures w.workflowId == log.workflowId && w.kind == log.kind && w.startedAt == log.startedAt
    ensures w.steps == log.steps
    ensures w.status == Success <==> failure.None?
    ensures w.error == failure
    ensures w.durationMs == Some((t1 - t0) * 1000.0) && w.completedAt == Some(t1)
  {
    log.(
      status := if failure.None? then Success else Failed,
      error := failure,
      durationMs := Some((t1 - t0) * 1000.0),
      completedAt := Some(t1))
  }
}
