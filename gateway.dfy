/** The model router and cost ledger (`BlaxelModelGateway`): a fixed routing
    table from (task type, complexity) to a model name with a fallback model, a
    per-1K-token price table with a default price, and a ledger of total cost
    and request count that only `TrackUsage` changes. Prices are exact reals. */
module ModelGateway {

  datatype TaskComplexity = Simple | Moderate | Complex
  {
    /** The enum's `.value`. */
    function Value(): string
    {
      match this
      case Simple => "simple"
      case Moderate => "moderate"
      case Complex => "complex"
    }
  }

  /** The model chosen for any pair the routing table does not hold. */
  const FallbackModel: string := "gpt-4o-mini"

  /** The price per 1K tokens of a model that has no entry in the price table. */
  const DefaultUnitCost: real := 0.001

  /** The task types the routing table knows. */
  const TaskTypes: set<string> := {"terraform", "security", "docker", "k8s", "diff"}

  /** The price table the gateway is built with (USD per 1K tokens). */
  const InitialModelCosts: map<string, real> := map[
    "gpt-4o-mini" := 0.00015,
    "gpt-4o" := 0.0025,
    "claude-3-5-sonnet" := 0.003,
    "claude-3-5-haiku" := 0.0008
  ]

  /** The routing table of `select_model`. */
  const RoutingTable: map<(string, TaskComplexity), string> := map[
    ("terraform", Complex) := "claude-3-5-sonnet",
    ("terraform", Moderate) := "gpt-4o",
    ("terraform", Simple) := "gpt-4o-mini",
    ("security", Complex) := "gpt-4o",
    ("security", Moderate) := "gpt-4o-mini",
    ("security", Simple) := "claude-3-5-haiku",
    ("docker", Complex) := "claude-3-5-sonnet",
    ("docker", Moderate) := "gpt-4o",
    ("docker", Simple) := "gpt-4o-mini",
    ("k8s", Complex) := "claude-3-5-sonnet",
    ("k8s", Moderate) := "gpt-4o",
    ("k8s", Simple) := "gpt-4o-mini",
    ("diff", Complex) := "gpt-4o",
    ("diff", Moderate) := "gpt-4o-mini",
    ("diff", Simple) := "claude-3-5-haiku"
  ]

  /** The one-line reason `get_routing_explanation` gives for each model. */
  const Explanations: map<string, string> := map[
    "claude-3-5-sonnet" := "Advanced reasoning for complex infrastructure analysis",
    "gpt-4o" := "Balanced performance for general DevOps tasks",
    "gpt-4o-mini" := "Fast & cost-effective for simple validations",
    "claude-3-5-haiku" := "Ultra-fast for quick checks"
  ]

  /** The reason given for a model that has no entry of its own. */
  const DefaultExplanation: string := "Optimal for this task"

  /** The comparison baseline cost per request of `cost_vs_lambda`. */
  const LambdaCostPerRequest: real := 0.02

  /** Total: the table's entry for a routed pair, the fallback model otherwise. */
  function SelectModel(taskType: string, complexity: TaskComplexity): (model: string)
    ensures (taskType, complexity) in RoutingTable ==> model == RoutingTable[(taskType, complexity)]
    ensures (taskType, complexity) !in RoutingTable ==> model == FallbackModel
  {
    if (taskType, complexity) in RoutingTable then RoutingTable[(taskType, complexity)] else FallbackModel
  }

  /** The routing table covers every complexity of exactly the known task types. */
  lemma RoutingTableDomain(taskType: string, complexity: TaskComplexity)
    ensures (taskType, complexity) in RoutingTable <==> taskType in TaskTypes
  {
    if taskType in TaskTypes {
      assert taskType == "terraform" || taskType == "security" || taskType == "docker"
          || taskType == "k8s" || taskType == "diff";
    }
  }

  /** An unknown task type falls back to the cheap model whatever its complexity. */
  lemma UnknownTaskFallsBack(taskType: string, complexity: TaskComplexity)
    requires taskType !in TaskTypes
    ensures SelectModel(taskType, complexity) == FallbackModel
  {
    RoutingTableDomain(taskType, complexity);
  }

  /** Every model the router can return has a price of its own. */
  lemma RoutedModelsArePriced(taskType: string, complexity: TaskComplexity)
    ensures SelectModel(taskType, complexity) in InitialModelCosts
  {
    RoutingTableDomain(taskType, complexity);
    if taskType in TaskTypes {
      assert taskType == "terraform" || taskType == "security" || taskType == "docker"
          || taskType == "k8s" || taskType == "diff";
    }
  }

  /** The price per 1K tokens of `model` in `costs`, the default when absent. */
  function UnitCost(costs: map<string, real>, model: string): (unit: real)
    ensures model in costs ==> unit == costs[model]
    ensures model !in costs ==> unit == DefaultUnitCost
  {
    if model in costs then costs[model] else DefaultUnitCost
  }

  predicate NonNegativePrices(costs: map<string, real>)
  {
    forall m :: m in costs ==> costs[m] >= 0.0
  }

  /** `estimate_cost`: tokens/1000 at the model's unit price. */
  function EstimateCost(costs: map<string, real>, model: string, tokens: int): (c: real)
    ensures model in costs ==> c == (tokens as real / 1000.0) * costs[model]
    ensures model !in costs ==> c == (tokens as real / 1000.0) * DefaultUnitCost
  {
    (tokens as real / 1000.0) * UnitCost(costs, model)
  }

  /** No tokens cost nothing, and 1000 tokens cost exactly one unit price. */
  lemma EstimateCostScale(costs: map<string, real>, model: string)
    ensures EstimateCost(costs, model, 0) == 0.0
    ensures EstimateCost(costs, model, 1000) == UnitCost(costs, model)
  {
  }

  /** With non-negative prices, the estimate never decreases as tokens grow. */
  lemma EstimateCostMonotone(costs: map<string, real>, model: string, t1: int, t2: int)
    requires NonNegativePrices(costs)
    requires t1 <= t2
    ensures EstimateCost(costs, model, t1) <= EstimateCost(costs, model, t2)
  {
    ScaleMonotone(t1 as real / 1000.0, t2 as real / 1000.0, UnitCost(costs, model));
  }

  lemma ScaleMonotone(a: real, b: real, u: real)
    requires a <= b && u >= 0.0
    ensures a * u <= b * u
  {
    assert (b - a) * u >= 0.0;
  }

  /** A model that is routed to is priced by the table, never by the default. */
  lemma RoutedCostUsesTable(taskType: string, complexity: TaskComplexity, tokens: int)
    ensures EstimateCost(InitialModelCosts, SelectModel(taskType, complexity), tokens)
         == (tokens as real / 1000.0) * InitialModelCosts[SelectModel(taskType, complexity)]
  {
    RoutedModelsArePriced(taskType, complexity);
  }

  /** The snapshot returned by `get_usage_stats`, before its rounding. */
  datatype UsageStats = UsageStats(
    totalRequests: nat,
    totalCost: real,
    avgCostPerRequest: real,
    costVsLambda: real)

  /** The fields `get_routing_explanation` renders: the model, the reason, that
      model's price at the default 1000 tokens, and the request echoed back. */
  datatype RoutingExplanation =
    RoutingExplanation(model: string, reason: string, estimatedCost: real, task: string, complexity: string)

  class Gateway {
    /** The gateway's price table, fixed at construction. */
    const modelCosts: map<string, real> := InitialModelCosts
    var totalCost: real
    var requestCount: nat

    /** The ledger has no cost before its first request. */
    ghost predicate Valid()
      reads this
    {
      requestCount == 0 ==> totalCost == 0.0
    }

    constructor ()
      ensures Valid()
      ensures totalCost == 0.0 && requestCount == 0
    {
      totalCost := 0.0;
      requestCount := 0;
    }

    /** `track_usage`, the sole writer of the ledger: one more request, priced by
        `EstimateCost` on the gateway's own table. */
    method TrackUsage(model: string, tokens: int)
      modifies this`totalCost, this`requestCount
      ensures Valid()
      ensures requestCount == old(requestCount) + 1
      ensures totalCost == old(totalCost) + EstimateCost(modelCosts, model, tokens)
      ensures tokens >= 0 ==> totalCost >= old(totalCost)
    {
      if tokens >= 0 {
        EstimateCostMonotone(modelCosts, model, 0, tokens);
      }
      var cost := EstimateCost(modelCosts, model, tokens);
      totalCost := totalCost + cost;
      requestCount := requestCount + 1;
    }

    /** `get_usage_stats`: the division is by max(request count, 1), and the
        savings figure is 0 until the first request. */
    function GetUsageStats(): (s: UsageStats)
      requires Valid()
      reads this
      ensures s.totalRequests == requestCount && s.totalCost == totalCost
      ensures requestCount == 0 ==> s.avgCostPerRequest == 0.0 && s.costVsLambda == 0.0
      ensures requestCount > 0 ==> s.avgCostPerRequest * (requestCount as real) == totalCost
      ensures requestCount > 0 ==>
        (s.costVsLambda > 0.0 <==> s.avgCostPerRequest < LambdaCostPerRequest)
      ensures requestCount > 0 ==>
        s.costVsLambda == (1.0 - s.avgCostPerRequest / LambdaCostPerRequest) * 100.0
    {
      var n := if requestCount >= 1 then requestCount else 1;
      var avg := totalCost / (n as real);
      assert requestCount > 0 ==>
        totalCost / (requestCount as real * LambdaCostPerRequest) == avg / LambdaCostPerRequest;
      UsageStats(
        requestCount,
        totalCost,
        avg,
        if requestCount > 0 then (1.0 - totalCost / (requestCount as real * LambdaCostPerRequest)) * 100.0 else 0.0)
    }

    /** `get_routing_explanation`: it reports exactly the routed model with
        that model's own reason (never the default one), priced at the default
        1000 tokens. */
    function GetRoutingExplanation(taskType: string, complexity: TaskComplexity): (e: RoutingExplanation)
      reads this
      ensures e.model == SelectModel(taskType, complexity)
      ensures e.model in modelCosts && e.estimatedCost == modelCosts[e.model]
      ensures e.model in Explanations && e.reason == Explanations[e.model]
      ensures e.task == taskType && e.complexity == complexity.Value()
    {
      RoutedModelsArePriced(taskType, complexity);
      var model := SelectModel(taskType, complexity);
      var reason := if model in Explanations then Explanations[model] else DefaultExplanation;
      RoutingExplanation(model, reason, EstimateCost(modelCosts, model, 1000), taskType, complexity.Value())
    }
  }
}
