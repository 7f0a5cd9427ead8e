/** The built-in metrics: quantities read off a trace (counts, tokens,
    duration, tool diversity, step efficiency against the expected budget,
    error rate). Ratios are exact reals. */
module Metrics {
  import opened Wrappers
  import opened Traces
  import opened Results
  import opened TestCases

  datatype Metric =
    | StepCountMetric
    | TokenUsageMetric
    | ToolCallCountMetric
    | DurationMetric
    | ToolDiversityMetric
    | StepEfficiencyMetric
    | LlmCallCountMetric
    | ErrorRateMetric
      /** A metric written by the user: its `name` and what its `calculate` does, raising or not. */
    | CustomMetric(customName: string, compute: (TraceData, Option<EvalCase>) -> Result<MetricResult>)
  {
    function Name(): string {
      match this
      case StepCountMetric => "step_count"
      case TokenUsageMetric => "token_usage"
      case ToolCallCountMetric => "tool_call_count"
      case DurationMetric => "duration"
      case ToolDiversityMetric => "tool_diversity"
      case StepEfficiencyMetric => "step_efficiency"
      case LlmCallCountMetric => "llm_call_count"
      case ErrorRateMetric => "error_rate"
      case CustomMetric(n, _) => n
    }
  }

  /** The metrics an evaluator uses when given none. */
  const DefaultMetrics: seq<Metric> := [StepCountMetric, TokenUsageMetric, ToolCallCountMetric, DurationMetric]

  // ---------------------------------------------------------------------------
  // Tool diversity
  // ---------------------------------------------------------------------------

  function Distinct(xs: seq<string>): set<string> {
    set x | x in xs
  }

  /** A list has at most as many distinct entries as entries, and at least one when non-empty. */
  lemma {:induction false} DistinctBounds(xs: seq<string>)
    ensures |Distinct(xs)| <= |xs|
    ensures xs != [] ==> |Distinct(xs)| >= 1
  {
    if xs != [] {
      var init := xs[..|xs| - 1];
      DistinctBounds(init);
      assert Distinct(xs) == Distinct(init) + {xs[|xs| - 1]} by {
        assert xs == init + [xs[|xs| - 1]];
      }
      assert xs[|xs| - 1] in Distinct(xs);
    }
  }

  /** `ToolDiversityMetric.calculate`: distinct named tools per tool call, and
      0.0 without tool calls. */
  function ToolDiversity(trace: TraceData): (m: MetricResult)
    ensures m.metricName == "tool_diversity" && m.unit == Some("ratio")
    ensures 0.0 <= m.value <= 1.0
    ensures ToolCalls(trace.steps) == [] ==> m.value == 0.0 && m.details == NoMetricDetails
    ensures ToolCalls(trace.steps) != [] ==>
              m.details == DiversityDetail(|Distinct(ToolsCalled(trace.steps))|, |ToolCalls(trace.steps)|)
              && m.value * (|ToolCalls(trace.steps)| as real) == |Distinct(ToolsCalled(trace.steps))| as real
    ensures m.value > 0.0 <==> ToolsCalled(trace.steps) != []
  {
    var calls := ToolCalls(trace.steps);
    if calls == [] then
      assert ToolsCalled(trace.steps) == [];
      MetricResult("tool_diversity", 0.0, Some("ratio"), NoMetricDetails)
    else
      var unique := |Distinct(ToolsCalled(trace.steps))|;
      DistinctBounds(ToolsCalled(trace.steps));
      ToolsCalledShorter(trace.steps);
      MetricResult("tool_diversity", Ratio(unique, |calls|), Some("ratio"), DiversityDetail(unique, |calls|))
  }

  // ---------------------------------------------------------------------------
  // Step efficiency
  // ---------------------------------------------------------------------------

  /** The budget `step_efficiency` measures against: the expected `max_steps`
      when present and non-zero. */
  function Budget(tc: Option<EvalCase>): Option<int> {
    if tc.Some? && tc.value.Expected().maxSteps.Some? && tc.value.Expected().maxSteps.value != 0
    then tc.value.Expected().maxSteps else None
  }

  /** `StepEfficiencyMetric.calculate`: 1.0 within budget or without one,
      `max/actual` beyond it (a negative budget on an empty trace divides by zero). */
  function StepEfficiency(trace: TraceData, tc: Option<EvalCase>): (r: Result<MetricResult>)
    ensures r.Raised? <==> Budget(tc).Some? && Budget(tc).value < 0 && trace.steps == []
    ensures r.Ok? ==> r.value.metricName == "step_efficiency" && r.value.unit == Some("ratio")
                      && r.value.details == EfficiencyDetail(|trace.steps|, Budget(tc))
    ensures r.Ok? && (Budget(tc).None? || |trace.steps| <= Budget(tc).value) ==> r.value.value == 1.0
    ensures r.Ok? && Budget(tc).Some? && |trace.steps| > Budget(tc).value ==>
              r.value.value * (|trace.steps| as real) == Budget(tc).value as real
    ensures Budget(tc).Some? && 0 < Budget(tc).value < |trace.steps| ==> r.Ok? && 0.0 < r.value.value < 1.0
  {
    var actual := |trace.steps|;
    var budget := Budget(tc);
    if budget.None? then Ok(MetricResult("step_efficiency", 1.0, Some("ratio"), EfficiencyDetail(actual, None)))
    else if actual <= budget.value then
      Ok(MetricResult("step_efficiency", 1.0, Some("ratio"), EfficiencyDetail(actual, budget)))
    else if actual == 0 then Raised("division by zero")
    else Ok(MetricResult("step_efficiency", (budget.value as real) / (actual as real), Some("ratio"),
                         EfficiencyDetail(actual, budget)))
  }

  // ---------------------------------------------------------------------------
  // Error rate
  // ---------------------------------------------------------------------------

  /** `sum(1 for s in steps if s.status == FAILURE)`. */
  function FailureCount(steps: seq<Step>): (n: nat)
    ensures n <= |steps|
  {
    if steps == [] then 0
    else FailureCount(steps[..|steps| - 1]) + (if steps[|steps| - 1].status == StepFailure then 1 else 0)
  }

  /** The failure count is zero exactly when no step failed, and the step count exactly when all did. */
  lemma {:induction false} FailureCountExtremes(steps: seq<Step>)
    ensures FailureCount(steps) == 0 <==> forall k :: 0 <= k < |steps| ==> steps[k].status != StepFailure
    ensures FailureCount(steps) == |steps| <==> forall k :: 0 <= k < |steps| ==> steps[k].status == StepFailure
  {
    if steps != [] {
      var init := steps[..|steps| - 1];
      FailureCountExtremes(init);
      assert forall k :: 0 <= k < |init| ==> init[k] == steps[k];
    }
  }

  /** `ErrorRateMetric.calculate`: failed steps per step, and 0.0 for an empty trace. */
  function ErrorRate(trace: TraceData): (m: MetricResult)
    ensures m.metricName == "error_rate" && m.unit == Some("ratio")
    ensures 0.0 <= m.value <= 1.0
    ensures trace.steps == [] ==> m.value == 0.0 && m.details == NoMetricDetails
    ensures trace.steps != [] ==> m.details == ErrorCountDetail(FailureCount(trace.steps), |trace.steps|)
                                  && m.value * (|trace.steps| as real) == FailureCount(trace.steps) as real
    ensures m.value == 0.0 <==> forall k :: 0 <= k < |trace.steps| ==> trace.steps[k].status != StepFailure
  {
    FailureCountExtremes(trace.steps);
    if trace.steps == [] then MetricResult("error_rate", 0.0, Some("ratio"), NoMetricDetails)
    else
      var failed := FailureCount(trace.steps);
      MetricResult("error_rate", Ratio(failed, |trace.steps|), Some("ratio"), ErrorCountDetail(failed, |trace.steps|))
  }

  // ---------------------------------------------------------------------------
  // All metrics
  // ---------------------------------------------------------------------------

  /** `metric.calculate(trace, test_case)`; an exception is `Raised`. */
  function Calculate(m: Metric, trace: TraceData, tc: Option<EvalCase>): (r: Result<MetricResult>)
    ensures !m.CustomMetric? && r.Ok? ==> r.value.metricName == m.Name()
    ensures !m.CustomMetric? && !m.StepEfficiencyMetric? ==> r.Ok?
    ensures m.StepCountMetric? ==> r.value.value == |trace.steps| as real
    ensures m.TokenUsageMetric? ==> r.value.value == TokenTotal(trace.steps) as real
                                    && r.value.details == LlmCallsDetail(|LlmCalls(trace.steps)|)
    ensures m.ToolCallCountMetric? ==> r.value.value == |ToolCalls(trace.steps)| as real
                                       && r.value.details == ToolsDetail(ToolsCalled(trace.steps))
    ensures m.LlmCallCountMetric? ==> r.value.value == |LlmCalls(trace.steps)| as real
    ensures m.DurationMetric? ==> r.value.value == trace.durationMs.GetOr(0.0)
  {
    match m
    case StepCountMetric => Ok(MetricResult("step_count", |trace.steps| as real, Some("steps"), NoMetricDetails))
    case TokenUsageMetric =>
      Ok(MetricResult("token_usage", TokenTotal(trace.steps) as real, Some("tokens"), LlmCallsDetail(|LlmCalls(trace.steps)|)))
    case ToolCallCountMetric =>
      Ok(MetricResult("tool_call_count", |ToolCalls(trace.steps)| as real, Some("calls"), ToolsDetail(ToolsCalled(trace.steps))))
    case DurationMetric => Ok(MetricResult("duration", trace.durationMs.GetOr(0.0), Some("ms"), NoMetricDetails))
    case ToolDiversityMetric => Ok(ToolDiversity(trace))
    case StepEfficiencyMetric => StepEfficiency(trace, tc)
    case LlmCallCountMetric => Ok(MetricResult("llm_call_count", |LlmCalls(trace.steps)| as real, Some("calls"), NoMetricDetails))
    case ErrorRateMetric => Ok(ErrorRate(trace))
    case CustomMetric(_, compute) => compute(trace, tc)
  }

  /** On an empty trace every built-in metric is defined: the counts are 0,
      the ratios are 0.0 or 1.0, and nothing divides by zero, unless the
      expected step budget is negative. */
  lemma EmptyTraceMetrics(trace: TraceData, tc: Option<EvalCase>)
    requires trace.steps == []
    requires Budget(tc).None? || Budget(tc).value > 0
    ensures forall m: Metric :: !m.CustomMetric? ==> Calculate(m, trace, tc).Ok?
    ensures Calculate(ToolDiversityMetric, trace, tc).value.value == 0.0
    ensures Calculate(ErrorRateMetric, trace, tc).value.value == 0.0
    ensures Calculate(StepEfficiencyMetric, trace, tc).value.value == 1.0
    ensures Calculate(TokenUsageMetric, trace, tc).value.value == 0.0
  {
    TokenTotalZero(trace.steps);
  }
}
