/** The evaluation engine: which graders a test case gets, grading one trace
    with exceptions isolated per grader, running a multi-turn conversation
    that stops at the first turn that does not pass, assembling a suite's
    results in test-case order, and running several suites. Everything runs
    one step at a time here; the agent and the judge are parameters. */
module Evaluation {
  import opened Wrappers
  import opened Seqs
  import opened Text
  import opened Traces
  import opened Results
  import opened TestCases
  import opened CodeGraders
  import opened JudgeGraders
  import opened Graders
  import opened Metrics

  // ---------------------------------------------------------------------------
  // Graders for a turn
  // ---------------------------------------------------------------------------

  predicate NonEmpty(xs: Option<seq<string>>) {
    xs.Some? && xs.value != []
  }

  /** The graders an expectation can ask for, with their default arguments, in
      the order they are added: contains, not_contains, tool_called,
      tool_not_called, tool_order, max_steps, max_tool_calls, max_llm_calls,
      task_completed. */
  const ExpectationOrder: seq<Grader> := [
    Contains(DefaultContains),
    NotContains(NotContainsGrader(None, false)),
    ToolCalled(ToolCalledGrader(Null)),
    ToolNotCalled(ToolNotCalledGrader(None)),
    ToolOrder(ToolOrderGrader(None)),
    Bound(BoundGrader(Steps, None)),
    Bound(BoundGrader(ToolCalls, None)),
    Bound(BoundGrader(LlmCalls, None)),
    TaskCompleted(TaskCompletedGrader(true))]

  /** Which of those an expectation asks for: a list expectation when it is
      non-empty, a bound or `task_completed` whenever it is given (0 and false
      included). `output_equals`, `output_matches` and `min_steps` ask for none. */
  function Wanted(e: ExpectedBehavior): (w: seq<bool>)
    ensures |w| == |ExpectationOrder|
  {
    [NonEmpty(e.outputContains), NonEmpty(e.outputNotContains), NonEmpty(e.toolsCalled),
     NonEmpty(e.toolsNotCalled), NonEmpty(e.toolCallOrder), e.maxSteps.Some?,
     e.maxToolCalls.Some?, e.maxLlmCalls.Some?, e.taskCompleted.Some?]
  }

  /** The entries of `gs` whose flag is set, in order. */
  function Pick<T>(flags: seq<bool>, gs: seq<T>): seq<T>
    requires |flags| == |gs|
  {
    if gs == [] then []
    else Pick(flags[..|gs| - 1], gs[..|gs| - 1]) + (if flags[|gs| - 1] then [gs[|gs| - 1]] else [])
  }

  /** An entry is picked exactly when the flag of some position holding it is set. */
  lemma {:induction false} PickMembers<T>(flags: seq<bool>, gs: seq<T>, x: T)
    requires |flags| == |gs|
    ensures x in Pick(flags, gs) <==> exists k :: 0 <= k < |gs| && flags[k] && gs[k] == x
  {
    if gs != [] {
      var n := |gs| - 1;
      PickMembers(flags[..n], gs[..n], x);
      assert forall k :: 0 <= k < n ==> flags[..n][k] == flags[k] && gs[..n][k] == gs[k];
    }
  }

  /** Picking keeps the order of the list. */
  lemma {:induction false} PickSubsequence<T>(flags: seq<bool>, gs: seq<T>)
    requires |flags| == |gs|
    ensures Subsequence(Pick(flags, gs), gs)
  {
    if gs != [] {
      var n := |gs| - 1;
      PickSubsequence(flags[..n], gs[..n]);
      SubsequenceExtend(Pick(flags[..n], gs[..n]), gs[..n], gs[n], flags[n]);
      assert gs[..n] + [gs[n]] == gs;
    }
  }

  /** Extending both lists, or only the longer one, by the same last entry keeps a subsequence. */
  lemma {:induction false} SubsequenceExtend<T>(xs: seq<T>, ys: seq<T>, y: T, both: bool)
    requires Subsequence(xs, ys)
    ensures Subsequence(xs + (if both then [y] else []), ys + [y])
    decreases |ys|
  {
    if xs == [] {
      if both {
        SubsequenceOfOne(y, ys);
        assert xs + [y] == [y];
      } else {
        assert xs + [] == [];
      }
    } else {
      assert ys != [];
      assert (xs + (if both then [y] else []))[0] == xs[0];
      assert (xs + (if both then [y] else []))[1..] == xs[1..] + (if both then [y] else []);
      assert (ys + [y])[0] == ys[0] && (ys + [y])[1..] == ys[1..] + [y];
      if xs[0] == ys[0] {
        SubsequenceExtend(xs[1..], ys[1..], y, both);
      } else {
        SubsequenceExtend(xs, ys[1..], y, both);
      }
    }
  }

  lemma {:induction false} SubsequenceOfOne<T>(y: T, ys: seq<T>)
    ensures Subsequence([y], ys + [y])
    decreases |ys|
  {
    if ys == [] {
      assert [y][1..] == [] && ([] + [y])[1..] == [];
    } else if ys[0] != y {
      assert (ys + [y])[1..] == ys[1..] + [y];
      SubsequenceOfOne(y, ys[1..]);
    } else {
      assert [y][1..] == [];
    }
  }

  /** `_build_graders_for_turn`'s graders from an expectation. */
  function ExpectationGraders(e: ExpectedBehavior): seq<Grader> {
    Pick(Wanted(e), ExpectationOrder)
  }

  /** The position in `ExpectationOrder` of a grader of that kind, and -1
      for the kinds no expectation asks for. */
  function Slot(g: Grader): int {
    match g
    case Contains(_) => 0
    case NotContains(_) => 1
    case ToolCalled(_) => 2
    case ToolNotCalled(_) => 3
    case ToolOrder(_) => 4
    case Bound(b) => (match b.counted case Steps => 5 case ToolCalls => 6 case LlmCalls => 7)
    case TaskCompleted(_) => 8
    case _ => -1
  }

  /** Each grader of the fixed order sits in its own slot, so no two are equal. */
  lemma ExpectationOrderSlots()
    ensures forall k :: 0 <= k < |ExpectationOrder| ==> Slot(ExpectationOrder[k]) == k
  {
  }

  /** The expectation graders follow the fixed order, and each is present
      exactly when its expectation asks for it. */
  lemma ExpectationGradersSpec(e: ExpectedBehavior)
    ensures Subsequence(ExpectationGraders(e), ExpectationOrder)
    ensures forall k :: 0 <= k < |ExpectationOrder| ==> (ExpectationOrder[k] in ExpectationGraders(e) <==> Wanted(e)[k])
  {
    PickSubsequence(Wanted(e), ExpectationOrder);
    ExpectationOrderSlots();
    forall k | 0 <= k < |ExpectationOrder|
      ensures ExpectationOrder[k] in ExpectationGraders(e) <==> Wanted(e)[k]
    {
      PickMembers(Wanted(e), ExpectationOrder, ExpectationOrder[k]);
      forall j | 0 <= j < |ExpectationOrder| && ExpectationOrder[j] == ExpectationOrder[k]
        ensures j == k
      {
        assert Slot(ExpectationOrder[j]) == Slot(ExpectationOrder[k]);
      }
    }
  }

  /** `_create_grader_from_config`: dispatch on the lower-cased type; any
      other type gives no grader. Constructing a grader from `params` raises
      on an argument it does not take. */
  function GraderFromConfig(c: GraderConfig): (r: Result<Option<Grader>>)
    ensures Lower(c.kind) == "llm" ==> r.Ok? && r.value.Some? && r.value.value.Llm?
                                       && r.value.value.judge.model == (if c.model.Some? && c.model.value != "" then c.model.value else DefaultModel)
                                       && r.value.value.judge.threshold == c.threshold
    ensures Lower(c.kind) == "contains" ==> (r.Ok? <==> ContainsFromParams(c.params).Ok?)
                                            && (r.Ok? ==> r.value == Some(Contains(ContainsFromParams(c.params).value)))
    ensures Lower(c.kind) == "tool_called" ==> (r.Ok? <==> ToolCalledFromParams(c.params).Ok?)
                                               && (r.Ok? ==> r.value == Some(ToolCalled(ToolCalledFromParams(c.params).value)))
    ensures Lower(c.kind) !in {"llm", "contains", "tool_called"} ==> r == Ok(None)
  {
    var kind := Lower(c.kind);
    if kind == "llm" then
      Ok(Some(Llm(NewJudge(c.prompt, if c.model.Some? && c.model.value != "" then c.model.value else DefaultModel,
                           None, c.threshold, None))))
    else if kind == "contains" then
      var g :- ContainsFromParams(c.params);
      Ok(Some(Contains(g)))
    else if kind == "tool_called" then
      var g :- ToolCalledFromParams(c.params);
      Ok(Some(ToolCalled(g)))
    else Ok(None)
  }

  /** The graders built from configurations, in order, skipping those that
      give none; the first exception propagates. */
  function ConfigGraders(cs: seq<GraderConfig>): (r: Result<seq<Grader>>)
    ensures r.Ok? ==> |r.value| <= |cs|
  {
    if cs == [] then Ok([])
    else
      var init :- ConfigGraders(cs[..|cs| - 1]);
      var last :- GraderFromConfig(cs[|cs| - 1]);
      Ok(init + (if last.Some? then [last.value] else []))
  }

  /** Building the configured graders raises exactly when one of the
      configurations does. */
  lemma {:induction false} ConfigGradersRaises(cs: seq<GraderConfig>)
    ensures ConfigGraders(cs).Raised? <==> exists i :: 0 <= i < |cs| && GraderFromConfig(cs[i]).Raised?
  {
    if cs != [] {
      var n := |cs| - 1;
      var init := cs[..n];
      ConfigGradersRaises(init);
      if ConfigGraders(init).Raised? {
        var i :| 0 <= i < |init| && GraderFromConfig(init[i]).Raised?;
        assert init[i] == cs[i];
        ConfigGradersPrefix(cs, n);
        assert ConfigGraders(cs).Raised? && GraderFromConfig(cs[i]).Raised?;
      } else {
        ConfigGradersStep(cs, n);
        assert cs[..n + 1] == cs;
        var last := GraderFromConfig(cs[n]);
        if last.Raised? {
          assert ConfigGraders(cs).Raised?;
        } else {
          assert ConfigGraders(cs).Ok?;
          forall i | 0 <= i < |cs|
            ensures !GraderFromConfig(cs[i]).Raised?
          {
            if i < n {
              assert init[i] == cs[i] && !GraderFromConfig(init[i]).Raised?;
            } else {
              assert cs[i] == cs[n];
            }
          }
        }
      }
    }
  }

  /** `_build_graders_for_turn`: the expectation graders, then the configured ones. */
  function GradersForTurn(expected: Option<ExpectedBehavior>, configs: seq<GraderConfig>): (r: Result<seq<Grader>>)
    ensures r.Raised? <==> exists i :: 0 <= i < |configs| && GraderFromConfig(configs[i]).Raised?
    ensures var fixed := if expected.Some? then ExpectationGraders(expected.value) else [];
            r.Ok? ==> |fixed| <= |r.value| <= |fixed| + |configs| && r.value[..|fixed|] == fixed
  {
    ConfigGradersRaises(configs);
    var fromConfig :- ConfigGraders(configs);
    Ok((if expected.Some? then ExpectationGraders(expected.value) else []) + fromConfig)
  }

  /** `_build_graders_for_turn`: the expectation graders come first, the
      configured ones follow them. */
  method BuildGradersForTurn(expected: Option<ExpectedBehavior>, configs: seq<GraderConfig>) returns (r: Result<seq<Grader>>)
    ensures r == GradersForTurn(expected, configs)
  {
    var fixed: seq<Grader> := if expected.Some? then ExpectationGraders(expected.value) else [];
    var configured := BuildConfigGraders(configs);
    if configured.Raised? {
      return Raised(configured.message);
    }
    r := Ok(fixed + configured.value);
  }

  /** The loop over the configurations of `_build_graders_for_turn`:
      each configuration's grader in order, leaving out the unknown types,
      or the first exception. */
  method BuildConfigGraders(configs: seq<GraderConfig>) returns (r: Result<seq<Grader>>)
    ensures r == ConfigGraders(configs)
  {
    var configured: seq<Grader> := [];
    var i := 0;
    while i < |configs|
      invariant 0 <= i <= |configs|
      invariant ConfigGraders(configs[..i]) == Ok(configured)
    {
      ConfigGradersStep(configs, i);
      var g := GraderFromConfig(configs[i]);
      if g.Raised? {
        ConfigGradersPrefix(configs, i + 1);
        return Raised(g.message);
      }
      if g.value.Some? {
        configured := configured + [g.value.value];
      } else {
        assert configured + [] == configured;
      }
      i := i + 1;
    }
    assert configs[..i] == configs;
    r := Ok(configured);
  }

  /** One more configuration: its grader appended, or its exception. */
  lemma ConfigGradersStep(cs: seq<GraderConfig>, i: nat)
    requires i < |cs| && ConfigGraders(cs[..i]).Ok?
    ensures var g := GraderFromConfig(cs[i]);
            ConfigGraders(cs[..i + 1]) ==
              if g.Raised? then Raised(g.message)
              else Ok(ConfigGraders(cs[..i]).value + (if g.value.Some? then [g.value.value] else []))
  {
    assert cs[..i + 1][..i] == cs[..i];
  }

  /** Once a configuration raises, so does every longer list. */
  lemma {:induction false} ConfigGradersPrefix(cs: seq<GraderConfig>, n: nat)
    requires 0 < n <= |cs| && ConfigGraders(cs[..n]).Raised?
    ensures ConfigGraders(cs).Raised? && ConfigGraders(cs).message == ConfigGraders(cs[..n]).message
    decreases |cs| - n
  {
    if n < |cs| {
      assert cs[..n + 1][..n] == cs[..n];
      ConfigGradersPrefix(cs, n + 1);
    } else {
      assert cs[..n] == cs;
    }
  }

  /** `_build_graders`: the first turn's graders, or a lone task-completed grader without turns. */
  function GradersForCase(tc: EvalCase): (r: Result<seq<Grader>>)
    ensures tc.turns == [] ==> r.Ok? && |r.value| == 1 && r.value[0].TaskCompleted? && r.value[0].taskCompleted.requireSuccess
    ensures tc.turns != [] ==>
              (r.Raised? <==> exists i :: 0 <= i < |tc.turns[0].graders| && GraderFromConfig(tc.turns[0].graders[i]).Raised?)
  {
    if tc.turns != [] then GradersForTurn(tc.turns[0].expected, tc.turns[0].graders)
    else Ok([TaskCompleted(TaskCompletedGrader(true))])
  }

  // ---------------------------------------------------------------------------
  // Grading one trace
  // ---------------------------------------------------------------------------

  /** `grader.grade` or, concurrently, `grader.grade_async`. */
  function Run(g: Grader, trace: TraceData, tc: EvalCase, env: JudgeEnv, concurrent: bool): Result<GradeResult> {
    if concurrent then GradeAsync(g, trace, tc, env) else Grade(g, trace, tc, env)
  }

  /** The grades `evaluate` collects: one per grader, in order. */
  function GradesOf(gs: seq<Grader>, trace: TraceData, tc: EvalCase, env: JudgeEnv, concurrent: bool): (rs: seq<GradeResult>)
    ensures |rs| == |gs|
  {
    if gs == [] then []
    else GradesOf(gs[..|gs| - 1], trace, tc, env, concurrent) + [Isolated(gs[|gs| - 1], Run(gs[|gs| - 1], trace, tc, env, concurrent))]
  }

  /** The grade at each index is that grader's result, or an ERROR naming it when it raised. */
  lemma {:induction false} GradesOfAt(gs: seq<Grader>, trace: TraceData, tc: EvalCase, env: JudgeEnv, concurrent: bool, k: nat)
    requires k < |gs|
    ensures GradesOf(gs, trace, tc, env, concurrent)[k] == Isolated(gs[k], Run(gs[k], trace, tc, env, concurrent))
  {
    if k < |gs| - 1 {
      GradesOfAt(gs[..|gs| - 1], trace, tc, env, concurrent, k);
    }
  }

  /** The metric values `evaluate` keeps: those that did not raise, in order. */
  function MetricsOf(ms: seq<Metric>, trace: TraceData, tc: EvalCase): (rs: seq<MetricResult>)
    ensures |rs| <= |ms|
  {
    if ms == [] then []
    else
      var last := Calculate(ms[|ms| - 1], trace, Some(tc));
      MetricsOf(ms[..|ms| - 1], trace, tc) + (if last.Ok? then [last.value] else [])
  }

  /** Built-in metrics that cannot raise are all kept. */
  lemma {:induction false} MetricsOfKeepsTotal(ms: seq<Metric>, trace: TraceData, tc: EvalCase)
    requires forall k :: 0 <= k < |ms| ==> !ms[k].CustomMetric? && !ms[k].StepEfficiencyMetric?
    ensures |MetricsOf(ms, trace, tc)| == |ms|
  {
    if ms != [] {
      MetricsOfKeepsTotal(ms[..|ms| - 1], trace, tc);
    }
  }

  /** The grading loop of `evaluate` (and of `evaluate_async`, whose gathered
      results come back in grader order): each grader's result, or an ERROR
      naming it when it raised, added in order to a fresh result. */
  method RecordGrades(result: EvaluationResult, gs: seq<Grader>, trace: TraceData, tc: EvalCase, env: JudgeEnv, concurrent: bool)
    requires result.grades == [] && result.status == Pass
    modifies result
    ensures result.grades == GradesOf(gs, trace, tc, env, concurrent)
    ensures result.status == FoldAll(Pass, result.grades)
    ensures result.testCaseName == old(result.testCaseName) && result.traceId == old(result.traceId)
    ensures result.metrics == old(result.metrics) && result.turnResults == old(result.turnResults)
    ensures result.error == old(result.error)
  {
    var i := 0;
    while i < |gs|
      invariant 0 <= i <= |gs|
      invariant result.grades == GradesOf(gs[..i], trace, tc, env, concurrent)
      invariant result.status == FoldAll(Pass, result.grades)
      invariant result.testCaseName == old(result.testCaseName) && result.traceId == old(result.traceId)
      invariant result.metrics == old(result.metrics) && result.turnResults == old(result.turnResults)
      invariant result.error == old(result.error)
    {
      assert gs[..i + 1][..i] == gs[..i];
      var grade := Isolated(gs[i], Run(gs[i], trace, tc, env, concurrent));
      ghost var before := result.grades;
      assert GradesOf(gs[..i + 1], trace, tc, env, concurrent) == before + [grade];
      result.AddGrade(grade);
      assert result.grades[..|before|] == before;
      i := i + 1;
    }
    assert gs[..i] == gs;
  }

  /** The metric loop of `evaluate`: each metric's value in order, those that raise left out. */
  method RecordMetrics(result: EvaluationResult, ms: seq<Metric>, trace: TraceData, tc: EvalCase)
    requires result.metrics == []
    modifies result
    ensures result.metrics == MetricsOf(ms, trace, tc)
    ensures result.testCaseName == old(result.testCaseName) && result.traceId == old(result.traceId)
    ensures result.grades == old(result.grades) && result.status == old(result.status)
    ensures result.turnResults == old(result.turnResults) && result.error == old(result.error)
  {
    var j := 0;
    while j < |ms|
      invariant 0 <= j <= |ms|
      invariant result.metrics == MetricsOf(ms[..j], trace, tc)
      invariant result.testCaseName == old(result.testCaseName) && result.traceId == old(result.traceId)
      invariant result.grades == old(result.grades) && result.status == old(result.status)
      invariant result.turnResults == old(result.turnResults) && result.error == old(result.error)
    {
      assert ms[..j + 1][..j] == ms[..j];
      var m := Calculate(ms[j], trace, Some(tc));
      if m.Ok? {
        result.AddMetric(m.value);
      }
      j := j + 1;
    }
    assert ms[..j] == ms;
  }

  /** With no graders an evaluation passes; a grader that raises makes it
      ERROR; and it passes exactly when every grader returned a PASS or SKIP
      result. */
  lemma EvaluateStatus(gs: seq<Grader>, trace: TraceData, tc: EvalCase, env: JudgeEnv)
    ensures gs == [] ==> FoldAll(Pass, GradesOf(gs, trace, tc, env, false)) == Pass
    ensures (exists k :: 0 <= k < |gs| && Grade(gs[k], trace, tc, env).Raised?) ==>
              FoldAll(Pass, GradesOf(gs, trace, tc, env, false)) == GradeStatus.Error
    ensures FoldAll(Pass, GradesOf(gs, trace, tc, env, false)) == Pass <==>
              forall k :: 0 <= k < |gs| ==> Grade(gs[k], trace, tc, env).Ok? && Grade(gs[k], trace, tc, env).value.status in {Pass, Skip}
  {
    var rs := GradesOf(gs, trace, tc, env, false);
    FoldAllFromPass(rs);
    forall k | 0 <= k < |gs|
      ensures rs[k] == Isolated(gs[k], Run(gs[k], trace, tc, env, false))
    {
      GradesOfAt(gs, trace, tc, env, false, k);
    }
  }
  /** Evaluating from PASS never yields SKIP: a SKIP grade leaves the status as it was. */
  lemma {:induction false} FoldAllNeverSkip(gs: seq<GradeResult>)
    ensures FoldAll(Pass, gs) != Skip
  {
    if gs != [] {
      FoldAllNeverSkip(gs[..|gs| - 1]);
    }
  }

  // ---------------------------------------------------------------------------
  // Conversations
  // ---------------------------------------------------------------------------

  /** The agent under test: a user input and the history so far to a trace, or an exception. */
  type Agent = (string, seq<Message>) -> Result<TraceData>

  /** The one-turn case a turn's graders see. */
  function TurnCase(turn: Turn, k: nat): (c: EvalCase)
    ensures c.turns == [turn] && c.Expected() == turn.expected.GetOr(NoExpectations)
  {
    SingleTurnCase("turn_" + NatToString(k), turn)
  }

  /** `_evaluate_turn`: the turn's graders run through `grade_async`, each
      exception an ERROR result, the status folded from PASS. */
  function TurnGrading(trace: TraceData, turn: Turn, k: nat, gs: seq<Grader>, env: JudgeEnv): (tr: TurnResult)
    ensures tr.turnIndex == k && tr.userInput == turn.user && tr.traceId == Some(trace.id) && !tr.skipped
    ensures tr.grades == GradesOf(gs, trace, TurnCase(turn, k), env, true)
    ensures tr.status == FoldAll(Pass, tr.grades) && tr.status != Skip
  {
    var grades := GradesOf(gs, trace, TurnCase(turn, k), env, true);
    FoldAllNeverSkip(grades);
    TurnResult(k, turn.user, FoldAll(Pass, grades), Some(trace.id), false, grades)
  }

  /** What running one turn gives: the exception that stopped it (from the
      agent or from building the turn's graders), or its status, trace id,
      grades and the agent's output. */
  datatype TurnAttempt =
    | Stopped(message: string)
    | Ran(status: GradeStatus, traceId: string, grades: seq<GradeResult>, output: Option<string>)

  /** The body of the `try` around one turn of `_evaluate_single_async`. */
  function TurnOutcome(agent: Agent, env: JudgeEnv, turn: Turn, k: nat, history: seq<Message>): (a: TurnAttempt)
    ensures a.Ran? ==> a.status != Skip
    ensures agent(turn.user, history).Raised? ==> a == Stopped(agent(turn.user, history).message)
  {
    var attempt := agent(turn.user, history);
    if attempt.Raised? then Stopped(attempt.message)
    else
      var trace := attempt.value;
      var graders := GradersForTurn(turn.expected, turn.graders);
      if graders.Raised? then Stopped(graders.message)
      else if graders.value == [] then Ran(Pass, trace.id, [], trace.output)
      else
        var tr := TurnGrading(trace, turn, k, graders.value, env);
        Ran(tr.status, trace.id, tr.grades, trace.output)
  }

  /** Runs one turn: the turn, its index and the history before it. */
  type TurnRunner = (Turn, nat, seq<Message>) -> TurnAttempt

  /** The runner the evaluator uses with a given agent and judge. */
  function Runner(agent: Agent, env: JudgeEnv): TurnRunner {
    (turn: Turn, k: nat, history: seq<Message>) => TurnOutcome(agent, env, turn, k, history)
  }

  /** A runner whose turns that ran never report SKIP. */
  ghost predicate NeverSkips(run: TurnRunner) {
    forall turn: Turn, k: nat, history: seq<Message> :: run(turn, k, history).Ran? ==> run(turn, k, history).status != Skip
  }

  lemma RunnerNeverSkips(agent: Agent, env: JudgeEnv)
    ensures NeverSkips(Runner(agent, env))
  {
    forall turn: Turn, k: nat, history: seq<Message> | Runner(agent, env)(turn, k, history).Ran?
      ensures Runner(agent, env)(turn, k, history).status != Skip
    {
      assert Runner(agent, env)(turn, k, history) == TurnOutcome(agent, env, turn, k, history);
    }
  }

  /** The result recorded for turn `k` from what running it gave. */
  function Recorded(turn: Turn, k: nat, a: TurnAttempt): (tr: TurnResult)
    ensures tr.turnIndex == k && tr.userInput == turn.user && !tr.skipped
  {
    match a
    case Stopped(m) => TurnResult(k, turn.user, GradeStatus.Error, None, false, [ErrorResult("execution", "Agent error: " + m)])
    case Ran(status, id, grades, _) => TurnResult(k, turn.user, status, Some(id), false, grades)
  }

  /** The turns after a failed one, from `lo` up to `hi`, each SKIP and marked skipped. */
  function Skips(turns: seq<Turn>, lo: nat, hi: nat): (rs: seq<TurnResult>)
    requires lo <= hi <= |turns|
    ensures |rs| == hi - lo
    decreases hi
  {
    if hi == lo then []
    else Skips(turns, lo, hi - 1) + [TurnResult(hi - 1, turns[hi - 1].user, Skip, None, true, [])]
  }

  /** Each padded turn is SKIP, skipped, and carries its own index and input. */
  lemma {:induction false} SkipsAt(turns: seq<Turn>, lo: nat, hi: nat, j: nat)
    requires lo <= hi <= |turns| && j < hi - lo
    ensures Skips(turns, lo, hi)[j] == TurnResult(lo + j, turns[lo + j].user, Skip, None, true, [])
    decreases hi
  {
    if j < hi - 1 - lo {
      SkipsAt(turns, lo, hi - 1, j);
    }
  }

  /** The history after a turn: the user's input, then the agent's output ("" without one). */
  function Extend(history: seq<Message>, user: string, output: Option<string>): seq<Message> {
    history + [Message("user", user), Message("assistant", output.GetOr(""))]
  }

  /** The turn results of `_evaluate_single_async` from turn `k` on, given the
      history so far: a turn that did not pass stops the conversation and the
      remaining turns are padded as skipped. */
  function Conversation(turns: seq<Turn>, k: nat, history: seq<Message>, run: TurnRunner): (rs: seq<TurnResult>)
    requires k <= |turns|
    ensures |rs| == |turns| - k
    ensures k < |turns| ==> rs[0] == Recorded(turns[k], k, run(turns[k], k, history))
    decreases |turns| - k
  {
    if k == |turns| then []
    else
      var a := run(turns[k], k, history);
      var tr := Recorded(turns[k], k, a);
      if !tr.Passed() then [tr] + Skips(turns, k + 1, |turns|)
      else [tr] + Conversation(turns, k + 1, Extend(history, turns[k].user, a.output), run)
  }

  /** One step of `Conversation` after the results `done` of the turns before
      `k`: the turn's result either ends the conversation with the remaining
      turns padded as skipped, or comes before the rest of the conversation
      on the extended history. */
  lemma ConversationStep(turns: seq<Turn>, k: nat, history: seq<Message>, run: TurnRunner, a: TurnAttempt,
                         done: seq<TurnResult>, whole: seq<TurnResult>)
    requires k < |turns| && a == run(turns[k], k, history)
    requires done + Conversation(turns, k, history, run) == whole
    ensures !Recorded(turns[k], k, a).Passed() ==> done + [Recorded(turns[k], k, a)] + Skips(turns, k + 1, |turns|) == whole
    ensures Recorded(turns[k], k, a).Passed() ==>
              (done + [Recorded(turns[k], k, a)]) + Conversation(turns, k + 1, Extend(history, turns[k].user, a.output), run) == whole
  {
    var tr := Recorded(turns[k], k, a);
    if tr.Passed() {
      var rest := Conversation(turns, k + 1, Extend(history, turns[k].user, a.output), run);
      assert Conversation(turns, k, history, run) == [tr] + rest;
      assert done + ([tr] + rest) == (done + [tr]) + rest;
    } else {
      var pad := Skips(turns, k + 1, |turns|);
      assert Conversation(turns, k, history, run) == [tr] + pad;
      assert done + ([tr] + pad) == done + [tr] + pad;
    }
  }

  /** One result per turn, in turn order, each carrying its turn's index and input. */
  lemma {:induction false} ConversationShape(turns: seq<Turn>, k: nat, history: seq<Message>, run: TurnRunner)
    requires k <= |turns|
    ensures var rs := Conversation(turns, k, history, run);
            |rs| == |turns| - k
            && forall j :: 0 <= j < |rs| ==> rs[j].turnIndex == k + j && rs[j].userInput == turns[k + j].user
    decreases |turns| - k
  {
    if k < |turns| {
      var rs := Conversation(turns, k, history, run);
      var a := run(turns[k], k, history);
      if Recorded(turns[k], k, a).Passed() {
        ConversationShape(turns, k + 1, Extend(history, turns[k].user, a.output), run);
      } else {
        forall j | 1 <= j < |rs|
          ensures rs[j].turnIndex == k + j && rs[j].userInput == turns[k + j].user
        {
          SkipsAt(turns, k + 1, |turns|, j - 1);
        }
      }
    }
  }

  /** Fail fast: once a turn does not pass, every later turn is marked
      skipped; a turn is skipped only after one that ran and did not pass;
      and a turn is SKIP exactly when it is skipped. */
  ghost predicate FailsFast(rs: seq<TurnResult>) {
    (forall j :: 0 <= j < |rs| ==> (rs[j].skipped <==> rs[j].status == Skip))
    && (forall i, j :: 0 <= i < j < |rs| && !rs[i].Passed() ==> rs[j].skipped)
    && (forall j :: 0 <= j < |rs| && rs[j].skipped ==> exists i :: 0 <= i < j && !rs[i].skipped && !rs[i].Passed())
  }

  /** Every conversation fails fast, given a runner that never reports SKIP. */
  lemma {:induction false} ConversationFailFast(turns: seq<Turn>, k: nat, history: seq<Message>, run: TurnRunner)
    requires k <= |turns|
    requires NeverSkips(run)
    ensures FailsFast(Conversation(turns, k, history, run))
    decreases |turns| - k
  {
    if k < |turns| {
      var rs := Conversation(turns, k, history, run);
      var a := run(turns[k], k, history);
      var tr := Recorded(turns[k], k, a);
      assert tr.status != Skip;
      if tr.Passed() {
        var next := Extend(history, turns[k].user, a.output);
        var tail := Conversation(turns, k + 1, next, run);
        ConversationFailFast(turns, k + 1, next, run);
        assert rs == [tr] + tail;
        assert forall j :: 1 <= j < |rs| ==> rs[j] == tail[j - 1];
        assert FailsFast(tail);
        forall i, j | 0 <= i < j < |rs| && !rs[i].Passed()
          ensures rs[j].skipped
        {
          assert !tail[i - 1].Passed();
        }
        forall j | 1 <= j < |rs| && rs[j].skipped
          ensures exists i :: 0 <= i < j && !rs[i].skipped && !rs[i].Passed()
        {
          assert tail[j - 1].skipped;
          var i :| 0 <= i < j - 1 && !tail[i].skipped && !tail[i].Passed();
          assert rs[i + 1] == tail[i];
        }
      } else {
        var tail := Skips(turns, k + 1, |turns|);
        assert rs == [tr] + tail;
        forall j | 1 <= j < |rs|
          ensures rs[j].skipped && rs[j].status == Skip
          ensures exists i :: 0 <= i < j && !rs[i].skipped && !rs[i].Passed()
        {
          SkipsAt(turns, k + 1, |turns|, j - 1);
          assert rs[0] == tr;
        }
      }
    }
  }

  /** The status of a test case: each turn folded into it in order. */
  function FoldTurns(start: GradeStatus, ts: seq<TurnResult>): GradeStatus {
    if ts == [] then start else Fold(FoldTurns(start, ts[..|ts| - 1]), ts[|ts| - 1].status)
  }

  /** The grades of a test case: each turn's grades in order. */
  function AllGrades(ts: seq<TurnResult>): seq<GradeResult> {
    if ts == [] then [] else AllGrades(ts[..|ts| - 1]) + ts[|ts| - 1].grades
  }

  /** Folding turns from PASS gives ERROR exactly when some turn erred, and
      PASS exactly when every turn passed or was skipped. */
  lemma {:induction false} FoldTurnsFromPass(ts: seq<TurnResult>)
    ensures FoldTurns(Pass, ts) == GradeStatus.Error <==> exists j :: 0 <= j < |ts| && ts[j].status == GradeStatus.Error
    ensures FoldTurns(Pass, ts) == Pass <==> forall j :: 0 <= j < |ts| ==> ts[j].status in {Pass, Skip}
  {
    if ts != [] {
      var init := ts[..|ts| - 1];
      FoldTurnsFromPass(init);
      assert forall j :: 0 <= j < |init| ==> init[j] == ts[j];
    }
  }

  /** A turn's grades are among the test case's grades. */
  lemma {:induction false} AllGradesHas(ts: seq<TurnResult>, j: nat, g: GradeResult)
    requires j < |ts| && g in ts[j].grades
    ensures g in AllGrades(ts)
  {
    if j < |ts| - 1 {
      AllGradesHas(ts[..|ts| - 1], j, g);
    }
  }

  /** Skipped turns add no grades and leave the status as it was. */
  lemma {:induction false} SkipsNeutral(ts: seq<TurnResult>, turns: seq<Turn>, lo: nat, hi: nat, start: GradeStatus)
    requires lo <= hi <= |turns|
    ensures AllGrades(ts + Skips(turns, lo, hi)) == AllGrades(ts)
    ensures FoldTurns(start, ts + Skips(turns, lo, hi)) == FoldTurns(start, ts)
    decreases hi
  {
    if lo == hi {
      assert ts + Skips(turns, lo, hi) == ts;
    } else {
      SkipsNeutral(ts, turns, lo, hi - 1, start);
      var all := ts + Skips(turns, lo, hi);
      assert all[..|all| - 1] == ts + Skips(turns, lo, hi - 1);
    }
  }

  /** A multi-turn case passes exactly when every turn passed, and is ERROR
      exactly when some turn was. */
  lemma ConversationStatus(turns: seq<Turn>, agent: Agent, env: JudgeEnv)
    ensures var rs := Conversation(turns, 0, [], Runner(agent, env));
            (FoldTurns(Pass, rs) == Pass <==> forall j :: 0 <= j < |rs| ==> rs[j].Passed())
            && (FoldTurns(Pass, rs) == GradeStatus.Error <==> exists j :: 0 <= j < |rs| && rs[j].status == GradeStatus.Error)
  {
    var rs := Conversation(turns, 0, [], Runner(agent, env));
    FoldTurnsFromPass(rs);
    RunnerNeverSkips(agent, env);
    ConversationFailFast(turns, 0, [], Runner(agent, env));
    assert FailsFast(rs);
    if FoldTurns(Pass, rs) == Pass {
      forall j | 0 <= j < |rs|
        ensures rs[j].Passed()
      {
        assert rs[j].status in {Pass, Skip};
      }
    }
  }

  /** When the agent raises on the first turn, that turn is ERROR with an
      "Agent error: " grade named execution, every later turn is skipped, and
      the case is ERROR. */
  lemma FirstTurnAgentError(turns: seq<Turn>, agent: Agent, env: JudgeEnv)
    requires turns != [] && agent(turns[0].user, []).Raised?
    ensures var rs := Conversation(turns, 0, [], Runner(agent, env));
            |rs| == |turns| && rs[0].status == GradeStatus.Error
            && (forall j :: 1 <= j < |rs| ==> rs[j].skipped && rs[j].status == Skip)
            && ErrorResult("execution", "Agent error: " + agent(turns[0].user, []).message) in AllGrades(rs)
            && FoldTurns(Pass, rs) == GradeStatus.Error
  {
    var rs := Conversation(turns, 0, [], Runner(agent, env));
    assert Runner(agent, env)(turns[0], 0, []) == Stopped(agent(turns[0].user, []).message);
    ConversationShape(turns, 0, [], Runner(agent, env));
    forall j | 1 <= j < |rs|
      ensures rs[j].skipped && rs[j].status == Skip
    {
      SkipsAt(turns, 1, |turns|, j - 1);
    }
    AllGradesHas(rs, 0, ErrorResult("execution", "Agent error: " + agent(turns[0].user, []).message));
    FoldTurnsFromPass(rs);
  }

  /** The inner loop that marks the remaining turns skipped. */
  method PadSkips(turns: seq<Turn>, from: nat) returns (pad: seq<TurnResult>)
    requires from <= |turns|
    ensures pad == Skips(turns, from, |turns|)
  {
    pad := [];
    var j := from;
    while j < |turns|
      invariant from <= j <= |turns|
      invariant pad == Skips(turns, from, j)
    {
      pad := pad + [TurnResult(j, turns[j].user, Skip, None, true, [])];
      j := j + 1;
    }
  }

  /** Records turn results in order, each through `add_turn_result`. */
  method RecordTurns(result: EvaluationResult, trs: seq<TurnResult>)
    requires result.turnResults == [] && result.grades == [] && result.status == Pass
    modifies result
    ensures result.turnResults == trs && result.grades == AllGrades(trs) && result.status == FoldTurns(Pass, trs)
    ensures result.testCaseName == old(result.testCaseName) && result.metrics == old(result.metrics)
    ensures result.traceId == old(result.traceId) && result.error == old(result.error)
  {
    var j := 0;
    while j < |trs|
      invariant 0 <= j <= |trs|
      invariant result.turnResults == trs[..j] && result.grades == AllGrades(trs[..j]) && result.status == FoldTurns(Pass, trs[..j])
      invariant result.testCaseName == old(result.testCaseName) && result.metrics == old(result.metrics)
      invariant result.traceId == old(result.traceId) && result.error == old(result.error)
    {
      assert trs[..j + 1][..j] == trs[..j];
      result.AddTurnResult(trs[j]);
      j := j + 1;
    }
    assert trs[..j] == trs;
  }

  /** The status `_evaluate_single_async`'s result ends with. */
  function CaseStatus(tc: EvalCase, agent: Agent, env: JudgeEnv): (s: GradeStatus)
    ensures var rs := CaseTurns(tc, agent, env);
            (s == Pass <==> tc.turns != [] && forall j :: 0 <= j < |rs| ==> rs[j].Passed())
            && (s == GradeStatus.Error <==> tc.turns == [] || exists j :: 0 <= j < |rs| && rs[j].status == GradeStatus.Error)
  {
    if tc.turns == [] then GradeStatus.Error
    else
      ConversationStatus(tc.turns, agent, env);
      FoldTurns(Pass, Conversation(tc.turns, 0, [], Runner(agent, env)))
  }

  /** The turn results `_evaluate_single_async` records: none for a case without turns. */
  function CaseTurns(tc: EvalCase, agent: Agent, env: JudgeEnv): seq<TurnResult> {
    if tc.turns == [] then [] else Conversation(tc.turns, 0, [], Runner(agent, env))
  }

  /** A result holding what `_evaluate_case` gives for the test case. */
  ghost predicate IsCaseEvaluation(r: EvaluationResult, tc: EvalCase, agent: Agent, env: JudgeEnv)
    reads r
  {
    r.testCaseName == tc.name && r.status == CaseStatus(tc, agent, env)
    && r.traceId == None && r.metrics == [] && r.error == CaseError(tc)
    && r.turnResults == CaseTurns(tc, agent, env) && r.grades == AllGrades(CaseTurns(tc, agent, env))
  }

  /** The error `_evaluate_single_async` records: only a case without turns has one. */
  function CaseError(tc: EvalCase): Option<string> {
    if tc.turns == [] then Some("Test case has no turns defined") else None
  }

  // ---------------------------------------------------------------------------
  // Suites
  // ---------------------------------------------------------------------------

  /** What gathering hands back for one test case: its index and result, or an exception. */
  datatype Outcome = Finished(index: nat, result: EvaluationResult) | Crashed

  /** `results_by_index`: each finished outcome stored under its index, a later one overwriting. */
  function ByIndex(outcomes: seq<Outcome>): (m: map<nat, EvaluationResult>)
    ensures forall i :: i in m <==> exists k :: 0 <= k < |outcomes| && outcomes[k].Finished? && outcomes[k].index == i
  {
    if outcomes == [] then map[]
    else
      var init := outcomes[..|outcomes| - 1];
      var last := outcomes[|outcomes| - 1];
      assert forall k :: 0 <= k < |init| ==> init[k] == outcomes[k];
      if last.Finished? then ByIndex(init)[last.index := last.result] else ByIndex(init)
  }

  /** When every finished outcome sits at its own index, the map holds exactly
      the finished test cases, each with its own result. */
  lemma {:induction false} ByIndexPositioned(outcomes: seq<Outcome>)
    requires forall k :: 0 <= k < |outcomes| && outcomes[k].Finished? ==> outcomes[k].index == k
    ensures forall i: nat :: i in ByIndex(outcomes) <==> i < |outcomes| && outcomes[i].Finished?
    ensures forall i: nat :: i in ByIndex(outcomes) ==> ByIndex(outcomes)[i] == outcomes[i].result
  {
    if outcomes != [] {
      var init := outcomes[..|outcomes| - 1];
      assert forall k :: 0 <= k < |init| ==> init[k] == outcomes[k];
      ByIndexPositioned(init);
    }
  }

  /** The end of `evaluate_suite_async`: results in test-case order, a test
      case whose run raised recorded as an ERROR. */
  /** The result that stands in for a test run that raised: ERROR, the
      fallback error message, and nothing recorded. */
  ghost predicate IsCrashEvaluation(r: EvaluationResult, name: string)
    reads r
  {
    r.testCaseName == name && r.status == GradeStatus.Error && r.grades == [] && r.turnResults == []
    && r.metrics == [] && r.traceId == None && r.error == Some("Test execution failed unexpectedly")
  }

  method Reassemble(suiteName: string, cases: seq<EvalCase>, outcomes: seq<Outcome>) returns (sr: SuiteResult)
    ensures fresh(sr) && sr.suiteName == suiteName && |sr.results| == |cases|
    ensures forall i :: 0 <= i < |cases| && i in ByIndex(outcomes) ==> sr.results[i] == ByIndex(outcomes)[i]
    ensures forall i :: 0 <= i < |cases| && i !in ByIndex(outcomes) ==>
              fresh(sr.results[i]) && IsCrashEvaluation(sr.results[i], cases[i].name)
  {
    var byIndex: map<nat, EvaluationResult> := map[];
    var k := 0;
    while k < |outcomes|
      invariant 0 <= k <= |outcomes|
      invariant byIndex == ByIndex(outcomes[..k])
    {
      assert outcomes[..k + 1][..k] == outcomes[..k];
      if outcomes[k].Finished? {
        byIndex := byIndex[outcomes[k].index := outcomes[k].result];
      }
      k := k + 1;
    }
    assert outcomes[..k] == outcomes;
    sr := new SuiteResult(suiteName);
    var i := 0;
    while i < |cases|
      invariant 0 <= i <= |cases|
      invariant sr.suiteName == suiteName && |sr.results| == i
      invariant forall j :: 0 <= j < i && j in byIndex ==> sr.results[j] == byIndex[j]
      invariant forall j :: 0 <= j < i && j !in byIndex ==>
                  fresh(sr.results[j]) && IsCrashEvaluation(sr.results[j], cases[j].name)
    {
      if i in byIndex {
        sr.AddResult(byIndex[i]);
      } else {
        var failed := new EvaluationResult(cases[i].name, GradeStatus.Error, None, Some("Test execution failed unexpectedly"));
        sr.AddResult(failed);
      }
      i := i + 1;
    }
  }

  /** `Evaluator`: its graders (none means "build them from the test case"),
      its metrics and the judge's environment. */
  class Evaluator {
    const graders: seq<Grader>
    const metrics: seq<Metric>
    const env: JudgeEnv

    /** `Evaluator(graders, metrics)`: no metrics means the four defaults. */
    constructor (graders: seq<Grader>, metrics: seq<Metric>, env: JudgeEnv)
      ensures this.graders == graders && this.env == env
      ensures this.metrics == (if metrics == [] then DefaultMetrics else metrics)
    {
      this.graders := graders;
      this.metrics := if metrics == [] then DefaultMetrics else metrics;
      this.env := env;
    }

    /** The graders `evaluate` runs: its own, or else those built from the
        test case (which may raise). */
    function Selected(tc: EvalCase): Result<seq<Grader>> {
      if graders != [] then Ok(graders) else GradersForCase(tc)
    }

    /** `evaluate` (sequential) and `evaluate_async` (`concurrent`): one grade
        per grader in order, a raising grader recorded as an ERROR, metrics
        that raise dropped; the status folds the grades from PASS. Building
        the graders from the test case may raise out of it. */
    method Evaluate(trace: TraceData, tc: EvalCase, concurrent: bool) returns (r: Result<EvaluationResult>)
      ensures r.Raised? <==> Selected(tc).Raised?
      ensures r.Ok? ==> fresh(r.value)
      ensures r.Ok? ==> r.value.testCaseName == tc.name && r.value.traceId == Some(trace.id)
                        && r.value.grades == GradesOf(Selected(tc).value, trace, tc, env, concurrent)
                        && r.value.status == FoldAll(Pass, r.value.grades)
                        && r.value.metrics == MetricsOf(metrics, trace, tc)
                        && r.value.turnResults == [] && r.value.error == None
    {
      var gs: seq<Grader>;
      if graders != [] {
        gs := graders;
      } else {
        var built := GradersForCase(tc);
        if built.Raised? {
          return Raised(built.message);
        }
        gs := built.value;
      }
      var result := new EvaluationResult(tc.name, Pass, Some(trace.id), None);
      RecordGrades(result, gs, trace, tc, env, concurrent);
      RecordMetrics(result, metrics, trace, tc);
      r := Ok(result);
    }

    /** `_evaluate_turn`: the gathered grades appended in order, the status
        becoming ERROR on an ERROR grade and FAIL on a FAIL grade unless
        already ERROR. */
    method EvaluateTurn(trace: TraceData, turn: Turn, k: nat, gs: seq<Grader>) returns (tr: TurnResult)
      ensures tr == TurnGrading(trace, turn, k, gs, env)
    {
      var tc := TurnCase(turn, k);
      var grades: seq<GradeResult> := [];
      var status := Pass;
      var i := 0;
      while i < |gs|
        invariant 0 <= i <= |gs|
        invariant grades == GradesOf(gs[..i], trace, tc, env, true)
        invariant status == FoldAll(Pass, grades)
      {
        assert gs[..i + 1][..i] == gs[..i];
        var attempt := GradeAsync(gs[i], trace, tc, env);
        var grade := Isolated(gs[i], attempt);
        ghost var before := grades;
        grades := grades + [grade];
        if grade.status == GradeStatus.Error {
          status := GradeStatus.Error;
        } else if grade.status == Fail && status != GradeStatus.Error {
          status := Fail;
        }
        assert grades[..|before|] == before;
        i := i + 1;
      }
      assert gs[..i] == gs;
      tr := TurnResult(k, turn.user, status, Some(trace.id), false, grades);
    }

    /** `_evaluate_single_async`: the turns one after another with the
        growing history, stopping at the first turn that does not pass and
        marking the rest skipped; a case without turns is an ERROR. */
    method EvaluateCase(tc: EvalCase, agent: Agent) returns (result: EvaluationResult)
      ensures fresh(result)
      ensures result.testCaseName == tc.name && result.traceId == None && result.metrics == []
      ensures result.status == CaseStatus(tc, agent, env)
      ensures result.error == CaseError(tc) && result.turnResults == CaseTurns(tc, agent, env)
      ensures result.grades == AllGrades(result.turnResults)
      ensures tc.turns == [] ==> result.error == Some("Test case has no turns defined")
                                 && result.turnResults == [] && result.grades == []
      ensures tc.turns != [] ==> result.error == None
                                 && result.turnResults == Conversation(tc.turns, 0, [], Runner(agent, env))
    {
      result := new EvaluationResult(tc.name, Pass, None, None);
      if tc.turns == [] {
        result.status := GradeStatus.Error;
        result.error := Some("Test case has no turns defined");
        return;
      }
      var trs := Converse(tc.turns, agent);
      RecordTurns(result, trs);
    }

    /** The turn loop of `_evaluate_single_async`: each turn run with the
        history so far, the history extended after a turn that passed, and
        the first turn that does not pass ending the loop with the remaining
        turns padded as skipped. */
    method Converse(turns: seq<Turn>, agent: Agent) returns (trs: seq<TurnResult>)
      ensures trs == Conversation(turns, 0, [], Runner(agent, env))
    {
      ghost var run := Runner(agent, env);
      trs := [];
      var history: seq<Message> := [];
      var i := 0;
      while i < |turns|
        invariant 0 <= i <= |turns|
        invariant trs + Conversation(turns, i, history, run) == Conversation(turns, 0, [], run)
        decreases |turns| - i
      {
        var turn := turns[i];
        var a := RunTurn(agent, turn, i, history);
        var tr := Recorded(turn, i, a);
        ConversationStep(turns, i, history, run, a, trs, Conversation(turns, 0, [], run));
        if !tr.Passed() {
          var pad := PadSkips(turns, i + 1);
          trs := trs + [tr] + pad;
          return;
        }
        trs := trs + [tr];
        history := Extend(history, turn.user, a.output);
        i := i + 1;
      }
      assert trs + [] == trs;
    }

    /** The `try` body for one turn: run the agent, build the turn's graders,
        and grade the trace when there are any. */
    method RunTurn(agent: Agent, turn: Turn, k: nat, history: seq<Message>) returns (a: TurnAttempt)
      ensures a == Runner(agent, env)(turn, k, history)
    {
      var attempt := agent(turn.user, history);
      if attempt.Raised? {
        return Stopped(attempt.message);
      }
      var trace := attempt.value;
      var built := BuildGradersForTurn(turn.expected, turn.graders);
      if built.Raised? {
        return Stopped(built.message);
      }
      if built.value == [] {
        a := Ran(Pass, trace.id, [], trace.output);
      } else {
        var tr := EvaluateTurn(trace, turn, k, built.value);
        a := Ran(tr.status, trace.id, tr.grades, trace.output);
      }
    }

    /** `evaluate_suite_async`: every test case run (one after another here),
        `on_result` called on each result; a case whose run raised, which
        here can only be the callback, is recorded as an ERROR; results keep
        test-case order. */
    method EvaluateSuite(suite: EvalSuite, agent: Agent, callbackRaises: nat -> bool) returns (sr: SuiteResult)
      ensures fresh(sr) && sr.suiteName == suite.name && |sr.results| == |suite.testCases|
      ensures forall i :: 0 <= i < |suite.testCases| ==>
                sr.results[i].status == SuiteCaseStatus(suite, i, agent, env, callbackRaises)
      ensures forall i :: 0 <= i < |suite.testCases| ==>
                if callbackRaises(i) then IsCrashEvaluation(sr.results[i], suite.testCases[i].name)
                else IsCaseEvaluation(sr.results[i], suite.testCases[i], agent, env)
    {
      var cases := suite.testCases;
      var outcomes: seq<Outcome> := [];
      var i := 0;
      while i < |cases|
        invariant 0 <= i <= |cases| && |outcomes| == i
        invariant forall k :: 0 <= k < i ==> (outcomes[k].Crashed? <==> callbackRaises(k))
        invariant forall k :: 0 <= k < i && outcomes[k].Finished? ==>
                    outcomes[k].index == k && IsCaseEvaluation(outcomes[k].result, cases[k], agent, env)
      {
        var result := EvaluateCase(cases[i], agent);
        if callbackRaises(i) {
          outcomes := outcomes + [Crashed];
        } else {
          outcomes := outcomes + [Finished(i, result)];
        }
        i := i + 1;
      }
      ByIndexPositioned(outcomes);
      sr := Reassemble(suite.name, cases, outcomes);
    }
  }

  // ---------------------------------------------------------------------------
  // Runs
  // ---------------------------------------------------------------------------

  /** The suites `run_async` evaluates: filtered by tag when tags are given,
      and those left without test cases dropped. */
  function RunSuites(suites: seq<EvalSuite>, tags: seq<string>): (ss: seq<EvalSuite>)
    ensures |ss| <= |suites|
    ensures forall s :: s in ss ==> s.testCases != []
  {
    if suites == [] then []
    else
      var last := suites[|suites| - 1];
      var filtered := if tags != [] then FilterByTags(last, tags) else last;
      RunSuites(suites[..|suites| - 1], tags) + (if filtered.testCases != [] then [filtered] else [])
  }

  /** How many test cases the given suites hold. */
  function CaseCount(ss: seq<EvalSuite>): nat {
    if ss == [] then 0 else CaseCount(ss[..|ss| - 1]) + |ss[|ss| - 1].testCases|
  }

  /** One more suite either joins the selection or is dropped. */
  lemma RunSuitesStep(suites: seq<EvalSuite>, tags: seq<string>, i: nat)
    requires i < |suites|
    ensures var s := if tags != [] then FilterByTags(suites[i], tags) else suites[i];
            RunSuites(suites[..i + 1], tags) == RunSuites(suites[..i], tags) + (if s.testCases != [] then [s] else [])
  {
    assert suites[..i + 1][..i] == suites[..i];
  }

  /** The status test case `j` of a suite ends with in `evaluate_suite_async`:
      ERROR when its run raised (here: its `on_result` callback), the case's
      own status otherwise. */
  function SuiteCaseStatus(suite: EvalSuite, j: nat, agent: Agent, env: JudgeEnv, callbackRaises: nat -> bool): GradeStatus
    requires j < |suite.testCases|
  {
    if callbackRaises(j) then GradeStatus.Error else CaseStatus(suite.testCases[j], agent, env)
  }

  /** The statuses of one suite's test cases, in order. */
  function SuiteStatuses(suite: EvalSuite, agent: Agent, env: JudgeEnv, callbackRaises: nat -> bool): (r: seq<GradeStatus>)
    ensures |r| == |suite.testCases|
    ensures forall j :: 0 <= j < |r| ==> r[j] == SuiteCaseStatus(suite, j, agent, env, callbackRaises)
  {
    seq(|suite.testCases|, j requires 0 <= j < |suite.testCases| => SuiteCaseStatus(suite, j, agent, env, callbackRaises))
  }

  /** The statuses of all test cases of the given suites, suite by suite. */
  function RunStatuses(ss: seq<EvalSuite>, agent: Agent, env: JudgeEnv, callbackRaises: nat -> bool): (r: seq<GradeStatus>)
    ensures |r| == CaseCount(ss)
  {
    if ss == [] then []
    else RunStatuses(ss[..|ss| - 1], agent, env, callbackRaises) + SuiteStatuses(ss[|ss| - 1], agent, env, callbackRaises)
  }

  /** Suite results that match the selected suites by position: same name,
      one evaluation per test case, each with the status that case ends with. */
  ghost predicate Matches(rs: seq<SuiteResult>, ss: seq<EvalSuite>, agent: Agent, env: JudgeEnv, callbackRaises: nat -> bool)
    reads rs, SuiteFootprint(rs)
  {
    |rs| == |ss| && forall k :: 0 <= k < |rs| ==>
      assert forall r :: r in rs[k].results ==> r in SuiteFootprint(rs);
      SuiteMatches(rs[k], ss[k], agent, env, callbackRaises)
  }

  ghost predicate SuiteMatches(r: SuiteResult, s: EvalSuite, agent: Agent, env: JudgeEnv, callbackRaises: nat -> bool)
    reads r, r.results
  {
    r.suiteName == s.name && |r.results| == |s.testCases|
    && forall j :: 0 <= j < |r.results| ==> r.results[j].status == SuiteCaseStatus(s, j, agent, env, callbackRaises)
  }

  lemma MatchesExtend(rs: seq<SuiteResult>, ss: seq<EvalSuite>, r: SuiteResult, s: EvalSuite,
                      agent: Agent, env: JudgeEnv, callbackRaises: nat -> bool)
    requires Matches(rs, ss, agent, env, callbackRaises) && SuiteMatches(r, s, agent, env, callbackRaises)
    ensures Matches(rs + [r], ss + [s], agent, env, callbackRaises)
  {
  }

  /** Suite results holding one evaluation per test case of the matching
      suites total as many cases as those suites hold. */
  lemma {:induction false} TotalIsCaseCount(rs: seq<SuiteResult>, ss: seq<EvalSuite>,
                                            agent: Agent, env: JudgeEnv, callbackRaises: nat -> bool)
    requires Matches(rs, ss, agent, env, callbackRaises)
    ensures SumTotal(rs) == CaseCount(ss)
  {
    if rs != [] {
      TotalIsCaseCount(rs[..|rs| - 1], ss[..|ss| - 1], agent, env, callbackRaises);
    }
  }

  /** Results carrying the given statuses in order count each status as often as it occurs. */
  lemma {:induction false} CountStatusOf(rs: seq<EvaluationResult>, sts: seq<GradeStatus>, st: GradeStatus)
    requires |rs| == |sts| && forall j :: 0 <= j < |rs| ==> rs[j].status == sts[j]
    ensures CountStatus(rs, st) == multiset(sts)[st]
  {
    if rs != [] {
      var n := |rs| - 1;
      CountStatusOf(rs[..n], sts[..n], st);
      assert sts == sts[..n] + [sts[n]];
    }
  }

  /** Across matching suite results, each status is counted as often as the
      selected test cases end with it. */
  lemma {:induction false} SumCountOf(rs: seq<SuiteResult>, ss: seq<EvalSuite>, agent: Agent, env: JudgeEnv,
                                      callbackRaises: nat -> bool, st: GradeStatus)
    requires Matches(rs, ss, agent, env, callbackRaises)
    ensures SumCount(rs, st) == multiset(RunStatuses(ss, agent, env, callbackRaises))[st]
  {
    if rs != [] {
      var n := |rs| - 1;
      assert Matches(rs[..n], ss[..n], agent, env, callbackRaises);
      SumCountOf(rs[..n], ss[..n], agent, env, callbackRaises, st);
      assert SuiteMatches(rs[n], ss[n], agent, env, callbackRaises);
      CountStatusOf(rs[n].results, SuiteStatuses(ss[n], agent, env, callbackRaises), st);
    }
  }

  /** A status list is all PASS exactly when PASS occurs in it as often as it is long. */
  lemma {:induction false} AllPassCount(sts: seq<GradeStatus>)
    ensures multiset(sts)[Pass] == |sts| <==> forall x :: x in sts ==> x == Pass
  {
    if sts != [] {
      var n := |sts| - 1;
      AllPassCount(sts[..n]);
      assert sts == sts[..n] + [sts[n]];
      assert multiset(sts) == multiset(sts[..n]) + multiset{sts[n]};
      assert multiset(sts[..n])[Pass] <= |sts[..n]| by {
        assert |multiset(sts[..n])| == |sts[..n]|;
      }
      if sts[n] == Pass {
        assert multiset(sts)[Pass] == multiset(sts[..n])[Pass] + 1;
        assert forall x :: x in sts <==> x in sts[..n] || x == sts[n];
      } else {
        assert multiset(sts)[Pass] == multiset(sts[..n])[Pass];
        assert sts[n] in sts;
      }
    }
  }

  /** Every status of the run belongs to one selected test case, and every
      selected test case contributes its status: the run is all PASS exactly
      when each of its test cases is. */
  lemma {:induction false} RunStatusesAllPass(ss: seq<EvalSuite>, agent: Agent, env: JudgeEnv, callbackRaises: nat -> bool)
    ensures (forall x :: x in RunStatuses(ss, agent, env, callbackRaises) ==> x == Pass) <==>
            forall k, j :: 0 <= k < |ss| && 0 <= j < |ss[k].testCases| ==>
              SuiteCaseStatus(ss[k], j, agent, env, callbackRaises) == Pass
  {
    if ss != [] {
      var n := |ss| - 1;
      RunStatusesAllPass(ss[..n], agent, env, callbackRaises);
      var last := SuiteStatuses(ss[n], agent, env, callbackRaises);
      assert RunStatuses(ss, agent, env, callbackRaises) == RunStatuses(ss[..n], agent, env, callbackRaises) + last;
      if forall k, j :: 0 <= k < |ss| && 0 <= j < |ss[k].testCases| ==> SuiteCaseStatus(ss[k], j, agent, env, callbackRaises) == Pass {
        forall x | x in last ensures x == Pass {
          var j :| 0 <= j < |last| && last[j] == x;
          assert SuiteCaseStatus(ss[n], j, agent, env, callbackRaises) == x;
        }
        forall k, j | 0 <= k < n && 0 <= j < |ss[..n][k].testCases|
          ensures SuiteCaseStatus(ss[..n][k], j, agent, env, callbackRaises) == Pass
        {
          assert ss[..n][k] == ss[k];
        }
      } else {
        var k, j :| 0 <= k < |ss| && 0 <= j < |ss[k].testCases| && SuiteCaseStatus(ss[k], j, agent, env, callbackRaises) != Pass;
        if k == n {
          assert last[j] == SuiteCaseStatus(ss[k], j, agent, env, callbackRaises);
          assert last[j] in RunStatuses(ss, agent, env, callbackRaises);
        } else {
          assert ss[..n][k] == ss[k];
          var x :| x in RunStatuses(ss[..n], agent, env, callbackRaises) && x != Pass;
          assert x in RunStatuses(ss, agent, env, callbackRaises);
        }
      }
    }
  }

  /** `EvaluationRunner`: runs suites with one evaluator. */
  class EvaluationRunner {
    const evaluator: Evaluator

    constructor (evaluator: Evaluator)
      ensures this.evaluator == evaluator
    {
      this.evaluator := evaluator;
    }

    /** `evaluate_suite_async` as `run_async` uses it: a new suite result
        under the suite's name, one evaluation per test case, each with the
        status that case ends with. */
    method EvaluateSelected(suite: EvalSuite, agent: Agent, callbackRaises: nat -> bool) returns (sr: SuiteResult)
      ensures fresh(sr) && SuiteMatches(sr, suite, agent, evaluator.env, callbackRaises)
    {
      sr := evaluator.EvaluateSuite(suite, agent, callbackRaises);
    }

    /** One suite of `run_async`'s loop: filtered by the tags when there are
        any, then evaluated and added when it still holds test cases. */
    method RunOne(run: RunResult, suites: seq<EvalSuite>, agent: Agent, tags: seq<string>,
                  callbackRaises: nat -> bool, i: nat)
      requires i < |suites| && Matches(run.suites, RunSuites(suites[..i], tags), agent, evaluator.env, callbackRaises)
      modifies run
      ensures Matches(run.suites, RunSuites(suites[..i + 1], tags), agent, evaluator.env, callbackRaises)
    {
      var suite := if tags != [] then FilterByTags(suites[i], tags) else suites[i];
      RunSuitesStep(suites, tags, i);
      if suite.testCases != [] {
        var sr := EvaluateSelected(suite, agent, callbackRaises);
        MatchesExtend(run.suites, RunSuites(suites[..i], tags), sr, suite, agent, evaluator.env, callbackRaises);
        run.AddSuite(sr);
      } else {
        assert RunSuites(suites[..i], tags) + [] == RunSuites(suites[..i], tags);
      }
    }

    /** `run_async`: one suite result per selected suite, in order, holding
        one evaluation per selected test case with the status that case ends
        with; so the run's counts are those of the selected cases, and it
        passes exactly when every selected case passes. */
    method Run(suites: seq<EvalSuite>, agent: Agent, tags: seq<string>, callbackRaises: nat -> bool) returns (run: RunResult)
      ensures fresh(run)
      ensures Matches(run.suites, RunSuites(suites, tags), agent, evaluator.env, callbackRaises)
      ensures run.Total() == CaseCount(RunSuites(suites, tags))
      ensures run.Passed() == multiset(RunStatuses(RunSuites(suites, tags), agent, evaluator.env, callbackRaises))[Pass]
      ensures run.Failed() == multiset(RunStatuses(RunSuites(suites, tags), agent, evaluator.env, callbackRaises))[Fail]
      ensures var ss := RunSuites(suites, tags);
              run.AllPassed() <==> forall k, j :: 0 <= k < |ss| && 0 <= j < |ss[k].testCases| ==>
                                     SuiteCaseStatus(ss[k], j, agent, evaluator.env, callbackRaises) == Pass
    {
      run := new RunResult();
      var i := 0;
      while i < |suites|
        invariant 0 <= i <= |suites|
        invariant fresh(run) && Matches(run.suites, RunSuites(suites[..i], tags), agent, evaluator.env, callbackRaises)
      {
        RunOne(run, suites, agent, tags, callbackRaises, i);
        i := i + 1;
      }
      assert suites[..i] == suites;
      var ss := RunSuites(suites, tags);
      var sts := RunStatuses(ss, agent, evaluator.env, callbackRaises);
      TotalIsCaseCount(run.suites, ss, agent, evaluator.env, callbackRaises);
      SumCountOf(run.suites, ss, agent, evaluator.env, callbackRaises, Pass);
      SumCountOf(run.suites, ss, agent, evaluator.env, callbackRaises, Fail);
      AllPassCount(sts);
      RunStatusesAllPass(ss, agent, evaluator.env, callbackRaises);
    }
  }
}
