/** Every kind of grader the engine knows, one grading entry point over all of
    them, and the composite grader that combines sub-graders with "all must
    pass" or "any may pass". */
module Graders {
  import opened Wrappers
  import opened Text
  import opened Traces
  import opened Results
  import opened TestCases
  import opened CodeGraders
  import opened JudgeGraders

  /** What the judge grader needs from its surroundings: the template
      expansion and the model call. */
  datatype JudgeEnv = JudgeEnv(
    format: (string, PromptFields) -> Result<string>,
    ask: (string, string, string) -> Result<string>)

  datatype Grader =
    | Contains(contains: ContainsGrader)
    | NotContains(notContains: NotContainsGrader)
    | Equals(equals: EqualsGrader)
    | ToolCalled(toolCalled: ToolCalledGrader)
    | ToolNotCalled(toolNotCalled: ToolNotCalledGrader)
    | ToolOrder(toolOrder: ToolOrderGrader)
    | Bound(bound: BoundGrader)
    | TaskCompleted(taskCompleted: TaskCompletedGrader)
    | Llm(judge: JudgeConfig)
    | Composite(graders: seq<Grader>, requireAll: bool)
      /** A grader written by the user: its `name` and what its `grade` does,
          raising or not. */
    | Plugin(pluginName: string, run: (TraceData, EvalCase) -> Result<GradeResult>)
  {
    /** Its `name` attribute. */
    function Name(): string {
      match this
      case Contains(_) => "contains"
      case NotContains(_) => "not_contains"
      case Equals(_) => "equals"
      case ToolCalled(_) => "tool_called"
      case ToolNotCalled(_) => "tool_not_called"
      case ToolOrder(_) => "tool_order"
      case Bound(b) => CountedName(b.counted)
      case TaskCompleted(_) => "task_completed"
      case Llm(_) => "llm"
      case Composite(_, _) => "composite"
      case Plugin(n, _) => n
    }
  }

  // ---------------------------------------------------------------------------
  // Combining sub-results
  // ---------------------------------------------------------------------------

  /** `sum(1 for r in results if r.passed)`. */
  function PassedCount(results: seq<GradeResult>): (n: nat)
    ensures n <= |results|
  {
    if results == [] then 0
    else PassedCount(results[..|results| - 1]) + (if results[|results| - 1].Passed() then 1 else 0)
  }

  /** Every result passed exactly when all of them count as passed. */
  lemma {:induction false} PassedCountAll(results: seq<GradeResult>)
    ensures PassedCount(results) == |results| <==> forall k :: 0 <= k < |results| ==> results[k].Passed()
  {
    if results != [] {
      var init := results[..|results| - 1];
      PassedCountAll(init);
      assert forall k :: 0 <= k < |init| ==> init[k] == results[k];
    }
  }

  /** Some result passed exactly when the count is positive. */
  lemma {:induction false} PassedCountAny(results: seq<GradeResult>)
    ensures PassedCount(results) > 0 <==> exists k :: 0 <= k < |results| && results[k].Passed()
  {
    if results != [] {
      var init := results[..|results| - 1];
      PassedCountAny(init);
      assert forall k :: 0 <= k < |init| ==> init[k] == results[k];
    }
  }

  /** `CompositeGrader._combine_results`. */
  function Combine(results: seq<GradeResult>, requireAll: bool): (g: GradeResult)
    ensures g.graderName == "composite" && g.status in {Pass, Fail}
    ensures g.details == SubResults(results)
    ensures requireAll ==> (g.status == Pass <==> PassedCount(results) == |results|)
    ensures !requireAll ==> (g.status == Pass <==> PassedCount(results) > 0)
  {
    var passed := PassedCount(results);
    var total := |results|;
    var counts := NatToString(passed) + "/" + NatToString(total) + " graders passed";
    if requireAll then
      GradeResult("composite", if passed == total then Pass else Fail, None, Some(counts),
                  SubResults(results), Nothing, Nothing)
    else
      GradeResult("composite", if passed > 0 then Pass else Fail, None, Some(counts + " (require any)"),
                  SubResults(results), Nothing, Nothing)
  }

  /** All-of passes exactly when every sub-result passed (so with none it
      passes); any-of exactly when some sub-result passed (so with none it fails). */
  lemma CombineIff(results: seq<GradeResult>)
    ensures Combine(results, true).status == Pass <==> forall k :: 0 <= k < |results| ==> results[k].Passed()
    ensures Combine(results, false).status == Pass <==> exists k :: 0 <= k < |results| && results[k].Passed()
    ensures results == [] ==> Combine(results, true).status == Pass && Combine(results, false).status == Fail
  {
    PassedCountAll(results);
    PassedCountAny(results);
  }

  // ---------------------------------------------------------------------------
  // Grading
  // ---------------------------------------------------------------------------

  /** `grader.grade(trace, test_case)`; an exception is `Raised`. */
  function Grade(g: Grader, trace: TraceData, tc: EvalCase, env: JudgeEnv): (r: Result<GradeResult>)
    ensures r.Raised? ==> g.Contains? || g.ToolCalled? || g.Composite? || g.Plugin?
    ensures r.Ok? && !(g.Bound? || g.Llm? || g.Plugin?) ==> r.value.status in {Pass, Fail}
    ensures g.Composite? && r.Ok? ==> r.value.graderName == "composite"
    decreases g, 1
  {
    match g
    case Contains(c) => ContainsGrade(c, trace, tc)
    case NotContains(c) => Ok(NotContainsGrade(c, trace, tc))
    case Equals(e) => Ok(EqualsGrade(e, trace, tc))
    case ToolCalled(t) => ToolCalledGrade(t, trace, tc)
    case ToolNotCalled(t) => Ok(ToolNotCalledGrade(t, trace, tc))
    case ToolOrder(t) => Ok(ToolOrderGrade(t, trace, tc))
    case Bound(b) => Ok(BoundGrade(b, trace, tc))
    case TaskCompleted(t) => Ok(TaskCompletedGrade(t, trace, tc))
    case Llm(j) => Ok(JudgeGrade(j, trace, tc, env.format, env.ask))
    case Composite(gs, all) =>
      var results :- GradeEach(g, 0, trace, tc, env);
      Ok(Combine(results, all))
    case Plugin(_, run) => run(trace, tc)
  }

  /** The sub-graders of a composite from index `k` on, in order; the first
      exception propagates. */
  function GradeEach(g: Grader, k: nat, trace: TraceData, tc: EvalCase, env: JudgeEnv): (r: Result<seq<GradeResult>>)
    requires g.Composite? && k <= |g.graders|
    ensures r.Ok? ==> |r.value| == |g.graders| - k
    decreases g, 0, |g.graders| - k
  {
    if k == |g.graders| then Ok([])
    else
      var first :- Grade(g.graders[k], trace, tc, env);
      var rest :- GradeEach(g, k + 1, trace, tc, env);
      Ok([first] + rest)
  }

  /** Synchronously, the composite's sub-grading raises exactly when one of
      its remaining sub-graders raises. */
  lemma {:induction false} GradeEachRaises(g: Grader, k: nat, trace: TraceData, tc: EvalCase, env: JudgeEnv)
    requires g.Composite? && k <= |g.graders|
    ensures GradeEach(g, k, trace, tc, env).Raised? <==>
              exists i :: k <= i < |g.graders| && Grade(g.graders[i], trace, tc, env).Raised?
    decreases |g.graders| - k
  {
    if k < |g.graders| {
      GradeEachRaises(g, k + 1, trace, tc, env);
      var first := Grade(g.graders[k], trace, tc, env);
      var rest := GradeEach(g, k + 1, trace, tc, env);
      if first.Raised? {
        assert GradeEach(g, k, trace, tc, env).Raised?;
      } else if rest.Raised? {
        assert GradeEach(g, k, trace, tc, env).Raised?;
      } else {
        assert GradeEach(g, k, trace, tc, env).Ok?;
        forall i | k <= i < |g.graders|
          ensures !Grade(g.graders[i], trace, tc, env).Raised?
        {
          if i == k {
            assert !first.Raised?;
          }
        }
      }
    }
  }

  /** A grader's result, or an ERROR result naming it when it raised. */
  function Isolated(g: Grader, r: Result<GradeResult>): (res: GradeResult)
    ensures r.Ok? ==> res == r.value
    ensures r.Raised? ==> res == ErrorResult(g.Name(), "Grader error: " + r.message)
  {
    if r.Ok? then r.value else ErrorResult(g.Name(), "Grader error: " + r.message)
  }

  /** `grader.grade_async(trace, test_case)`: as `grade`, except that a
      composite runs every sub-grader and turns a sub-grader's exception into
      an ERROR result at that grader's index. */
  function GradeAsync(g: Grader, trace: TraceData, tc: EvalCase, env: JudgeEnv): (r: Result<GradeResult>)
    ensures r.Raised? ==> g.Contains? || g.ToolCalled? || g.Plugin?
    ensures g.Composite? ==> r.Ok? && r.value.graderName == "composite" && r.value.status in {Pass, Fail}
    ensures !g.Composite? ==> r == Grade(g, trace, tc, env)
    decreases g, 1
  {
    if g.Composite? then Ok(Combine(GradeEachIsolated(g, 0, trace, tc, env), g.requireAll))
    else Grade(g, trace, tc, env)
  }

  /** The sub-results of a composite from index `k` on, exceptions isolated. */
  function GradeEachIsolated(g: Grader, k: nat, trace: TraceData, tc: EvalCase, env: JudgeEnv): (rs: seq<GradeResult>)
    requires g.Composite? && k <= |g.graders|
    ensures |rs| == |g.graders| - k
    decreases g, 0, |g.graders| - k
  {
    if k == |g.graders| then []
    else
      [Isolated(g.graders[k], GradeAsync(g.graders[k], trace, tc, env))] + GradeEachIsolated(g, k + 1, trace, tc, env)
  }

  /** The isolated sub-result at each index is that sub-grader's own result,
      or an ERROR naming it when it raised. */
  lemma {:induction false} GradeEachIsolatedAt(g: Grader, k: nat, trace: TraceData, tc: EvalCase, env: JudgeEnv, i: nat)
    requires g.Composite? && k <= i < |g.graders|
    ensures GradeEachIsolated(g, k, trace, tc, env)[i - k] == Isolated(g.graders[i], GradeAsync(g.graders[i], trace, tc, env))
    decreases |g.graders| - k
  {
    var rest := GradeEachIsolated(g, k + 1, trace, tc, env);
    var head := Isolated(g.graders[k], GradeAsync(g.graders[k], trace, tc, env));
    assert GradeEachIsolated(g, k, trace, tc, env) == [head] + rest;
    if k < i {
      GradeEachIsolatedAt(g, k + 1, trace, tc, env, i);
      assert ([head] + rest)[i - k] == rest[i - k - 1];
    } else {
      assert ([head] + rest)[0] == head;
    }
  }

  /** A composite graded asynchronously never raises, keeps one sub-result per
      sub-grader in order (an exception turned into an ERROR result), and
      only ever passes or fails. */
  lemma GradeAsyncCompositeTotal(gs: seq<Grader>, requireAll: bool, trace: TraceData, tc: EvalCase, env: JudgeEnv)
    ensures var r := GradeAsync(Composite(gs, requireAll), trace, tc, env);
            r.Ok? && r.value.status in {Pass, Fail} && r.value.details.SubResults?
            && |r.value.details.results| == |gs|
            && forall i :: 0 <= i < |gs| ==> r.value.details.results[i] == Isolated(gs[i], GradeAsync(gs[i], trace, tc, env))
  {
    var g := Composite(gs, requireAll);
    forall i | 0 <= i < |gs|
      ensures GradeEachIsolated(g, 0, trace, tc, env)[i] == Isolated(gs[i], GradeAsync(gs[i], trace, tc, env))
    {
      GradeEachIsolatedAt(g, 0, trace, tc, env, i);
    }
  }

  /** Synchronously, a composite of graders that do not raise keeps each sub-result in order. */
  lemma {:induction false} GradeEachAt(g: Grader, k: nat, trace: TraceData, tc: EvalCase, env: JudgeEnv, i: nat)
    requires g.Composite? && k <= i < |g.graders|
    requires GradeEach(g, k, trace, tc, env).Ok?
    ensures Grade(g.graders[i], trace, tc, env).Ok?
    ensures GradeEach(g, k, trace, tc, env).value[i - k] == Grade(g.graders[i], trace, tc, env).value
    decreases |g.graders| - k
  {
    var first := Grade(g.graders[k], trace, tc, env);
    var rest := GradeEach(g, k + 1, trace, tc, env);
    assert first.Ok? && rest.Ok?;
    assert GradeEach(g, k, trace, tc, env).value == [first.value] + rest.value;
    if k < i {
      GradeEachAt(g, k + 1, trace, tc, env, i);
    }
  }

  /** After the sub-results `done` of the first `i` sub-graders, the rest of
      `GradeEach` completes the whole, or its exception is the whole's. */
  ghost predicate EachFrom(g: Grader, i: nat, trace: TraceData, tc: EvalCase, env: JudgeEnv, done: seq<GradeResult>)
    requires g.Composite? && i <= |g.graders|
  {
    var rest := GradeEach(g, i, trace, tc, env);
    GradeEach(g, 0, trace, tc, env) == if rest.Ok? then Ok(done + rest.value) else rest
  }

  lemma EachFromStart(g: Grader, trace: TraceData, tc: EvalCase, env: JudgeEnv)
    requires g.Composite?
    ensures EachFrom(g, 0, trace, tc, env, [])
  {
    var all := GradeEach(g, 0, trace, tc, env);
    if all.Ok? {
      assert [] + all.value == all.value;
    }
  }

  /** One more sub-grader: its exception is the composite's, or its result joins `done`. */
  lemma EachFromStep(g: Grader, i: nat, trace: TraceData, tc: EvalCase, env: JudgeEnv, done: seq<GradeResult>)
    requires g.Composite? && i < |g.graders| && EachFrom(g, i, trace, tc, env, done)
    ensures var sub := Grade(g.graders[i], trace, tc, env);
            (sub.Raised? ==> GradeEach(g, 0, trace, tc, env) == Raised(sub.message))
            && (sub.Ok? ==> EachFrom(g, i + 1, trace, tc, env, done + [sub.value]))
  {
    var sub := Grade(g.graders[i], trace, tc, env);
    var rest := GradeEach(g, i + 1, trace, tc, env);
    if sub.Ok? && rest.Ok? {
      assert GradeEach(g, i, trace, tc, env) == Ok([sub.value] + rest.value);
      assert done + ([sub.value] + rest.value) == (done + [sub.value]) + rest.value;
    }
  }

  lemma EachFromEnd(g: Grader, trace: TraceData, tc: EvalCase, env: JudgeEnv, done: seq<GradeResult>)
    requires g.Composite? && EachFrom(g, |g.graders|, trace, tc, env, done)
    ensures GradeEach(g, 0, trace, tc, env) == Ok(done)
  {
    assert done + [] == done;
  }

  /** `CompositeGrader.grade`: the sub-graders one after another, in list order. */
  method GradeComposite(gs: seq<Grader>, requireAll: bool, trace: TraceData, tc: EvalCase, env: JudgeEnv)
    returns (r: Result<GradeResult>)
    ensures r == Grade(Composite(gs, requireAll), trace, tc, env)
  {
    ghost var g := Composite(gs, requireAll);
    var results: seq<GradeResult> := [];
    var i := 0;
    EachFromStart(g, trace, tc, env);
    while i < |gs|
      invariant 0 <= i <= |gs|
      invariant EachFrom(g, i, trace, tc, env, results)
    {
      var sub := Grade(gs[i], trace, tc, env);
      EachFromStep(g, i, trace, tc, env, results);
      if sub.Raised? {
        return Raised(sub.message);
      }
      results := results + [sub.value];
      i := i + 1;
    }
    EachFromEnd(g, trace, tc, env, results);
    r := Ok(Combine(results, requireAll));
  }
}
