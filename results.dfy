/** Grades, metric values and the result hierarchy: one evaluation per test
    case, suites of evaluations, and a run of suites. */
module Results {
  import opened Wrappers
  import opened Seqs

  datatype GradeStatus = Pass | Fail | Error | Skip

  /** A value recorded in a grade's `expected` / `actual` slots for debugging. */
  datatype Shown =
    | Nothing
    | Text(text: string)
    | Texts(texts: seq<string>)
      /** A list of values that are not strings, each by its `repr`. */
    | Reprs(reprs: seq<string>)
    | Number(number: int)
    | Flag(flag: bool)

  /** The `details` dictionary of a grade. */
  datatype Details =
    | NoDetails
      /** A composite grader's `{"results": [...]}`. */
    | SubResults(results: seq<GradeResult>)
      /** A judge's `{"model": ..., "raw_response": ...}`. */
    | Judge(model: string, rawResponse: string)

  datatype GradeResult = GradeResult(
    graderName: string,
    status: GradeStatus,
    score: Option<real>,
    message: Option<string>,
    details: Details,
    expected: Shown,
    actual: Shown)
  {
    predicate Passed() { status == Pass }
  }

  function PassedResult(graderName: string, message: Option<string>): (g: GradeResult)
    ensures g.graderName == graderName && g.status == Pass && g.message == message
    ensures g.score == None && g.expected == Nothing && g.actual == Nothing
  {
    GradeResult(graderName, Pass, None, message, NoDetails, Nothing, Nothing)
  }

  /** A failing grade; it records what was expected and what was seen. */
  function FailedResult(graderName: string, message: string, expected: Shown, actual: Shown): (g: GradeResult)
    ensures g.graderName == graderName && g.status == Fail && g.message == Some(message)
    ensures g.expected == expected && g.actual == actual && g.score == None
  {
    GradeResult(graderName, Fail, None, Some(message), NoDetails, expected, actual)
  }

  function ErrorResult(graderName: string, message: string): (g: GradeResult)
    ensures g.graderName == graderName && g.status == Error && g.message == Some(message)
    ensures g.score == None && g.expected == Nothing && g.actual == Nothing
  {
    GradeResult(graderName, Error, None, Some(message), NoDetails, Nothing, Nothing)
  }

  /** The `details` dictionary of a metric value. */
  datatype MetricDetails =
    | NoMetricDetails
    | LlmCallsDetail(llmCalls: nat)
    | ToolsDetail(tools: seq<string>)
    | DiversityDetail(uniqueTools: nat, totalCalls: nat)
    | EfficiencyDetail(actualSteps: nat, maxSteps: Option<int>)
    | ErrorCountDetail(errorCount: nat, totalSteps: nat)

  datatype MetricResult = MetricResult(metricName: string, value: real, unit: Option<string>, details: MetricDetails)

  // ---------------------------------------------------------------------------
  // Folding grade statuses into an overall status
  // ---------------------------------------------------------------------------

  /** The overall status after one more grade (`add_grade`): ERROR absorbs,
      FAIL overrides anything but ERROR, PASS and SKIP change nothing. */
  function Fold(current: GradeStatus, next: GradeStatus): (r: GradeStatus)
    ensures r == Error <==> current == Error || next == Error
    ensures r == Fail <==> current != Error && (next == Fail || (current == Fail && next != Error))
    ensures (next == Pass || next == Skip) ==> r == current
  {
    if next == Error then Error
    else if next == Fail && current != Error then Fail
    else current
  }

  /** The status reached from `start` after the grades `gs`, in order. */
  function FoldAll(start: GradeStatus, gs: seq<GradeResult>): GradeStatus {
    if gs == [] then start else Fold(FoldAll(start, gs[..|gs| - 1]), gs[|gs| - 1].status)
  }

  /** Starting from PASS, the folded status is ERROR iff some grade erred, FAIL
      iff none erred and some failed, and PASS iff every grade passed or was skipped. */
  lemma {:induction false} FoldAllFromPass(gs: seq<GradeResult>)
    ensures FoldAll(Pass, gs) == Error <==> exists k :: 0 <= k < |gs| && gs[k].status == Error
    ensures FoldAll(Pass, gs) == Fail <==>
              (forall k :: 0 <= k < |gs| ==> gs[k].status != Error) && exists k :: 0 <= k < |gs| && gs[k].status == Fail
    ensures FoldAll(Pass, gs) == Pass <==> forall k :: 0 <= k < |gs| ==> gs[k].status in {Pass, Skip}
  {
    if gs != [] {
      var init := gs[..|gs| - 1];
      FoldAllFromPass(init);
      assert forall k :: 0 <= k < |init| ==> init[k] == gs[k];
    }
  }

  /** Once ERROR, always ERROR. */
  lemma {:induction false} FoldAllKeepsError(gs: seq<GradeResult>)
    ensures FoldAll(Error, gs) == Error
  {
    if gs != [] {
      FoldAllKeepsError(gs[..|gs| - 1]);
    }
  }

  lemma {:induction false} FoldAllAppend(start: GradeStatus, a: seq<GradeResult>, b: seq<GradeResult>)
    ensures FoldAll(start, a + b) == FoldAll(FoldAll(start, a), b)
    decreases |b|
  {
    if b == [] {
      assert a + b == a;
    } else {
      assert (a + b)[..|a + b| - 1] == a + b[..|b| - 1];
      FoldAllAppend(start, a, b[..|b| - 1]);
    }
  }

  /** The grades of `gs` whose status is `st`, in order. */
  function WithStatus(gs: seq<GradeResult>, st: GradeStatus): seq<GradeResult> {
    if gs == [] then []
    else (if gs[0].status == st then [gs[0]] else []) + WithStatus(gs[1..], st)
  }

  lemma {:induction false} WithStatusSpec(gs: seq<GradeResult>, st: GradeStatus)
    ensures forall g :: g in WithStatus(gs, st) <==> g in gs && g.status == st
    ensures Subsequence(WithStatus(gs, st), gs)
    ensures |WithStatus(gs, st)| <= |gs|
  {
    if gs != [] {
      WithStatusSpec(gs[1..], st);
      assert gs == [gs[0]] + gs[1..];
      var rest := WithStatus(gs[1..], st);
      if gs[0].status == st {
        assert ([gs[0]] + rest)[1..] == rest;
      } else {
        assert WithStatus(gs, st) == rest;
        if rest != [] {
          assert rest[0] in rest;
          assert rest[0] != gs[0];
        }
      }
    }
  }

  /** `passed / total`, or 0.0 when `total` is 0. */
  function Ratio(passed: nat, total: nat): (r: real)
    requires passed <= total
    ensures 0.0 <= r <= 1.0
    ensures total == 0 ==> r == 0.0
    ensures total > 0 ==> r * (total as real) == passed as real
    ensures total > 0 ==> (r == 1.0 <==> passed == total)
  {
    if total == 0 then 0.0 else (passed as real) / (total as real)
  }

  lemma {:induction false} WithStatusLength(gs: seq<GradeResult>, st: GradeStatus)
    ensures |WithStatus(gs, st)| <= |gs|
  {
    if gs != [] {
      WithStatusLength(gs[1..], st);
    }
  }

  /** `passed / len(grades)`, or 0.0 with no grades. */
  function GradePassRate(gs: seq<GradeResult>): (r: real)
    ensures 0.0 <= r <= 1.0
    ensures gs == [] ==> r == 0.0
    ensures gs != [] ==> r * (|gs| as real) == |WithStatus(gs, Pass)| as real
  {
    WithStatusLength(gs, Pass);
    Ratio(|WithStatus(gs, Pass)|, |gs|)
  }

  // ---------------------------------------------------------------------------
  // Multi-turn results
  // ---------------------------------------------------------------------------

  /** The outcome of one turn of a conversation. */
  datatype TurnResult = TurnResult(
    turnIndex: nat,
    userInput: string,
    status: GradeStatus,
    traceId: Option<string>,
    skipped: bool,
    grades: seq<GradeResult>)
  {
    predicate Passed() { status == Pass }
  }

  // ---------------------------------------------------------------------------
  // Evaluation of one test case
  // ---------------------------------------------------------------------------

  class EvaluationResult {
    var testCaseName: string
    var status: GradeStatus
    var grades: seq<GradeResult>
    var metrics: seq<MetricResult>
    var turnResults: seq<TurnResult>
    var traceId: Option<string>
    var error: Option<string>

    constructor (testCaseName: string, status: GradeStatus, traceId: Option<string>, error: Option<string>)
      ensures this.testCaseName == testCaseName && this.status == status
      ensures grades == [] && metrics == [] && turnResults == []
      ensures this.traceId == traceId && this.error == error
    {
      this.testCaseName := testCaseName;
      this.status := status;
      grades := [];
      metrics := [];
      turnResults := [];
      this.traceId := traceId;
      this.error := error;
    }

    predicate Passed()
      reads this
    {
      status == Pass
    }

    /** `failed_grades`: exactly the FAIL grades, in their original order. */
    function FailedGrades(): (r: seq<GradeResult>)
      reads this
      ensures forall g :: g in r <==> g in grades && g.status == Fail
      ensures Subsequence(r, grades)
    {
      WithStatusSpec(grades, Fail);
      WithStatus(grades, Fail)
    }

    /** `pass_rate` across the grades. */
    function PassRate(): (r: real)
      reads this
      ensures 0.0 <= r <= 1.0
      ensures grades == [] ==> r == 0.0
    {
      GradePassRate(grades)
    }

    /** `add_grade`: append, then fold the grade's status into the overall one. */
    method AddGrade(grade: GradeResult)
      modifies this
      ensures grades == old(grades) + [grade]
      ensures status == Fold(old(status), grade.status)
      ensures testCaseName == old(testCaseName) && metrics == old(metrics) && turnResults == old(turnResults)
      ensures traceId == old(traceId) && error == old(error)
    {
      grades := grades + [grade];
      if grade.status == Error {
        status := Error;
      } else if grade.status == Fail && status != Error {
        status := Fail;
      }
    }

    /** `add_metric`: append at the end. */
    method AddMetric(metric: MetricResult)
      modifies this
      ensures metrics == old(metrics) + [metric]
      ensures testCaseName == old(testCaseName) && status == old(status) && grades == old(grades)
      ensures turnResults == old(turnResults) && traceId == old(traceId) && error == old(error)
    {
      metrics := metrics + [metric];
    }

    /** `add_turn_result`, whose definition is not part of this model: it is
        taken to record the turn and fold the turn's grades and status into
        the evaluation as `add_grade` does. */
    method AddTurnResult(turn: TurnResult)
      modifies this
      ensures turnResults == old(turnResults) + [turn]
      ensures grades == old(grades) + turn.grades
      ensures status == Fold(old(status), turn.status)
      ensures testCaseName == old(testCaseName) && metrics == old(metrics)
      ensures traceId == old(traceId) && error == old(error)
    {
      turnResults := turnResults + [turn];
      grades := grades + turn.grades;
      status := Fold(status, turn.status);
    }
  }

  /** How many of `rs` have status `st`. */
  function CountStatus(rs: seq<EvaluationResult>, st: GradeStatus): (n: nat)
    reads rs
    ensures n <= |rs|
  {
    if rs == [] then 0 else CountStatus(rs[..|rs| - 1], st) + (if rs[|rs| - 1].status == st then 1 else 0)
  }

  lemma {:induction false} CountStatusSum(rs: seq<EvaluationResult>)
    ensures CountStatus(rs, Pass) + CountStatus(rs, Fail) + CountStatus(rs, Error) + CountStatus(rs, Skip) == |rs|
  {
    if rs != [] {
      CountStatusSum(rs[..|rs| - 1]);
    }
  }

  lemma {:induction false} CountStatusAppend(rs: seq<EvaluationResult>, r: EvaluationResult, st: GradeStatus)
    ensures CountStatus(rs + [r], st) == CountStatus(rs, st) + (if r.status == st then 1 else 0)
  {
    assert (rs + [r])[..|rs + [r]| - 1] == rs;
  }

  // ---------------------------------------------------------------------------
  // Suites
  // ---------------------------------------------------------------------------

  class SuiteResult {
    var suiteName: string
    var results: seq<EvaluationResult>

    constructor (suiteName: string)
      ensures this.suiteName == suiteName && results == []
    {
      this.suiteName := suiteName;
      results := [];
    }

    function Total(): nat
      reads this
    {
      |results|
    }

    function Passed(): nat
      reads this, results
    {
      CountStatus(results, Pass)
    }

    function Failed(): nat
      reads this, results
    {
      CountStatus(results, Fail)
    }

    function Errors(): nat
      reads this, results
    {
      CountStatus(results, Error)
    }

    /** The passed, failed and errored results never outnumber the results. */
    lemma CountsBounded()
      ensures Passed() + Failed() + Errors() <= Total()
    {
      CountStatusSum(results);
    }

    function PassRate(): (r: real)
      reads this, results
      ensures 0.0 <= r <= 1.0
      ensures results == [] ==> r == 0.0
      ensures results != [] ==> r * (Total() as real) == Passed() as real
    {
      Ratio(Passed(), Total())
    }

    /** `add_result`: append at the end; earlier results keep their order. */
    method AddResult(result: EvaluationResult)
      modifies this
      ensures results == old(results) + [result]
      ensures suiteName == old(suiteName)
    {
      results := results + [result];
    }
  }

  // ---------------------------------------------------------------------------
  // Runs
  // ---------------------------------------------------------------------------

  /** Every evaluation held by the given suites. */
  ghost function SuiteFootprint(ss: seq<SuiteResult>): set<object>
    reads ss
  {
    set s, r | s in ss && r in s.results :: r
  }

  function SumTotal(ss: seq<SuiteResult>): nat
    reads ss
  {
    if ss == [] then 0 else SumTotal(ss[..|ss| - 1]) + ss[|ss| - 1].Total()
  }

  function SumCount(ss: seq<SuiteResult>, st: GradeStatus): nat
    reads ss, SuiteFootprint(ss)
  {
    if ss == [] then 0
    else
      var init := ss[..|ss| - 1];
      assert SuiteFootprint(init) <= SuiteFootprint(ss) by {
        forall o | o in SuiteFootprint(init) ensures o in SuiteFootprint(ss) {
          var s, r :| s in init && r in s.results && o == r;
          assert s in ss;
        }
      }
      var last := ss[|ss| - 1];
      assert forall r | r in last.results :: r in SuiteFootprint(ss);
      SumCount(init, st) + CountStatus(last.results, st)
  }

  lemma {:induction false} SumCountBounded(ss: seq<SuiteResult>)
    ensures SumCount(ss, Pass) + SumCount(ss, Fail) <= SumTotal(ss)
  {
    if ss != [] {
      SumCountBounded(ss[..|ss| - 1]);
      CountStatusSum(ss[|ss| - 1].results);
    }
  }

  /** `r` is `part / whole`, and 0.0 when `whole` is 0. */
  ghost predicate IsRatio(r: real, part: nat, whole: nat) {
    (whole == 0 ==> r == 0.0) && (whole > 0 ==> r * (whole as real) == part as real)
  }

  lemma RatioIsRatio(part: nat, whole: nat)
    requires part <= whole
    ensures IsRatio(Ratio(part, whole), part, whole)
  {
  }

  /** Passed cases per case across the given suites, or 0.0 without cases. */
  function SumPassRate(ss: seq<SuiteResult>): (r: real)
    reads ss, SuiteFootprint(ss)
    ensures 0.0 <= r <= 1.0
    ensures IsRatio(r, SumCount(ss, Pass), SumTotal(ss))
  {
    var passed, total := SumCount(ss, Pass), SumTotal(ss);
    SumCountBounded(ss);
    assert passed <= total;
    RatioIsRatio(passed, total);
    Ratio(passed, total)
  }

  class RunResult {
    var suites: seq<SuiteResult>

    constructor ()
      ensures suites == []
    {
      suites := [];
    }

    /** Test cases across all suites. */
    function Total(): nat
      reads this, suites
    {
      SumTotal(suites)
    }

    function Passed(): nat
      reads this, suites, SuiteFootprint(suites)
    {
      SumCount(suites, Pass)
    }

    function Failed(): nat
      reads this, suites, SuiteFootprint(suites)
    {
      SumCount(suites, Fail)
    }

    /** The passed and failed cases never outnumber all cases. */
    lemma CountsBounded()
      ensures Passed() + Failed() <= Total()
    {
      SumCountBounded(suites);
    }

    function PassRate(): (r: real)
      reads this, suites, SuiteFootprint(suites)
      ensures 0.0 <= r <= 1.0
      ensures IsRatio(r, Passed(), Total())
    {
      SumPassRate(suites)
    }

    /** `all_passed`: every case passed; true for a run without cases. */
    function AllPassed(): (b: bool)
      reads this, suites, SuiteFootprint(suites)
      ensures Total() == 0 ==> b
      ensures b <==> Passed() == Total()
    {
      SumCountBounded(suites);
      Passed() == Total()
    }

    /** `add_suite`: append at the end; earlier suites keep their order. */
    method AddSuite(suite: SuiteResult)
      modifies this
      ensures suites == old(suites) + [suite]
      ensures Total() == old(Total()) + suite.Total()
    {
      suites := suites + [suite];
      assert suites[..|suites| - 1] == old(suites);
    }
  }
}
