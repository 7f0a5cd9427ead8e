/** The model-as-judge grader: its configuration, the trace summary it puts
    into the prompt, and the grammar by which a judge's free-text reply is
    read as a verdict, a reason and an optional score. The judge itself (the
    prompt templating and the API call) is a parameter. */
module JudgeGraders {
  import opened Wrappers
  import opened Text
  import opened Traces
  import opened Results
  import opened TestCases

  const DefaultPrompt: string :=
    "You are evaluating an AI agent's response.\n\n"
    + "User Input: {input}\nAgent Output: {output}\n\n"
    + "Task: {task}\n\n"
    + "Evaluate whether the agent's response meets the requirements.\n"
    + "Respond with exactly one of: PASS or FAIL\n"
    + "Then provide a brief explanation.\n\n"
    + "Format:\nVERDICT: PASS or FAIL\nREASON: Your explanation\n"

  const DefaultModel: string := "gpt-4o-mini"

  const DefaultTask: string := "Determine if the agent completed the task correctly."

  /** `_detect_provider`. */
  function DetectProvider(model: string): (p: string)
    ensures p == "anthropic" <==> StartsWith(model, "claude")
    ensures p == "openai" <==> !StartsWith(model, "claude")
  {
    if StartsWith(model, "claude") then "anthropic" else "openai"
  }

  datatype JudgeConfig = JudgeConfig(
    promptTemplate: string,
    model: string,
    provider: string,
    threshold: Option<real>,
    task: string)

  /** `LLMGrader(prompt, model, provider, threshold=..., task=...)`: an absent
      or empty prompt, provider or task falls back to its default. */
  function NewJudge(prompt: Option<string>, model: string, provider: Option<string>,
                    threshold: Option<real>, task: Option<string>): (j: JudgeConfig)
    ensures j.promptTemplate != "" && j.task != "" && j.provider != ""
    ensures prompt.Some? && prompt.value != "" ==> j.promptTemplate == prompt.value
    ensures provider.None? || provider.value == "" ==> j.provider == DetectProvider(model)
    ensures j.model == model && j.threshold == threshold
  {
    JudgeConfig(
      if prompt.Some? && prompt.value != "" then prompt.value else DefaultPrompt,
      model,
      if provider.Some? && provider.value != "" then provider.value else DetectProvider(model),
      threshold,
      if task.Some? && task.value != "" then task.value else DefaultTask)
  }

  // ---------------------------------------------------------------------------
  // Trace summary
  // ---------------------------------------------------------------------------

  /** `str(x)` of an optional string (None renders as "None"). */
  function OptText(s: Option<string>): string {
    if s.Some? then s.value else "None"
  }

  function OptPayload(p: Option<Payload>): string {
    if p.Some? then p.value.shown else "None"
  }

  /** The summary lines of the step numbered `n` (1-based). */
  function StepLines(n: nat, s: Step): (lines: seq<string>)
    ensures s.stepType == HumanInput <==> lines == []
    ensures |lines| <= 2
    ensures lines != [] ==> StartsWith(lines[0], "  " + NatToString(n) + ". ")
  {
    var tag := "  " + NatToString(n) + ". ";
    match s.stepType
    case ToolCall =>
      [tag + "Tool: " + OptText(s.toolName) + "(" + OptPayload(s.toolArgs) + ")"]
      + (if s.toolResult.Some? && s.toolResult.value.truthy
         then ["      Result: " + Take(s.toolResult.value.shown, 200)] else [])
    case LlmCall => [tag + "LLM: " + Take(s.output.GetOr(""), 100) + "..."]
    case Reasoning => [tag + "Reasoning: " + Take(s.reasoningText.GetOr(""), 100) + "..."]
    case HumanInput => []
  }

  /** The lines for `steps`, numbered from 1 in step order. */
  function SummaryLines(steps: seq<Step>): seq<string> {
    if steps == [] then [] else SummaryLines(steps[..|steps| - 1]) + StepLines(|steps|, steps[|steps| - 1])
  }

  /** Every step except a human-input one contributes a line numbered with its
      1-based position, so human-input steps leave gaps in the numbering. */
  lemma {:induction false} SummaryHasLineFor(steps: seq<Step>, k: nat)
    requires k < |steps| && steps[k].stepType != HumanInput
    ensures StepLines(k + 1, steps[k])[0] in SummaryLines(steps)
  {
    var init := steps[..|steps| - 1];
    if k < |steps| - 1 {
      assert init[k] == steps[k];
      SummaryHasLineFor(init, k);
    }
  }

  /** At most two lines per step. */
  lemma {:induction false} SummaryLength(steps: seq<Step>)
    ensures |SummaryLines(steps)| <= 2 * |steps|
  {
    if steps != [] {
      SummaryLength(steps[..|steps| - 1]);
    }
  }

  /** `_build_trace_summary`. */
  method BuildTraceSummary(steps: seq<Step>) returns (summary: string)
    ensures summary == Join("\n", ["Execution Trace:"] + SummaryLines(steps))
  {
    var lines := [];
    var i := 0;
    while i < |steps|
      invariant 0 <= i <= |steps|
      invariant lines == SummaryLines(steps[..i])
    {
      assert steps[..i + 1][..i] == steps[..i];
      var n := i + 1;
      var step := steps[i];
      var tag := "  " + NatToString(n) + ". ";
      assert SummaryLines(steps[..i + 1]) == lines + StepLines(n, step);
      ghost var before := lines;
      match step.stepType {
        case ToolCall =>
          lines := lines + [tag + "Tool: " + OptText(step.toolName) + "(" + OptPayload(step.toolArgs) + ")"];
          if step.toolResult.Some? && step.toolResult.value.truthy {
            lines := lines + ["      Result: " + Take(step.toolResult.value.shown, 200)];
          }
          assert lines == before + StepLines(n, step);
        case LlmCall =>
          lines := lines + [tag + "LLM: " + Take(step.output.GetOr(""), 100) + "..."];
        case Reasoning =>
          lines := lines + [tag + "Reasoning: " + Take(step.reasoningText.GetOr(""), 100) + "..."];
        case HumanInput =>
      }
      i := i + 1;
    }
    assert steps[..i] == steps;
    summary := Join("\n", ["Execution Trace:"] + lines);
  }

  // ---------------------------------------------------------------------------
  // Reading a judge's reply
  // ---------------------------------------------------------------------------

  /** The first position in `lo..hi` where `p` holds, if any (`re.search`
      reports the leftmost match). */
  function Leftmost(p: nat -> bool, lo: nat, hi: nat): (r: Option<nat>)
    ensures r.Some? ==> lo <= r.value <= hi && p(r.value) && forall k :: lo <= k < r.value ==> !p(k)
    ensures r.None? ==> forall k :: lo <= k <= hi ==> !p(k)
    decreases hi - lo + 1
  {
    if lo > hi then None
    else if p(lo) then Some(lo)
    else Leftmost(p, lo + 1, hi)
  }

  /** A position where `p` holds with no earlier one in range is the leftmost. */
  lemma {:induction false} LeftmostIs(p: nat -> bool, lo: nat, hi: nat, i: nat)
    requires lo <= i <= hi && p(i)
    requires forall k :: lo <= k < i ==> !p(k)
    ensures Leftmost(p, lo, hi) == Some(i)
    decreases i - lo
  {
    if lo < i {
      LeftmostIs(p, lo + 1, hi, i);
    }
  }

  /** The end of the whitespace run starting at `j` (`\s*`). */
  function SkipSpace(s: string, j: nat): (k: nat)
    requires j <= |s|
    ensures j <= k <= |s| && (k == |s| || !IsSpace(s[k]))
    ensures forall m :: j <= m < k ==> IsSpace(s[m])
    decreases |s| - j
  {
    if j == |s| || !IsSpace(s[j]) then j else SkipSpace(s, j + 1)
  }

  /** The end of the ASCII digit run starting at `j` (`\d*`). */
  function SkipDigits(s: string, j: nat): (k: nat)
    requires j <= |s|
    ensures j <= k <= |s| && (k == |s| || !IsAsciiDigit(s[k]))
    ensures forall m :: j <= m < k ==> IsAsciiDigit(s[m])
    decreases |s| - j
  {
    if j == |s| || !IsAsciiDigit(s[j]) then j else SkipDigits(s, j + 1)
  }

  /** The verdict of `VERDICT:\s*(PASS|FAIL)` matched at `i` of the upper-cased reply. */
  function VerdictAt(u: string, i: nat): Option<GradeStatus> {
    if !OccursAt("VERDICT:", u, i) then None
    else
      var j := SkipSpace(u, i + 8);
      if OccursAt("PASS", u, j) then Some(Pass)
      else if OccursAt("FAIL", u, j) then Some(Fail)
      else None
  }

  /** Where the verdict pattern matches, as a predicate on positions. */
  function VerdictFound(u: string): nat -> bool {
    (i: nat) => VerdictAt(u, i).Some?
  }

  /** The verdict: an explicit `VERDICT:` line wins (the leftmost one);
      otherwise PASS when "PASS" occurs without "FAIL"; otherwise FAIL, even
      when the reply says neither. */
  function ParseVerdict(response: string): (v: GradeStatus)
    ensures v in {Pass, Fail}
  {
    var u := Upper(response);
    var at := Leftmost(VerdictFound(u), 0, |u|);
    if at.Some? then VerdictAt(u, at.value).value
    else if IsSubstring("PASS", u) && !IsSubstring("FAIL", u) then Pass
    else Fail
  }

  /** The leftmost explicit verdict decides. */
  lemma ParseVerdictExplicit(response: string, i: nat)
    requires i <= |Upper(response)| && VerdictAt(Upper(response), i).Some?
    requires forall k :: 0 <= k < i ==> VerdictAt(Upper(response), k).None?
    ensures ParseVerdict(response) == VerdictAt(Upper(response), i).value
  {
    var u := Upper(response);
    assert forall k :: 0 <= k < i ==> !VerdictFound(u)(k);
    LeftmostIs(VerdictFound(u), 0, |u|, i);
  }

  /** Without an explicit verdict the reply passes exactly when it says "PASS"
      and never "FAIL" (both upper-cased). */
  lemma ParseVerdictImplicit(response: string)
    requires forall k :: 0 <= k <= |Upper(response)| ==> VerdictAt(Upper(response), k).None?
    ensures ParseVerdict(response) == Pass <==>
              IsSubstring("PASS", Upper(response)) && !IsSubstring("FAIL", Upper(response))
  {
    var u := Upper(response);
    var at := Leftmost(VerdictFound(u), 0, |u|);
    assert at.None?;
  }

  /** How `re.IGNORECASE` matches a character of `REASON:`: equal after
      lower-casing, and the long s (U+017F) also matches `s`. */
  predicate FoldMatch(c: char, p: char) {
    LowerChar(c) == LowerChar(p) || (LowerChar(p) == 's' && c == '\U{17f}')
  }

  /** `REASON:\s*(.+)` (case-insensitive, `.` matching newlines) matches at `i`:
      the keyword occurs there and at least one character follows it. */
  predicate ReasonAt(r: string, i: nat) {
    i + 7 < |r| && forall k :: 0 <= k < 7 ==> FoldMatch(r[i + k], "REASON:"[k])
  }

  function ReasonFound(r: string): nat -> bool {
    (i: nat) => ReasonAt(r, i)
  }

  /** The reason: the stripped text after the leftmost `REASON:`, or else the
      first 200 characters of the reply. */
  function ParseReason(response: string): string {
    var at := Leftmost(ReasonFound(response), 0, |response|);
    if at.Some? then Strip(response[at.value + 7..]) else Take(response, 200)
  }

  /** After the leftmost `REASON:` the reason is the rest of the reply, stripped. */
  lemma ParseReasonFound(response: string, i: nat)
    requires ReasonAt(response, i)
    requires forall k :: 0 <= k < i ==> !ReasonAt(response, k)
    ensures ParseReason(response) == Strip(response[i + 7..])
  {
    var at := Leftmost(ReasonFound(response), 0, |response|);
    assert ReasonFound(response)(i);
    assert at.Some? && at.value <= i;
    assert !ReasonFound(response)(at.value) || at.value == i;
  }

  /** Without `REASON:` the reason is the first 200 characters. */
  lemma ParseReasonMissing(response: string)
    requires forall k :: 0 <= k <= |response| ==> !ReasonAt(response, k)
    ensures ParseReason(response) == Take(response, 200)
  {
    var at := Leftmost(ReasonFound(response), 0, |response|);
    assert at.None?;
  }

  function Pow10(n: nat): (p: nat)
    ensures p >= 1
  {
    if n == 0 then 1 else 10 * Pow10(n - 1)
  }

  /** The number `d.f` written with the digit strings `d` and `f`. */
  function DecimalValue(d: string, f: string): (x: real)
    requires AllDigits(d) && AllDigits(f)
    ensures x >= 0.0
  {
    DigitsValue(d) as real + DigitsValue(f) as real / Pow10(|f|) as real
  }

  /** The number of `SCORE:\s*(\d+(?:\.\d+)?)` matched at `i`. */
  function ScoreAt(r: string, i: nat): (x: Option<real>)
    ensures x.Some? ==> x.value >= 0.0
  {
    if !OccursAt("SCORE:", r, i) then None
    else
      var j := SkipSpace(r, i + 6);
      var k := SkipDigits(r, j);
      if k == j then None
      else if k + 1 < |r| && r[k] == '.' && IsAsciiDigit(r[k + 1]) then
        var e := SkipDigits(r, k + 1);
        Some(DecimalValue(r[j..k], r[k + 1..e]))
      else Some(DecimalValue(r[j..k], ""))
  }

  /** Scores above 1 are read as out of 10, or out of 100 above 10; nothing is clamped. */
  function Normalize(x: real): (y: real)
    ensures x <= 1.0 ==> y == x
    ensures 1.0 < x <= 10.0 ==> 0.1 < y <= 1.0 && y * 10.0 == x
    ensures 10.0 < x ==> 0.1 < y && y * 100.0 == x
    ensures 0.0 <= x <= 100.0 ==> 0.0 <= y <= 1.0
  {
    if x > 1.0 then (if x <= 10.0 then x / 10.0 else x / 100.0) else x
  }

  function ScoreFound(r: string): nat -> bool {
    (i: nat) => ScoreAt(r, i).Some?
  }

  /** The score: the normalised number after the leftmost case-sensitive `SCORE:`, if any. */
  function ParseScore(response: string): (score: Option<real>)
    ensures score.Some? ==> score.value >= 0.0
  {
    var at := Leftmost(ScoreFound(response), 0, |response|);
    if at.Some? then Some(Normalize(ScoreAt(response, at.value).value)) else None
  }

  /** The leftmost `SCORE:` with a number gives the score, normalised. */
  lemma ParseScoreFound(response: string, i: nat)
    requires i <= |response| && ScoreAt(response, i).Some?
    requires forall k :: 0 <= k < i ==> ScoreAt(response, k).None?
    ensures ParseScore(response) == Some(Normalize(ScoreAt(response, i).value))
  {
    assert forall k :: 0 <= k < i ==> !ScoreFound(response)(k);
    LeftmostIs(ScoreFound(response), 0, |response|, i);
  }

  /** Without a match there is no score. */
  lemma ParseScoreMissing(response: string)
    requires forall k :: 0 <= k <= |response| ==> ScoreAt(response, k).None?
    ensures ParseScore(response) == None
  {
    var at := Leftmost(ScoreFound(response), 0, |response|);
    assert at.None?;
  }

  /** `_build_result`: a threshold, when both it and a score are present,
      overrides the verdict and compares against the normalised score. */
  function BuildResult(j: JudgeConfig, response: string): (g: GradeResult)
    ensures g.graderName == "llm" && g.status in {Pass, Fail}
    ensures g.score == ParseScore(response) && g.message == Some(ParseReason(response))
    ensures g.details == Judge(j.model, response)
    ensures j.threshold.Some? && g.score.Some? ==> (g.status == Pass <==> g.score.value >= j.threshold.value)
    ensures j.threshold.None? || g.score.None? ==> g.status == ParseVerdict(response)
  {
    var score := ParseScore(response);
    var status :=
      if j.threshold.Some? && score.Some? then (if score.value >= j.threshold.value then Pass else Fail)
      else ParseVerdict(response);
    GradeResult("llm", status, score, Some(ParseReason(response)), Judge(j.model, response), Nothing, Nothing)
  }

  /** A reply with neither an explicit verdict, nor "PASS", is a failure, not an error. */
  lemma UnparseableIsFail(j: JudgeConfig, response: string)
    requires j.threshold.None?
    requires !IsSubstring("PASS", Upper(response))
    ensures BuildResult(j, response).status == Fail
  {
  }

  // ---------------------------------------------------------------------------
  // Grading
  // ---------------------------------------------------------------------------

  /** The values a prompt template may refer to. */
  datatype PromptFields = PromptFields(
    input: string, output: string, trace: string, task: string, testCaseName: string, expected: ExpectedBehavior)

  /** What `_format_prompt` hands to the template; an absent or empty output shows as "(no output)". */
  function FieldsOf(j: JudgeConfig, trace: TraceData, tc: EvalCase): PromptFields {
    PromptFields(trace.input, if trace.output.Some? && trace.output.value != "" then trace.output.value else "(no output)",
                 Join("\n", ["Execution Trace:"] + SummaryLines(trace.steps)), j.task, tc.name, tc.Expected())
  }

  /** `LLMGrader.grade`, given the template expansion (`str.format`, which may
      raise) and the judge (provider, model, prompt to reply, which may raise):
      any exception becomes an ERROR grade, and only an exception does. */
  function JudgeGrade(j: JudgeConfig, trace: TraceData, tc: EvalCase,
                      format: (string, PromptFields) -> Result<string>,
                      ask: (string, string, string) -> Result<string>): (g: GradeResult)
    ensures var prompt := format(j.promptTemplate, FieldsOf(j, trace, tc));
            (g.status == GradeStatus.Error <==> prompt.Raised? || ask(j.provider, j.model, prompt.value).Raised?)
            && (prompt.Raised? ==> g == ErrorResult("llm", "LLM grader error: " + prompt.message))
            && (prompt.Ok? && ask(j.provider, j.model, prompt.value).Raised? ==>
                  g == ErrorResult("llm", "LLM grader error: " + ask(j.provider, j.model, prompt.value).message))
            && (prompt.Ok? && ask(j.provider, j.model, prompt.value).Ok? ==>
                  g == BuildResult(j, ask(j.provider, j.model, prompt.value).value))
  {
    var prompt := format(j.promptTemplate, FieldsOf(j, trace, tc));
    if prompt.Raised? then ErrorResult("llm", "LLM grader error: " + prompt.message)
    else
      var reply := ask(j.provider, j.model, prompt.value);
      if reply.Raised? then ErrorResult("llm", "LLM grader error: " + reply.message)
      else BuildResult(j, reply.value)
  }
}
