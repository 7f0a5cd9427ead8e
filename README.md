# evaldeck grading and aggregation engine, in Dafny

evaldeck evaluates AI agents. An agent run produces a *trace*: an ordered
list of steps, where each step is an LLM call, a tool call, a reasoning note
or a human input. *Graders* judge a trace against a test case's expected
behaviour. *Metrics* measure it. An *evaluator* runs the graders and metrics
over every test case of a suite (one turn or several) and folds everything
into evaluation, suite and run results. An OpenTelemetry *span processor*
rebuilds traces from OpenInference spans.

This project models that engine and proves what each operation promises.
There is one module per source file:

| module | file | source |
|---|---|---|
| `Wrappers`, `Seqs`, `Text` | `wrappers.dfy`, `seqs.dfy`, `text.dfy` | support: `Result`/`Option`, subsequences, Python's string operations (`split`, `strip`, `lower`, `in`, `sorted`, `repr` of a list) |
| `Traces` | `trace.dfy` | `src/evaldeck/trace.py` |
| `Results` | `results.dfy` | `src/evaldeck/results.py` |
| `TestCases` | `test_case.dfy` | `src/evaldeck/test_case.py` |
| `CodeGraders` | `graders_code.dfy` | `src/evaldeck/graders/code.py` |
| `JudgeGraders` | `graders_llm.dfy` | `src/evaldeck/graders/llm.py` |
| `Graders` | `graders_base.dfy` | `src/evaldeck/graders/base.py`, plus the closed set of grader kinds |
| `Metrics` | `metrics.dfy` | `src/evaldeck/metrics/builtin.py` |
| `Evaluation` | `evaluator.dfy` | `src/evaldeck/evaluator.py` |
| `SpanRegistry` | `opentelemetry.dfy` | `src/evaldeck/integrations/opentelemetry.py` |

The model keeps the source's own form:
- Objects that the source updates in place are classes with `modifies`
  clauses: `Trace`, `EvaluationResult`, `SuiteResult`, `RunResult`,
  `Evaluator`, `EvaluationRunner` and `SpanProcessor`.
- Values are datatypes: steps, grade and metric results, test cases, spans.
- Loops are methods with invariants, proved equal to a specification
  function. Examples: the `missing`/`found` loops of the containment
  graders, the greedy tool-order scan, the trace summary, the list of graders
  build, the grading loop, the multi-turn loop, suite reassembly, the suite
  loop of `run_async` and the message-extraction loop.
- Pure code is functions and lemmas.

What the engine depends on but cannot compute is a parameter:
- the agent under test (`Agent`);
- the judge's prompt formatting and model call (`JudgeEnv`);
- user graders and metrics (a fixed behaviour function each);
- JSON decoding of span attributes;
- which `on_result` callbacks raise.

The source's exceptions are `Raised` values of a `Result` type. Each
`try`/`except` in the source becomes the matching branch on that value.

Some behaviours of the code that the model keeps:
- The judge reads an explicit `VERDICT:` first, and a reply with no verdict
  at all is FAIL, never ERROR (`src/evaldeck/graders/llm.py:204-216`).
- A grader configuration of unknown type is dropped without an error
  (`src/evaldeck/evaluator.py:178-180`).
- Tool diversity is 0.0 when there are no tool calls
  (`src/evaldeck/metrics/builtin.py:86-91`).
- A fresh `Trace` already has status SUCCESS (`src/evaldeck/trace.py:153`).

`TurnResult` and `EvaluationResult.add_turn_result` are not among the
sources. They are modelled as the multi-turn code and
`tests/test_evaluator.py:442-450` use them:
- a turn result has an index, the user input, a status, an optional trace
  id, a `skipped` flag and its grades;
- adding one appends it, appends its grades to the case's grades, and folds
  its status into the case status as `add_grade` does.

## Model

| member | source | states |
|---|---|---|
| Traces.NewLlmCall | src/evaldeck/trace.py:96-113 | `Step.llm_call` is an LLM_CALL step carrying the model, input, output and token usage it was given, no tool name, and the status, parent id, error and duration of its keyword options (SUCCESS and none by default) |
| Traces.NewToolCall | src/evaldeck/trace.py:115-130 | `Step.tool_call` is a TOOL_CALL step with the given name and result; absent or empty arguments become the empty argument map, other arguments are kept; status, parent id, error and duration come from its keyword options |
| Traces.NewReasoning | src/evaldeck/trace.py:132-139 | `Step.reasoning` is a REASONING step holding the text, with no tool name or tokens, and the status, parent id, error and duration of its keyword options |
| Traces.OfTypeMembers | src/evaldeck/trace.py:173-181 | `tool_calls` / `llm_calls` hold exactly the steps of that type |
| Traces.OfTypeOrdered | src/evaldeck/trace.py:173-181 | those projections keep trace order: each is a subsequence of the steps |
| Traces.OfTypeAppend | src/evaldeck/trace.py:173-181 | projecting a concatenation of step lists is concatenating the projections |
| Traces.NamesOfMembers | src/evaldeck/trace.py:183-186 | `tools_called` holds exactly the names of tool-call steps whose name is present and non-empty |
| Traces.ToolsCalledShorter | src/evaldeck/trace.py:183-186 | `tools_called` is no longer than `tool_calls` |
| Traces.ToolsCalledMembers | src/evaldeck/trace.py:183-186 | a name is called iff some TOOL_CALL step carries that non-empty name |
| Traces.ToolsCalledAppend | src/evaldeck/trace.py:183-186 | appending a step appends its name to `tools_called` exactly when it is a named tool call |
| Traces.TokenTotalAppend | src/evaldeck/trace.py:188-195 | `total_tokens` is additive over concatenated step lists |
| Traces.TokenTotalZero | src/evaldeck/trace.py:188-195 | `total_tokens` is 0 when no LLM call carries token usage |
| Traces.Trace.constructor | src/evaldeck/trace.py:142-171 | a new trace has the given id and input, no output, status SUCCESS, no steps and no duration |
| Traces.Trace.AddStep | src/evaldeck/trace.py:202-204 | `add_step` appends the step at the end and changes nothing else |
| Traces.Trace.Complete | src/evaldeck/trace.py:206-213 | `complete` sets the output, status and duration and keeps the id, input and steps |
| Traces.Trace.TotalTokens | src/evaldeck/trace.py:188-195 | the accumulating loop computes the sum of token totals over LLM calls with usage |
| Results.PassedResult | src/evaldeck/results.py:39-44 | `passed_result` is PASS with the given message and no score, expected or actual |
| Results.FailedResult | src/evaldeck/results.py:46-63 | `failed_result` is FAIL and records the message, expected and actual |
| Results.ErrorResult | src/evaldeck/results.py:65-68 | `error_result` is ERROR with the message |
| Results.Fold | src/evaldeck/results.py:115-122 | one status update: ERROR absorbs, FAIL beats everything but ERROR, PASS and SKIP leave the status as it was |
| Results.FoldAllFromPass | src/evaldeck/results.py:115-122 | folding grades from PASS gives ERROR iff some grade erred, FAIL iff none erred and one failed, PASS iff all are PASS or SKIP |
| Results.FoldAllKeepsError | src/evaldeck/results.py:115-122 | once ERROR, a result stays ERROR whatever grades follow |
| Results.FoldAllAppend | src/evaldeck/results.py:115-122 | folding two batches of grades in turn is folding their concatenation |
| Results.WithStatusSpec | src/evaldeck/results.py:102-105 | filtering grades by status keeps exactly the grades with that status, in order |
| Results.GradePassRate | src/evaldeck/results.py:107-113 | the grade pass rate lies in [0,1], is 0.0 with no grades, and otherwise times the grade count equals the number of PASS grades |
| Results.EvaluationResult.constructor | src/evaldeck/results.py:80-95 | a new result has the given name, status, trace id and error, and no grades, metrics or turns |
| Results.EvaluationResult.FailedGrades | src/evaldeck/results.py:102-105 | `failed_grades` is exactly the FAIL grades in their original order |
| Results.EvaluationResult.PassRate | src/evaldeck/results.py:107-113 | the pass rate lies in [0,1] and is 0.0 with no grades |
| Results.EvaluationResult.AddGrade | src/evaldeck/results.py:115-122 | `add_grade` appends the grade and folds its status into the result's, changing nothing else |
| Results.EvaluationResult.AddMetric | src/evaldeck/results.py:124-126 | `add_metric` appends the metric and changes nothing else |
| Results.EvaluationResult.AddTurnResult | tests/test_evaluator.py:442-450 | adding a turn appends it, appends its grades and folds its status into the case status |
| Results.CountStatusSum | src/evaldeck/results.py:137-155 | the PASS, FAIL, ERROR and SKIP counts of a list of results add up to its length |
| Results.CountStatusAppend | src/evaldeck/results.py:137-155 | appending a result raises exactly the count of its own status by one |
| Results.SuiteResult.constructor | src/evaldeck/results.py:129-135 | a new suite result has the name and no results |
| Results.SuiteResult.CountsBounded | src/evaldeck/results.py:137-155 | passed + failed + errors never exceeds the suite total |
| Results.SuiteResult.PassRate | src/evaldeck/results.py:157-162 | the suite pass rate lies in [0,1], is 0.0 when empty, and otherwise times the total equals the passed count |
| Results.SuiteResult.AddResult | src/evaldeck/results.py:169-171 | `add_result` appends at the end and keeps the earlier results and the name |
| Results.SumCountBounded | src/evaldeck/results.py:182-195 | across suites, passed + failed never exceeds the total |
| Results.SumPassRate | src/evaldeck/results.py:197-202 | the passed-over-total ratio across suites lies in [0,1] and is 0.0 when there are no cases |
| Results.RunResult.constructor | src/evaldeck/results.py:174-181 | a new run result has no suites |
| Results.RunResult.CountsBounded | src/evaldeck/results.py:182-195 | the run's passed + failed never exceeds its total |
| Results.RunResult.PassRate | src/evaldeck/results.py:197-202 | the run pass rate lies in [0,1], is 0.0 for an empty run, and otherwise times the total equals the passed count |
| Results.RunResult.AllPassed | src/evaldeck/results.py:204-207 | `all_passed` holds iff passed equals total, so an empty run has all passed |
| Results.RunResult.AddSuite | src/evaldeck/results.py:209-211 | `add_suite` appends the suite and grows the total by the suite's size |
| TestCases.EvalCase.Expected | src/evaldeck/test_case.py:106-111 | `expected` is the first turn's expectation, or the all-`None` expectation without one |
| TestCases.EvalCase.Graders | src/evaldeck/test_case.py:113-118 | `graders` is the first turn's grader list, or empty without turns |
| TestCases.EvalCase.Input | src/evaldeck/test_case.py:120-125 | `input` is the first turn's user text, or `""` without turns |
| TestCases.SingleTurnCase | src/evaldeck/test_case.py:101-125 | a one-turn case is not multi-turn, and its accessors give that turn's user text, expectation and graders |
| TestCases.CasesWithTagsSpec | src/evaldeck/test_case.py:222-231 | the tag filter keeps exactly the cases sharing a tag with the filter, in original order |
| TestCases.FilterByTags | src/evaldeck/test_case.py:222-231 | `filter_by_tags` keeps exactly the sharing cases, in order, and copies name, description, defaults and tags |
| TestCases.UpgradeLegacy | src/evaldeck/test_case.py:143-150 | with `input` and no `turns`, top-level `input`/`expected`/`graders` are removed and become one turn; other keys are kept; otherwise the document is unchanged |
| TestCases.LegacyTurn | src/evaldeck/test_case.py:145-149 | the legacy turn has `user` from `input`, plus `expected`/`graders` exactly when they were present |
| TestCases.NormalizeTurnsItemwise | src/evaldeck/test_case.py:153-172 | normalising the turns succeeds iff every turn does, and keeps their number and order, converting item by item |
| TestCases.CaseFromDocument | src/evaldeck/test_case.py:141-174 | a document without a text name raises, as does one whose turns cannot be iterated; the case takes the document's name and one turn per turn entry, a legacy single-turn document gives exactly one turn, and a document without turns is validated as it is |
| TestCases.Iterate | src/evaldeck/test_case.py:155-163 | iterating a list yields its items, a string its one-character strings and a dictionary its keys in insertion order; anything else raises |
| TestCases.NonDictPassesThrough | src/evaldeck/test_case.py:153-172 | turn and grader entries that are not dictionaries pass through unchanged |
| TestCases.GraderFromDict | src/evaldeck/test_case.py:45-57 | `GraderConfig(**d)` needs a text `type`; `params` is `{}` when absent, and `None` or a non-dictionary there raises |
| TestCases.CaseFromDict | src/evaldeck/test_case.py:85-99 | `EvalCase(**d)` raises on a missing or non-text name, non-list turns, `tags` that are not a list of strings (`None` included) and `metadata` that is not a dictionary (`None` included); a built case has that name, those turns, those tags (`[]` when absent) and that metadata (`{}` when absent) |
| TestCases.FromDict | src/evaldeck/test_case.py:141-174 | the in-place loop over the document computes the same case, or the same error, as the normalisation it implements |
| TestCases.NormalizeTurnsPrefix | src/evaldeck/test_case.py:155-172 | the first turn whose conversion raises decides the error of the whole normalisation |
| TestCases.CaseFilesMembers | src/evaldeck/test_case.py:200-215 | the selected file names are exactly those with the extension that do not start with `_` |
| TestCases.LoadOrderSpec | src/evaldeck/test_case.py:200-215 | the load order is the sorted `.yaml` files, then the sorted `.yml` files, and covers exactly the eligible names |
| TestCases.LoadCases | src/evaldeck/test_case.py:200-215 | the loading loop gives the cases of the files in order, or stops at the first file that fails with "Failed to load <path>/<file>: " and its error |
| TestCases.FromDirectory | src/evaldeck/test_case.py:194-220 | a non-directory raises; otherwise the suite holds the loaded cases in load order under the given or the directory's name, with no description, empty defaults and no tags, and the first load failure raises |
| CodeGraders.MissingSpec | src/evaldeck/graders/code.py:52-62 | `missing` holds exactly the values not found in the (case-folded) output, in input order |
| CodeGraders.FoundSpec | src/evaldeck/graders/code.py:101-109 | `found` holds exactly the values found in the (case-folded) output, in input order |
| CodeGraders.MissingAppend | src/evaldeck/graders/code.py:58-61 | one loop step appends the value to `missing` exactly when it is absent |
| CodeGraders.FoundAppend | src/evaldeck/graders/code.py:106-109 | one loop step appends the value to `found` exactly when it is present |
| CodeGraders.CollectMissing | src/evaldeck/graders/code.py:56-61 | the loop builds exactly the missing values in order |
| CodeGraders.CollectFound | src/evaldeck/graders/code.py:105-109 | the loop builds exactly the found values in order |
| CodeGraders.ContainsFromParams | src/evaldeck/graders/code.py:24-39 | `ContainsGrader(**params)` succeeds iff every key is a known parameter, and takes `values` when given |
| CodeGraders.ContainsGradeMethod | src/evaldeck/graders/code.py:41-74 | the imperative grade computes the same result or error as the containment rule |
| CodeGraders.ContainsDictKeys | src/evaldeck/graders/code.py:52-61 | a non-empty dictionary of values is checked by its keys: the grade does not raise, and passes iff every key occurs in the output |
| CodeGraders.ContainsGrade | src/evaldeck/graders/code.py:41-74 | the containment grade is named "contains" and is PASS or FAIL; it raises iff there are values to check and iterating them raises or yields a value that is not a string |
| CodeGraders.ContainsPassesIff | src/evaldeck/graders/code.py:41-74 | with string values (its own, or else the expectation's), the grade never raises, is PASS or FAIL, and is PASS iff every value occurs in the output, case-folded unless case-sensitive (an empty list passes) |
| CodeGraders.NotContainsGrade | src/evaldeck/graders/code.py:92-119 | the exclusion grade is PASS or FAIL |
| CodeGraders.NotContainsGradeMethod | src/evaldeck/graders/code.py:92-119 | the imperative grade computes the same result as the exclusion rule |
| CodeGraders.NotContainsPassesIff | src/evaldeck/graders/code.py:92-119 | PASS iff no value (its own, or else the expectation's) occurs in the case-folded output |
| CodeGraders.EqualsGrade | src/evaldeck/graders/code.py:137-157 | the equality grade is PASS or FAIL |
| CodeGraders.EqualsPassesIff | src/evaldeck/graders/code.py:137-157 | whitespace-normalised equality passes iff nothing is expected or output and expected have the same words |
| Text.NormalizedEqualIff | src/evaldeck/graders/code.py:145-149 | `" ".join(s.split())` of two strings agree iff their word lists agree |
| Text.NormalizeIdempotent | src/evaldeck/graders/code.py:145-147 | normalising whitespace twice is normalising it once |
| CodeGraders.ToolCalledFromParams | src/evaldeck/graders/code.py:204-211 | `ToolCalledGrader(**params)` succeeds iff the only key is `required` |
| CodeGraders.ToolCalledGrade | src/evaldeck/graders/code.py:213-237 | the required-tools grade is named "tool_called" and is PASS or FAIL; it raises iff there are names to check and iterating them raises, one is unhashable, or they are not all strings and `sorted()` cannot order them |
| CodeGraders.ToolCalledPassesIff | src/evaldeck/graders/code.py:213-237 | with string names, the grade never raises and is PASS iff every required tool was called at least once; extra or repeated calls are allowed |
| CodeGraders.ToolCalledNonText | src/evaldeck/graders/code.py:222-232 | with required names that are not all strings, the grade raises iff `set()` meets an unhashable name or `sorted()` cannot order them, and is otherwise FAIL |
| CodeGraders.ToolNotCalledGrade | src/evaldeck/graders/code.py:248-269 | the forbidden-tools grade is PASS or FAIL |
| CodeGraders.ToolNotCalledPassesIff | src/evaldeck/graders/code.py:248-269 | PASS iff no forbidden tool was called |
| CodeGraders.Greedy | src/evaldeck/graders/code.py:290-296 | the greedy scan never advances past the expected list |
| CodeGraders.GreedyIffSubsequence | src/evaldeck/graders/code.py:290-296 | the greedy scan reaches the end of the expected order iff it is a subsequence of the tools called, that is iff the expected names occur among the tools called at strictly increasing positions |
| Seqs.SubsequenceEmbeds | src/evaldeck/graders/code.py:290-296 | when the leftmost-match scan succeeds, there is a strictly increasing choice of positions at which the expected items occur |
| Seqs.EmbedsSubsequence | src/evaldeck/graders/code.py:290-296 | when the expected items occur at some strictly increasing positions, the leftmost-match scan succeeds |
| Seqs.SubsequenceIffEmbeds | src/evaldeck/graders/code.py:290-296 | the leftmost-match scan succeeds iff the expected items occur at strictly increasing positions |
| CodeGraders.ScanOrder | src/evaldeck/graders/code.py:290-296 | the scanning loop ends at the greedy index |
| CodeGraders.ToolOrderGrade | src/evaldeck/graders/code.py:280-308 | the tool-order grade is PASS or FAIL |
| CodeGraders.ToolOrderGradeMethod | src/evaldeck/graders/code.py:280-308 | the imperative grade computes the same result as the ordering rule |
| CodeGraders.ToolOrderPassesIff | src/evaldeck/graders/code.py:280-308 | PASS iff the expected order is a subsequence of the tools called, and iff its names occur among the tools called at strictly increasing positions, so an empty order passes |
| CodeGraders.BoundGrade | src/evaldeck/graders/code.py:311-415 | the max-steps, max-tool-calls and max-LLM-calls bounds pass iff there is no bound or the count is at most it, and a failure records the bound and the count |
| CodeGraders.TaskCompletedGrade | src/evaldeck/graders/code.py:425-459 | passes iff "completed" (status SUCCESS and non-empty output) equals the expectation, which defaults to `require_success` |
| Graders.PassedCount | src/evaldeck/graders/base.py:127-128 | the number of passing sub-results is at most their number |
| Graders.PassedCountAll | src/evaldeck/graders/base.py:130-134 | every sub-result passed iff the passed count equals the count |
| Graders.PassedCountAny | src/evaldeck/graders/base.py:136-139 | some sub-result passed iff the passed count is positive |
| Graders.Combine | src/evaldeck/graders/base.py:125-146 | the combined grade is PASS or FAIL, keeps every sub-result in order, and with `require_all` passes iff all passed, otherwise iff one passed |
| Graders.CombineIff | src/evaldeck/graders/base.py:125-146 | in terms of the sub-results alone: all passed, or some passed; an empty list passes under `require_all` and fails otherwise |
| Graders.Grade | src/evaldeck/graders/base.py:46-106 | only the contains, tool-called, composite and user graders can raise; the other code graders are PASS or FAIL; a composite is named "composite" |
| Graders.GradeEach | src/evaldeck/graders/base.py:99-106 | the sub-grading gives one result per remaining sub-grader |
| Graders.GradeEachRaises | src/evaldeck/graders/base.py:99-106 | a composite graded synchronously raises iff one of its sub-graders raises |
| Graders.GradeEachAt | src/evaldeck/graders/base.py:99-106 | when no sub-grader raises, result `i` is sub-grader `i`'s grade |
| Graders.EachFromStep | src/evaldeck/graders/base.py:102-104 | one step of the loop: a raising sub-grader makes the whole grade raise, otherwise its result is appended |
| Graders.GradeComposite | src/evaldeck/graders/base.py:99-106 | the loop that grades each sub-grader once, in order, then combines, computes the composite grade |
| Graders.Isolated | src/evaldeck/graders/base.py:114-121 | a grade that raised becomes an ERROR result under its grader's name, with `"Grader error: "` and the message; otherwise it is kept |
| Graders.GradeEachIsolated | src/evaldeck/graders/base.py:108-123 | the asynchronous composite gives one result per sub-grader |
| Graders.GradeEachIsolatedAt | src/evaldeck/graders/base.py:108-123 | sub-result `i` is sub-grader `i`'s grade, or an ERROR result at the same index if it raised |
| Graders.GradeAsync | src/evaldeck/graders/base.py:58-123 | a composite graded asynchronously never raises, is named "composite" and is PASS or FAIL; any other grader grades as synchronously, so only the contains, tool-called and user graders can raise |
| Graders.GradeAsyncCompositeTotal | src/evaldeck/graders/base.py:108-123 | the asynchronous composite never raises, is PASS or FAIL, and its details hold every isolated sub-result in order |
| JudgeGraders.DetectProvider | src/evaldeck/graders/llm.py:74-78 | the provider is "anthropic" iff the model starts with "claude", "openai" otherwise |
| JudgeGraders.NewJudge | src/evaldeck/graders/llm.py:45-72 | an empty or absent prompt, provider and task take the defaults (the provider detected from the model); the model and threshold are kept |
| JudgeGraders.StepLines | src/evaldeck/graders/llm.py:117-127 | a human-input step gives no line, the others one or two lines, the first numbered with the step's position |
| JudgeGraders.SummaryHasLineFor | src/evaldeck/graders/llm.py:113-128 | every step that is not a human input has its line, numbered by its 1-based position in the whole trace |
| JudgeGraders.SummaryLength | src/evaldeck/graders/llm.py:113-128 | the summary has at most two lines per step |
| JudgeGraders.BuildTraceSummary | src/evaldeck/graders/llm.py:113-128 | the appending loop builds the header line, then each step's lines, joined by newlines |
| JudgeGraders.Leftmost | src/evaldeck/graders/llm.py:204-225 | the leftmost match of a pattern: the first index where it matches, or none |
| JudgeGraders.LeftmostIs | src/evaldeck/graders/llm.py:204-225 | an index that matches, with no match before it, is the leftmost match |
| JudgeGraders.ParseVerdict | src/evaldeck/graders/llm.py:204-216 | the verdict is only ever PASS or FAIL |
| JudgeGraders.ParseVerdictExplicit | src/evaldeck/graders/llm.py:204-207 | the first case-insensitive `VERDICT:` followed by PASS or FAIL decides the verdict |
| JudgeGraders.ParseVerdictImplicit | src/evaldeck/graders/llm.py:208-216 | without an explicit verdict: PASS iff "PASS" occurs and "FAIL" does not, so FAIL by default |
| JudgeGraders.ParseReasonFound | src/evaldeck/graders/llm.py:218-220 | the reason is the stripped rest after the first case-insensitive `REASON:` |
| JudgeGraders.ParseReasonMissing | src/evaldeck/graders/llm.py:218-220 | without `REASON:` the reason is the first 200 characters |
| JudgeGraders.Normalize | src/evaldeck/graders/llm.py:226-229 | scores up to 1 are kept, scores in (1,10] divided by 10, larger ones by 100 without clamping |
| JudgeGraders.ParseScore | src/evaldeck/graders/llm.py:222-229 | a parsed score is never negative |
| JudgeGraders.ParseScoreFound | src/evaldeck/graders/llm.py:222-229 | the first `SCORE:` followed by a decimal number gives the score, normalised |
| JudgeGraders.ParseScoreMissing | src/evaldeck/graders/llm.py:222-229 | without such a match there is no score |
| JudgeGraders.BuildResult | src/evaldeck/graders/llm.py:270-289 | with a threshold and a score, PASS iff the normalised score is at least the threshold; otherwise the verdict stands; the result carries the score, the reason, the model and the raw reply |
| JudgeGraders.JudgeGrade | src/evaldeck/graders/llm.py:233-248 | ERROR iff formatting the prompt or calling the model raised, with `"LLM grader error: "` and the message; otherwise the reply parsed into a result |
| Metrics.DistinctBounds | src/evaldeck/metrics/builtin.py:93-95 | a list has at most as many distinct entries as entries, and at least one when non-empty |
| Metrics.ToolDiversity | src/evaldeck/metrics/builtin.py:78-106 | 0.0 without tool calls; otherwise distinct named tools per tool call, in [0,1], and positive iff some named tool was called |
| Metrics.StepEfficiency | src/evaldeck/metrics/builtin.py:108-152 | 1.0 with no budget (absent or 0) or within it; beyond it budget/steps, strictly inside (0,1) for a positive budget; it raises only for a negative budget on an empty trace |
| Metrics.FailureCountExtremes | src/evaldeck/metrics/builtin.py:183-188 | the failed-step count is 0 iff no step failed, and the step count iff every step failed |
| Metrics.ErrorRate | src/evaldeck/metrics/builtin.py:168-195 | 0.0 on an empty trace; otherwise failed steps per step, in [0,1], and 0.0 iff no step failed |
| Metrics.Calculate | src/evaldeck/metrics/builtin.py:15-166 | the built-in metrics never raise except step efficiency; step count, token usage (with the LLM-call count), tool-call count (with the tools called), LLM-call count and duration (0.0 when absent) measure what their names say |
| Metrics.EmptyTraceMetrics | src/evaldeck/metrics/builtin.py:15-195 | on an empty trace with a non-negative budget every built-in metric is defined: diversity and error rate 0.0, efficiency 1.0, tokens 0 |
| Evaluation.ExpectationGradersSpec | src/evaldeck/evaluator.py:112-141 | the graders built from an expectation follow the fixed order contains, not_contains, tool_called, tool_not_called, tool_order, max_steps, max_tool_calls, max_llm_calls, task_completed; each appears iff its field asks for it (a list when non-empty, a bound or completion whenever given) |
| Evaluation.GraderFromConfig | src/evaldeck/evaluator.py:161-180 | dispatch on the lower-cased type: "llm" builds a judge with default model "gpt-4o-mini", "contains" and "tool_called" build exactly that kind of grader from the accepted parameters, and raise when those parameters are refused; anything else builds none |
| Evaluation.ConfigGraders | src/evaldeck/evaluator.py:143-147 | configured graders are at most one per configuration |
| Evaluation.ConfigGradersRaises | src/evaldeck/evaluator.py:143-147 | building the configured graders raises iff some configuration raises |
| Evaluation.ConfigGradersPrefix | src/evaldeck/evaluator.py:143-147 | a configuration that raises makes the whole build raise with its message |
| Evaluation.BuildConfigGraders | src/evaldeck/evaluator.py:143-147 | the appending loop over the configurations computes the configured graders, in list order |
| Evaluation.BuildGradersForTurn | src/evaldeck/evaluator.py:108-149 | the turn's graders are the expectation graders followed by the configured ones |
| Evaluation.GradersForTurn | src/evaldeck/evaluator.py:108-149 | building a turn's graders raises iff one of its configurations raises; otherwise the expectation graders come first, followed by at most one grader per configuration |
| Evaluation.GradersForCase | src/evaldeck/evaluator.py:151-159 | a case without turns gets a lone task-completed grader requiring success; otherwise only the first turn's configurations decide whether building raises |
| Evaluation.GradesOf | src/evaldeck/evaluator.py:218-223 | one grade per grader |
| Evaluation.GradesOfAt | src/evaldeck/evaluator.py:218-223 | grade `k` is grader `k`'s result, or its `"Grader error: "` ERROR result if it raised |
| Evaluation.MetricsOf | src/evaldeck/evaluator.py:226-231 | at most one metric result per metric |
| Evaluation.MetricsOfKeepsTotal | src/evaldeck/evaluator.py:226-231 | metrics that cannot raise are all kept |
| Evaluation.RecordGrades | src/evaldeck/evaluator.py:218-223 | the grading loop records one grade per grader, in order, and sets the status to their fold from PASS |
| Evaluation.RecordMetrics | src/evaldeck/evaluator.py:226-231 | the metric loop records the metrics that did not raise, in order |
| Evaluation.EvaluateStatus | src/evaldeck/evaluator.py:210-231 | with no graders the case passes; a raising grader makes it ERROR; it passes iff every grader returns PASS or SKIP |
| Evaluation.FoldAllNeverSkip | src/evaldeck/results.py:115-122 | a status folded from PASS is never SKIP |
| Evaluation.TurnCase | src/evaldeck/evaluator.py:555-560 | a turn is graded against a one-turn case whose expectation is that turn's own |
| Evaluation.TurnGrading | src/evaldeck/evaluator.py:523-576 | a graded turn carries its index, input and trace id, one isolated grade per grader, and their fold from PASS, never SKIP |
| Evaluation.TurnOutcome | src/evaldeck/evaluator.py:446-516 | an agent exception stops the turn with its message; a turn that ran never reports SKIP |
| Evaluation.RunnerNeverSkips | src/evaldeck/evaluator.py:457-470 | no turn the evaluator runs reports SKIP |
| Evaluation.Recorded | src/evaldeck/evaluator.py:461-503 | the recorded turn result carries the turn's index and input and is not skipped |
| Evaluation.Skips | src/evaldeck/evaluator.py:479-491 | the padding has one entry per remaining turn |
| Evaluation.SkipsAt | src/evaldeck/evaluator.py:479-491 | each padded entry is SKIP, skipped, and carries its own index and user input |
| Evaluation.Conversation | src/evaldeck/evaluator.py:446-516 | one result per remaining turn, the first of them the recorded outcome of running that turn on the history given |
| Evaluation.ConversationStep | src/evaldeck/evaluator.py:446-516 | a turn that did not pass ends the conversation with the remaining turns padded; a passing turn is followed by the rest of the conversation on the extended history |
| Evaluation.ConversationShape | src/evaldeck/evaluator.py:446-516 | a conversation has one result per turn, in order, each with its index and user input |
| Evaluation.ConversationFailFast | src/evaldeck/evaluator.py:474-516 | after the first turn that did not pass, exactly the later turns are skipped; skipped iff SKIP; every skipped turn follows one that ran and did not pass |
| Evaluation.FoldTurnsFromPass | src/evaldeck/evaluator.py:472 | folding turn statuses from PASS gives ERROR iff a turn erred, PASS iff all passed or were skipped |
| Evaluation.AllGradesHas | src/evaldeck/evaluator.py:472 | every grade of every turn appears among the case's grades |
| Evaluation.SkipsNeutral | src/evaldeck/evaluator.py:479-491 | padding turns adds no grade and does not change the folded status |
| Evaluation.ConversationStatus | src/evaldeck/evaluator.py:446-516 | a multi-turn case passes iff every turn passed, and is ERROR iff some turn is ERROR |
| Evaluation.CaseStatus | src/evaldeck/evaluator.py:438-516 | a case is PASS iff it has turns and every turn passed, and ERROR iff it has no turns or some turn is ERROR |
| Evaluation.FirstTurnAgentError | tests/test_evaluator.py:442-450 | an agent raising on the first turn makes that turn ERROR with an "execution" grade `"Agent error: "` and the message, skips every later turn, and makes the case ERROR |
| Evaluation.PadSkips | src/evaldeck/evaluator.py:481-490 | the padding loop builds the skipped results of the remaining turns |
| Evaluation.RecordTurns | src/evaldeck/evaluator.py:472-490 | recording the turns in order leaves them, all their grades and the folded status on the case |
| Evaluation.ByIndex | src/evaldeck/evaluator.py:383-396 | `results_by_index` holds exactly the indices of the test runs that finished |
| Evaluation.ByIndexPositioned | src/evaldeck/evaluator.py:383-396 | when each finished outcome carries its own index, the map holds each finished index with its result |
| Evaluation.Reassemble | src/evaldeck/evaluator.py:383-402 | the suite result lists one result per test case in index order: the finished one, or a fresh ERROR result "Test execution failed unexpectedly" |
| Evaluation.Evaluator.constructor | src/evaldeck/evaluator.py:82-106 | the evaluator keeps its graders and uses the four default metrics when given none |
| Evaluation.Evaluator.Evaluate | src/evaldeck/evaluator.py:182-237 | `evaluate` raises iff building the graders raises; otherwise one grade per selected grader in order, status their fold from PASS, the metrics that did not raise, no turns and no error |
| Evaluation.Evaluator.EvaluateTurn | src/evaldeck/evaluator.py:523-576 | `_evaluate_turn` computes the graded turn result |
| Evaluation.Evaluator.EvaluateCase | src/evaldeck/evaluator.py:407-521 | no turns gives ERROR "Test case has no turns defined"; otherwise the turn results are the fail-fast conversation, the grades are all turn grades, and the status is the case status |
| Evaluation.Evaluator.Converse | src/evaldeck/evaluator.py:443-516 | the turn loop with its history and early exit produces the conversation |
| Evaluation.Evaluator.RunTurn | src/evaldeck/evaluator.py:449-470 | the body of one turn's `try` computes what running the turn gives |
| Evaluation.Evaluator.EvaluateSuite | src/evaldeck/evaluator.py:331-405 | one result per test case, in index order, named after its case; a case whose callback did not raise has the turn results, grades, status and error of `_evaluate_case`, and one whose callback raised is ERROR "Test execution failed unexpectedly" with no turns and no grades |
| Evaluation.RunSuites | src/evaldeck/evaluator.py:647-664 | the suites that run are at most as many as given, and none of them is empty |
| Evaluation.RunSuitesStep | src/evaldeck/evaluator.py:647-664 | one more suite adds its tag-filtered version exactly when that still has cases |
| Evaluation.SuiteStatuses | src/evaldeck/evaluator.py:331-405 | a suite's statuses are one per test case, in order: ERROR where the callback raised, the case's own status elsewhere |
| Evaluation.RunStatuses | src/evaldeck/evaluator.py:662-672 | the run's statuses, suite by suite, are as many as the selected test cases |
| Evaluation.TotalIsCaseCount | src/evaldeck/evaluator.py:662-672 | suite results matching the suites that ran total their number of test cases |
| Evaluation.CountStatusOf | src/evaldeck/results.py:137-155 | results carrying given statuses count each status as often as it occurs among them |
| Evaluation.SumCountOf | src/evaldeck/results.py:182-195 | across matching suite results, each status is counted as often as the selected test cases end with it |
| Evaluation.AllPassCount | src/evaldeck/results.py:204-207 | PASS occurs as often as the list is long iff every entry is PASS |
| Evaluation.RunStatusesAllPass | src/evaldeck/evaluator.py:662-672 | the run's statuses are all PASS iff every selected test case ends PASS |
| Evaluation.EvaluationRunner.constructor | src/evaldeck/evaluator.py:582-593 | the runner keeps its evaluator |
| Evaluation.EvaluationRunner.EvaluateSelected | src/evaldeck/evaluator.py:666-671 | a suite's evaluation is a fresh result under its name with one entry per case, each with the status that case ends with |
| Evaluation.EvaluationRunner.RunOne | src/evaldeck/evaluator.py:662-672 | one iteration of the suite loop keeps the run's suites matching the suites selected so far, statuses included |
| Evaluation.EvaluationRunner.Run | src/evaldeck/evaluator.py:618-675 | `run_async` gives a fresh run with one suite result per tag-filtered non-empty suite, in order, each case with the status it ends with; total, passed and failed are the counts of the selected cases, and the run has all passed iff every selected case passed |
| SpanRegistry.Or | src/evaldeck/integrations/opentelemetry.py:176-216 | Python's `a or b` on attributes: the first when truthy, else the second |
| SpanRegistry.IntOf | src/evaldeck/integrations/opentelemetry.py:181-183 | `int(attrs.get(key, 0))`: absent is 0, an integer is kept, a boolean is 0 or 1; text converts iff, once stripped of whitespace and an optional sign, it is digits with single underscores between them, and then to `int()`'s value |
| SpanRegistry.IntOfRendered | src/evaldeck/integrations/opentelemetry.py:181-183 | a token count written as a decimal integer, with any surrounding whitespace, converts to that integer |
| SpanRegistry.TraceStatusOf | src/evaldeck/integrations/opentelemetry.py:302-306 | ERROR iff the span status is ERROR, otherwise SUCCESS |
| SpanRegistry.StepStatusOf | src/evaldeck/integrations/opentelemetry.py:308-312 | FAILURE iff the span status is ERROR, otherwise SUCCESS |
| SpanRegistry.ErrorOf | src/evaldeck/integrations/opentelemetry.py:314-318 | the error is the description for an ERROR span and none otherwise |
| SpanRegistry.ContentKeyInjective | src/evaldeck/integrations/opentelemetry.py:268-270 | different message indices have different content keys |
| SpanRegistry.GatherAt | src/evaldeck/integrations/opentelemetry.py:266-284 | the gathered messages are those at consecutive indices from the start up to the first missing content key, each formatted with its role |
| SpanRegistry.MessagesTextCases | src/evaldeck/integrations/opentelemetry.py:262-289 | with no message at index 0 the text is `<dir>.value` or `""`; otherwise it starts with the first message |
| SpanRegistry.ExtractMessages | src/evaldeck/integrations/opentelemetry.py:262-289 | the counting loop computes the joined messages or the fallback |
| SpanRegistry.ToolArgs | src/evaldeck/integrations/opentelemetry.py:198-208 | with none of the three argument attributes present the arguments are empty |
| SpanRegistry.ToolName | src/evaldeck/integrations/opentelemetry.py:197 | `tool.name`, else `tool_call.function.name`, else "unknown_tool", the first that is truthy |
| SpanRegistry.LlmStep | src/evaldeck/integrations/opentelemetry.py:174-193 | an LLM span becomes an LLM_CALL step whose model is the model-name attribute's text (none when absent); it raises iff one of its prompt, completion and total token counts does not convert to an integer or the model name is not text, the latter with pydantic's "Input should be a valid string" |
| SpanRegistry.StepOf | src/evaldeck/integrations/opentelemetry.py:153-172 | LLM to LLM_CALL; TOOL, EMBEDDING, RETRIEVER and RERANKER to TOOL_CALL; GUARDRAIL and nested CHAIN/AGENT to REASONING; any other kind to no step; it raises iff the span is LLM and its token counts or model name are invalid |
| SpanRegistry.RetrievalNames | src/evaldeck/integrations/opentelemetry.py:223 | retrieval steps are named by the lower-cased kind |
| SpanRegistry.RootUpdated | src/evaldeck/integrations/opentelemetry.py:135-151 | a root span sets the trace's status and duration, its input and output when given, and keeps the id and steps |
| SpanRegistry.Effect | src/evaldeck/integrations/opentelemetry.py:125-133 | a root CHAIN/AGENT span updates the trace and adds no step; any other span appends at most its converted step at the end |
| SpanRegistry.CollectAll | src/evaldeck/integrations/opentelemetry.py:353-359 | with every id registered, collection gives one trace per id, in order |
| SpanRegistry.SpanProcessor.constructor | src/evaldeck/integrations/opentelemetry.py:89-97 | a new processor has no traces and an empty order |
| SpanRegistry.SpanProcessor.OnEnd | src/evaldeck/integrations/opentelemetry.py:103-133 | spans with no kind are ignored; the first span of an unseen id creates and registers its trace once; the span's effect is applied to that trace alone; an error is reported exactly for a non-root LLM span whose token counts or model name are invalid |
| SpanRegistry.SpanProcessor.Register | src/evaldeck/integrations/opentelemetry.py:112-123 | an unseen id gets a fresh trace appended to the order; a known id reuses its trace |
| SpanRegistry.SpanProcessor.UpdateFromRoot | src/evaldeck/integrations/opentelemetry.py:135-151 | the in-place update leaves the root-updated trace |
| SpanRegistry.SpanProcessor.SpanToStep | src/evaldeck/integrations/opentelemetry.py:153-172 | the dispatch computes the step conversion |
| SpanRegistry.SpanProcessor.ConvertLlm | src/evaldeck/integrations/opentelemetry.py:174-193 | the converter computes the LLM step or its error, including the error for a model name that is not text |
| SpanRegistry.SpanProcessor.GetTrace | src/evaldeck/integrations/opentelemetry.py:332-341 | the trace filed under the id, or none iff the id is unknown |
| SpanRegistry.SpanProcessor.GetLatestTrace | src/evaldeck/integrations/opentelemetry.py:343-351 | the trace of the last registered id, or none before any |
| SpanRegistry.SpanProcessor.GetAllTraces | src/evaldeck/integrations/opentelemetry.py:353-359 | every registered trace, in registration order |
| SpanRegistry.SpanProcessor.Reset | src/evaldeck/integrations/opentelemetry.py:361-364 | `reset` empties both the trace map and the order |
| Text.NatToStringRoundTrip | src/evaldeck/graders/code.py:73 | the decimal rendering of a count reads back as the count |
| Text.ParseInt | src/evaldeck/integrations/opentelemetry.py:181-183 | `int()` of text succeeds iff, after stripping whitespace, it is an optional sign followed by digits with single underscores between them |
| Text.ParseIntRoundTrip | src/evaldeck/integrations/opentelemetry.py:181-183 | `int()` of an integer's decimal rendering, with whitespace around it, gives the integer back |
| Text.ParseIntDigits | src/evaldeck/integrations/opentelemetry.py:181-183 | `int()` of a plain string of digits is their decimal value |
| Text.SortStringsSorted | src/evaldeck/test_case.py:200-215 | `sorted` gives an ordered permutation of its input |

## Left out

- Concurrency: `asyncio.gather`, semaphores and `asyncio.to_thread` are modelled sequentially, and `max_concurrent` has no effect. Test runs of a suite are evaluated in index order. Their outcomes are then reassembled by index, which is the part of the concurrency the results depend on.
- Clocks: `datetime.now`, `started_at`/`completed_at`, `duration_ms` of turns, cases and suites, and `SuiteResult.duration_ms`. A trace's duration is a parameter of `complete`.
- Ids: the UUIDs of steps and traces are parameters.
- Floating point: pass rates, ratios, scores and thresholds are exact reals, not IEEE doubles.
- Case mapping: `lower`/`upper` map ASCII letters only. The judge's `REASON:` match also folds the long s, as Python's case-insensitive regex does; other non-ASCII case folding is not modelled.
- The judge's network call, SDK imports and API-key lookup: the call is the `ask` function of `JudgeEnv`. `str.format` prompt templating is its `format` function, which may raise.
- RegexGrader (Python `re` semantics), CustomGrader (dynamic import of user code) and LLMRubricGrader (its `pass_threshold` is unused) are not modelled. User graders and metrics are `Plugin`/`CustomMetric` values with a fixed behaviour.
- YAML and file I/O, `from_yaml`, `to_yaml`, `config.py`, `_discover_suites`, `_load_agent_func` and configuration-based construction of the evaluator and runner: the directory listing, the file loader and the agent are parameters.
- pydantic coercion: field values are checked for their exact type (a string where a list is expected raises) and not coerced. A field declared with a list or dictionary default rejects `None`. Only the first invalid field is reported, not pydantic's full error list.
- StepEfficiency: a negative `max_steps` on an empty trace raises, as the division in the source does. The evaluator drops a metric that raises.
- CodeGraders.ToolCalledGrade: the failure message lists the missing names sorted and without duplicates, as the source's set does; Python's set display and its hash order are not modelled. Required names that are not strings are shown by their `repr`, except that a float that is not whole is shown as `<float>`; the `TypeError` text for names `sorted()` cannot order is not Python's exact wording.
- CodeGraders.ContainsGrade: a dictionary of values is shown by its keys in the FAIL result's `expected` slot, where the source shows the dictionary itself.
- Traces.NewLlmCall, Traces.NewToolCall, Traces.NewReasoning: the keyword options are status, parent id, error and duration. Keyword arguments that set another kind's fields, `timestamp` or `metadata` are not modelled.
- JudgeGraders.ScoreAt: the score is read from ASCII digits only, while the source's `\d` also matches other Unicode decimal digits.
- SpanRegistry.IntOf: text is read from ASCII digits only, while `int()` also accepts other Unicode decimal digits.
- `on_result`: the callback is reduced to whether it raises for a given test-case index (`callbackRaises`).
- Evaluation.Evaluator.EvaluateCase: the turn results are recorded after the whole conversation instead of one by one. The recorded results, grades and status are the same.
- OpenTelemetry plumbing: the OTel types, `on_start`, `shutdown`, `force_flush`, `setup_tracing` and the availability check are left out. Trace ids are strings, not hex-formatted integers. Trace and step metadata are not recorded (source and span ids, timestamps, token details), and `_ns_to_datetime` is not modelled. `json.loads` in `_parse_json` is the `decode` parameter. Attribute values are text, integers and booleans; floats and sequences are not modelled.
- SpanRegistry.RootUpdated, SpanRegistry.SpanProcessor.UpdateFromRoot: an `output.value` attribute that is not text is stored as its `str()`, where the source assigns the raw value and `Trace` does not validate assignments. So an integer output 0 becomes the truthy text "0", where the source's falsy 0 fails the task-completed check. An integer output also does not make the containment check `value in trace.output` raise, as it does in the source. The trace output is text throughout the model.
- Text.Quote, Text.ReprList: text is shown between single quotes with no escaping. Python's `repr` switches to double quotes for text holding a single quote and escapes backslashes and control characters, so "it's" is shown as `'it's'` where Python shows `"it's"`. This affects the lists in the contains, not-contains and tool-called FAIL messages.
- Evaluation.Evaluator.Converse, Evaluation.Agent: the agent is a function of the user input and a copy of the history. The source passes its own mutable `history` list to the agent (src/evaldeck/evaluator.py:452-476). An agent that changes that list, or keeps it and reads it after later turns, is not modelled.
- `cli.py`, `integrations/langchain.py`, the examples and the re-exporting `__init__` files are not part of this model.
