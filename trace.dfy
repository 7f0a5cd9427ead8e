/** The execution trace of an agent: an ordered list of steps (LLM calls, tool
    calls, reasoning, human input) plus the trace's input, output and status,
    and the projections that graders and metrics read from it. */
module Traces {
  import opened Wrappers
  import opened Seqs

  datatype StepType = LlmCall | ToolCall | Reasoning | HumanInput

  datatype StepStatus = StepSuccess | StepFailure | StepPending

  datatype TraceStatus = Success | Failure | Timeout | Error

  /** A chat message; `role` is "user" or "assistant". */
  datatype Message = Message(role: string, content: string)

  datatype TokenUsage = TokenUsage(promptTokens: int, completionTokens: int, totalTokens: int)

  /** A value of arbitrary Python type (tool arguments, tool results), seen
      only through what the engine does with it: render it with `str()` and
      test its truthiness. */
  datatype Payload = Payload(shown: string, truthy: bool)

  /** The empty argument dictionary `{}`. */
  const EmptyArgs := Payload("{}", false)

  datatype Step = Step(
    id: string,
    stepType: StepType,
    status: StepStatus,
    model: Option<string>,
    input: Option<string>,
    output: Option<string>,
    tokens: Option<TokenUsage>,
    toolName: Option<string>,
    toolArgs: Option<Payload>,
    toolResult: Option<Payload>,
    reasoningText: Option<string>,
    parentId: Option<string>,
    error: Option<string>,
    durationMs: Option<real>)

  /** The keyword arguments a step factory passes on to `Step` for the
      fields every kind of step has, as given or at their defaults. */
  datatype StepOptions = StepOptions(status: StepStatus, parentId: Option<string>, error: Option<string>, durationMs: Option<real>)

  /** No keyword arguments: a successful step without parent, error or duration. */
  const NoOptions := StepOptions(StepSuccess, None, None, None)

  /** Whether a step carries the common fields the options give. */
  predicate HasOptions(s: Step, opts: StepOptions) {
    s.status == opts.status && s.parentId == opts.parentId && s.error == opts.error && s.durationMs == opts.durationMs
  }

  /** `Step.llm_call(model, input, output, tokens, **kwargs)`. */
  function NewLlmCall(id: string, model: string, input: string, output: string, tokens: Option<TokenUsage>,
                      opts: StepOptions): (s: Step)
    ensures s.id == id && s.stepType == LlmCall && HasOptions(s, opts)
    ensures s.model == Some(model) && s.input == Some(input) && s.output == Some(output) && s.tokens == tokens
    ensures s.toolName == None && s.toolArgs == None && s.toolResult == None && s.reasoningText == None
  {
    Step(id, LlmCall, opts.status, Some(model), Some(input), Some(output), tokens,
         None, None, None, None, opts.parentId, opts.error, opts.durationMs)
  }

  /** `Step.tool_call(name, args, result, **kwargs)`: absent or empty arguments become `{}`. */
  function NewToolCall(id: string, toolName: string, toolArgs: Option<Payload>, toolResult: Option<Payload>,
                       opts: StepOptions): (s: Step)
    ensures s.id == id && s.stepType == ToolCall && HasOptions(s, opts) && s.toolName == Some(toolName)
    ensures s.toolResult == toolResult
    ensures s.toolArgs.Some?
    ensures toolArgs.Some? && toolArgs.value.truthy ==> s.toolArgs == toolArgs
    ensures (toolArgs.None? || !toolArgs.value.truthy) ==> s.toolArgs == Some(EmptyArgs)
    ensures s.model == None && s.tokens == None && s.reasoningText == None
  {
    var args := if toolArgs.Some? && toolArgs.value.truthy then toolArgs else Some(EmptyArgs);
    Step(id, ToolCall, opts.status, None, None, None, None,
         Some(toolName), args, toolResult, None, opts.parentId, opts.error, opts.durationMs)
  }

  /** `Step.reasoning(text, **kwargs)`. */
  function NewReasoning(id: string, text: string, opts: StepOptions): (s: Step)
    ensures s.id == id && s.stepType == Reasoning && HasOptions(s, opts) && s.reasoningText == Some(text)
    ensures s.model == None && s.toolName == None && s.tokens == None && s.toolArgs == None
  {
    Step(id, Reasoning, opts.status, None, None, None, None,
         None, None, None, Some(text), opts.parentId, opts.error, opts.durationMs)
  }

  // ---------------------------------------------------------------------------
  // Projections over a step list
  // ---------------------------------------------------------------------------

  /** The steps of type `t`, in trace order. */
  function OfType(steps: seq<Step>, t: StepType): seq<Step> {
    if steps == [] then []
    else (if steps[0].stepType == t then [steps[0]] else []) + OfType(steps[1..], t)
  }

  /** `trace.tool_calls`. */
  function ToolCalls(steps: seq<Step>): seq<Step> {
    OfType(steps, ToolCall)
  }

  /** `trace.llm_calls`. */
  function LlmCalls(steps: seq<Step>): seq<Step> {
    OfType(steps, LlmCall)
  }

  /** Whether a step carries a non-empty tool name (`if s.tool_name`). */
  predicate Named(s: Step) {
    s.toolName.Some? && s.toolName.value != ""
  }

  /** The tool names of the given steps that have one, in order. */
  function NamesOf(steps: seq<Step>): seq<string> {
    if steps == [] then []
    else (if Named(steps[0]) then [steps[0].toolName.value] else []) + NamesOf(steps[1..])
  }

  /** `trace.tools_called`. */
  function ToolsCalled(steps: seq<Step>): seq<string> {
    NamesOf(ToolCalls(steps))
  }

  /** The tokens one step contributes to `total_tokens` (`if step.tokens`). */
  function StepTokens(s: Step): int {
    if s.tokens.Some? then s.tokens.value.totalTokens else 0
  }

  /** The sum of `StepTokens` over a list, accumulated front to back. */
  function TokenSum(steps: seq<Step>): int {
    if steps == [] then 0 else TokenSum(steps[..|steps| - 1]) + StepTokens(steps[|steps| - 1])
  }

  /** `trace.total_tokens`. */
  function TokenTotal(steps: seq<Step>): int {
    TokenSum(LlmCalls(steps))
  }

  /** `OfType` keeps exactly the steps of the given type... */
  lemma {:induction false} OfTypeMembers(steps: seq<Step>, t: StepType)
    ensures forall s :: s in OfType(steps, t) <==> s in steps && s.stepType == t
  {
    if steps != [] {
      OfTypeMembers(steps[1..], t);
      assert steps == [steps[0]] + steps[1..];
    }
  }

  /** ...in their original order. */
  lemma {:induction false} OfTypeOrdered(steps: seq<Step>, t: StepType)
    ensures Subsequence(OfType(steps, t), steps)
  {
    if steps != [] {
      OfTypeOrdered(steps[1..], t);
      var rest := OfType(steps[1..], t);
      if steps[0].stepType == t {
        assert ([steps[0]] + rest)[1..] == rest;
      } else {
        assert OfType(steps, t) == rest;
        if rest != [] {
          OfTypeMembers(steps[1..], t);
          assert rest[0] in rest;
          assert rest[0] != steps[0];
        }
      }
    }
  }

  /** Filtering a concatenation filters each part. */
  lemma {:induction false} OfTypeAppend(a: seq<Step>, b: seq<Step>, t: StepType)
    ensures OfType(a + b, t) == OfType(a, t) + OfType(b, t)
  {
    if a == [] {
      assert a + b == b;
    } else {
      var w := a + b;
      assert w[0] == a[0] && w[1..] == a[1..] + b;
      OfTypeAppend(a[1..], b, t);
      var head := if a[0].stepType == t then [a[0]] else [];
      assert OfType(w, t) == head + OfType(a[1..] + b, t);
      assert head + (OfType(a[1..], t) + OfType(b, t)) == (head + OfType(a[1..], t)) + OfType(b, t);
    }
  }

  lemma {:induction false} NamesOfLength(steps: seq<Step>)
    ensures |NamesOf(steps)| <= |steps|
  {
    if steps != [] {
      NamesOfLength(steps[1..]);
    }
  }

  /** A name is in `names` exactly when some step carries it as a non-empty tool name. */
  lemma {:induction false} NamesOfMembers(steps: seq<Step>)
    ensures forall n :: n in NamesOf(steps) <==> exists s :: s in steps && Named(s) && s.toolName.value == n
  {
    if steps != [] {
      NamesOfMembers(steps[1..]);
      assert steps == [steps[0]] + steps[1..];
      forall n | n in NamesOf(steps)
        ensures exists s :: s in steps && Named(s) && s.toolName.value == n
      {
        if !(Named(steps[0]) && n == steps[0].toolName.value) {
          assert n in NamesOf(steps[1..]);
          var s :| s in steps[1..] && Named(s) && s.toolName.value == n;
          assert s in steps;
        }
      }
    }
  }

  lemma {:induction false} NamesOfAppend(a: seq<Step>, b: seq<Step>)
    ensures NamesOf(a + b) == NamesOf(a) + NamesOf(b)
  {
    if a == [] {
      assert a + b == b;
    } else {
      assert (a + b)[1..] == a[1..] + b;
      NamesOfAppend(a[1..], b);
    }
  }

  /** `tools_called` never has more entries than `tool_calls`. */
  lemma ToolsCalledShorter(steps: seq<Step>)
    ensures |ToolsCalled(steps)| <= |ToolCalls(steps)|
  {
    NamesOfLength(ToolCalls(steps));
  }

  /** A tool name is in `tools_called` exactly when a tool-call step carries it. */
  lemma ToolsCalledMembers(steps: seq<Step>, n: string)
    ensures n in ToolsCalled(steps) <==>
            exists s :: s in steps && s.stepType == ToolCall && Named(s) && s.toolName.value == n
  {
    OfTypeMembers(steps, ToolCall);
    NamesOfMembers(ToolCalls(steps));
  }

  /** Appending a step extends `tools_called` by that step's name, if it is a named tool call. */
  lemma ToolsCalledAppend(steps: seq<Step>, s: Step)
    ensures ToolsCalled(steps + [s]) ==
            ToolsCalled(steps) + (if s.stepType == ToolCall && Named(s) then [s.toolName.value] else [])
  {
    OfTypeAppend(steps, [s], ToolCall);
    NamesOfAppend(ToolCalls(steps), ToolCalls([s]));
    assert [s][1..] == [];
  }

  lemma {:induction false} TokenSumAppend(a: seq<Step>, b: seq<Step>)
    ensures TokenSum(a + b) == TokenSum(a) + TokenSum(b)
    decreases |b|
  {
    if b == [] {
      assert a + b == a;
    } else {
      var c, last := b[..|b| - 1], b[|b| - 1];
      assert b == c + [last];
      assert a + b == (a + c) + [last];
      assert (a + b)[..|a + b| - 1] == a + c;
      TokenSumAppend(a, c);
    }
  }

  /** `total_tokens` adds up over concatenated step lists. */
  lemma TokenTotalAppend(a: seq<Step>, b: seq<Step>)
    ensures TokenTotal(a + b) == TokenTotal(a) + TokenTotal(b)
  {
    OfTypeAppend(a, b, LlmCall);
    TokenSumAppend(LlmCalls(a), LlmCalls(b));
  }

  lemma {:induction false} TokenSumZero(steps: seq<Step>)
    requires forall k :: 0 <= k < |steps| ==> steps[k].tokens.None?
    ensures TokenSum(steps) == 0
  {
    if steps != [] {
      TokenSumZero(steps[..|steps| - 1]);
    }
  }

  /** With no LLM call carrying token usage, `total_tokens` is 0. */
  lemma TokenTotalZero(steps: seq<Step>)
    requires forall s :: s in steps && s.stepType == LlmCall ==> s.tokens.None?
    ensures TokenTotal(steps) == 0
  {
    OfTypeMembers(steps, LlmCall);
    var calls := LlmCalls(steps);
    assert forall k :: 0 <= k < |calls| ==> calls[k] in calls;
    TokenSumZero(calls);
  }

  // ---------------------------------------------------------------------------
  // Traces
  // ---------------------------------------------------------------------------

  /** The fields of a trace at one moment; graders and metrics read this. */
  datatype TraceData = TraceData(
    id: string,
    input: string,
    output: Option<string>,
    status: TraceStatus,
    steps: seq<Step>,
    durationMs: Option<real>,
    framework: Option<string>,
    agentName: Option<string>)

  /** A trace being recorded: `add_step` and `complete` update it in place. */
  class Trace {
    var id: string
    var input: string
    var output: Option<string>
    var status: TraceStatus
    var steps: seq<Step>
    var durationMs: Option<real>
    var framework: Option<string>
    var agentName: Option<string>

    /** `Trace(input=...)`: no output yet, status already SUCCESS, no steps. */
    constructor (id: string, input: string, framework: Option<string>, agentName: Option<string>)
      ensures this.id == id && this.input == input
      ensures output == None && status == Success && steps == []
      ensures durationMs == None && this.framework == framework && this.agentName == agentName
    {
      this.id := id;
      this.input := input;
      output := None;
      status := Success;
      steps := [];
      durationMs := None;
      this.framework := framework;
      this.agentName := agentName;
    }

    function Data(): (d: TraceData)
      reads this
    {
      TraceData(id, input, output, status, steps, durationMs, framework, agentName)
    }

    /** `add_step`: the step goes at the end; nothing else changes. */
    method AddStep(step: Step)
      modifies this
      ensures steps == old(steps) + [step]
      ensures id == old(id) && input == old(input) && output == old(output) && status == old(status)
      ensures durationMs == old(durationMs) && framework == old(framework) && agentName == old(agentName)
    {
      steps := steps + [step];
    }

    /** `complete(output, status)`: records output, status and the elapsed time
        (read from the clock by the source, a parameter here). */
    method Complete(o: string, s: TraceStatus, elapsedMs: real)
      modifies this
      ensures output == Some(o) && status == s && durationMs == Some(elapsedMs)
      ensures id == old(id) && input == old(input) && steps == old(steps)
      ensures framework == old(framework) && agentName == old(agentName)
    {
      output := Some(o);
      status := s;
      durationMs := Some(elapsedMs);
    }

    /** `total_tokens`: the running sum over the LLM calls. */
    method TotalTokens() returns (total: int)
      ensures total == TokenTotal(steps)
    {
      var calls := LlmCalls(steps);
      total := 0;
      var i := 0;
      while i < |calls|
        invariant 0 <= i <= |calls|
        invariant total == TokenSum(calls[..i])
      {
        assert calls[..i + 1][..i] == calls[..i];
        if calls[i].tokens.Some? {
          total := total + calls[i].tokens.value.totalTokens;
        }
        i := i + 1;
      }
      assert calls[..i] == calls;
    }
  }
}
