/** The OpenInference span processor: spans that end are grouped by their
    trace id into traces, registered in the order their trace ids were first
    seen, and converted into steps by span kind. A span is an abstract record
    of the fields the processor reads. */
module SpanRegistry {
  import opened Wrappers
  import opened Text
  import opened Traces

  // ---------------------------------------------------------------------------
  // Spans
  // ---------------------------------------------------------------------------

  /** A span attribute value. */
  datatype Attr = TextAttr(s: string) | IntAttr(n: int) | BoolAttr(b: bool)

  datatype StatusCode = Unset | OkCode | ErrorCode

  /** What the processor reads of a finished span: its trace id already
      formatted as 32 hex digits, its name, whether it has a parent, its status
      and the status description, its start and end times in nanoseconds, and
      its attributes. */
  datatype Span = Span(
    traceId: string,
    name: string,
    hasParent: bool,
    statusCode: StatusCode,
    description: Option<string>,
    startNs: int,
    endNs: int,
    attrs: map<string, Attr>)

  /** `str(v)`. */
  function Show(v: Attr): string {
    match v
    case TextAttr(s) => s
    case IntAttr(n) => IntToString(n)
    case BoolAttr(b) => if b then "True" else "False"
  }

  /** `repr(v)`. */
  function Repr(v: Attr): string {
    if v.TextAttr? then Quote(v.s) else Show(v)
  }

  /** `bool(v)`. */
  predicate Truthy(v: Attr) {
    match v
    case TextAttr(s) => s != ""
    case IntAttr(n) => n != 0
    case BoolAttr(b) => b
  }

  /** `attrs.get(key)`. */
  function Get(attrs: map<string, Attr>, key: string): Option<Attr> {
    if key in attrs then Some(attrs[key]) else None
  }

  /** `str(attrs.get(key, default))`. */
  function ShowOr(attrs: map<string, Attr>, key: string, default: string): string {
    if key in attrs then Show(attrs[key]) else default
  }

  /** Python's `x or y` on two looked-up values. */
  function Or(x: Option<Attr>, y: Option<Attr>): (r: Option<Attr>)
    ensures x.Some? && Truthy(x.value) ==> r == x
    ensures (x.None? || !Truthy(x.value)) ==> r == y
  {
    if x.Some? && Truthy(x.value) then x else y
  }

  /** A looked-up value as a step's payload. */
  function PayloadOf(v: Option<Attr>): Option<Payload> {
    if v.Some? then Some(Payload(Show(v.value), Truthy(v.value))) else None
  }

  /** `int(attrs.get(key, 0))`: integers as they are, booleans as 0 or 1, and
      text as `int()` reads it (whitespace around an optionally signed
      numeral); other text raises. */
  function IntOf(attrs: map<string, Attr>, key: string): (r: Result<int>)
    ensures key !in attrs ==> r == Ok(0)
    ensures key in attrs && attrs[key].IntAttr? ==> r == Ok(attrs[key].n)
    ensures key in attrs && attrs[key].BoolAttr? ==> r == Ok(if attrs[key].b then 1 else 0)
    ensures key in attrs && attrs[key].TextAttr? ==>
              (r.Ok? <==> Numeral(Unsigned(Strip(attrs[key].s))))
              && (r.Ok? ==> Some(r.value) == ParseInt(attrs[key].s))
  {
    if key !in attrs then Ok(0)
    else match attrs[key]
      case IntAttr(n) => Ok(n)
      case BoolAttr(b) => Ok(if b then 1 else 0)
      case TextAttr(s) =>
        var n := ParseInt(s);
        if n.Some? then Ok(n.value)
        else Raised("invalid literal for int() with base 10: " + Quote(s))
  }

  /** A count written out as text, with any whitespace around it, is read back. */
  lemma IntOfRendered(attrs: map<string, Attr>, key: string, i: int, pre: string, post: string)
    requires forall k :: 0 <= k < |pre| ==> IsSpace(pre[k])
    requires forall k :: 0 <= k < |post| ==> IsSpace(post[k])
    requires key in attrs && attrs[key] == TextAttr(pre + IntToString(i) + post)
    ensures IntOf(attrs, key) == Ok(i)
  {
    ParseIntRoundTrip(i, pre, post);
  }

  /** `str(attrs.get("openinference.span.kind", "")).upper()`. */
  function SpanKind(span: Span): string {
    Upper(ShowOr(span.attrs, "openinference.span.kind", ""))
  }

  /** A CHAIN or AGENT span without a parent: the root of its trace. */
  predicate IsRoot(span: Span, kind: string) {
    (kind == "CHAIN" || kind == "AGENT") && !span.hasParent
  }

  // ---------------------------------------------------------------------------
  // Status mapping
  // ---------------------------------------------------------------------------

  /** `_map_trace_status`. */
  function TraceStatusOf(span: Span): (s: TraceStatus)
    ensures s == Error <==> span.statusCode == ErrorCode
    ensures s != Error ==> s == Success
  {
    if span.statusCode == ErrorCode then Error else Success
  }

  /** `_map_step_status`. */
  function StepStatusOf(span: Span): (s: StepStatus)
    ensures s == StepFailure <==> span.statusCode == ErrorCode
    ensures s != StepFailure ==> s == StepSuccess
  {
    if span.statusCode == ErrorCode then StepFailure else StepSuccess
  }

  /** `_extract_error`. */
  function ErrorOf(span: Span): (e: Option<string>)
    ensures span.statusCode == ErrorCode ==> e == span.description
    ensures span.statusCode != ErrorCode ==> e == None
  {
    if span.statusCode == ErrorCode then span.description else None
  }

  /** `_calc_duration_ms`, exactly. */
  function DurationOf(span: Span): real {
    (span.endNs - span.startNs) as real / 1000000.0
  }

  // ---------------------------------------------------------------------------
  // Indexed messages
  // ---------------------------------------------------------------------------

  function MessageKey(dir: string, i: nat, field: string): string {
    "llm." + dir + "_messages." + NatToString(i) + ".message." + field
  }

  function ContentKey(dir: string, i: nat): string {
    MessageKey(dir, i, "content")
  }

  /** The content keys below index `i`. */
  ghost function KeysBelow(dir: string, i: nat): set<string> {
    set j | 0 <= j < i :: ContentKey(dir, j)
  }

  /** Two content keys of the same direction are equal only at the same index. */
  lemma ContentKeyInjective(dir: string, i: nat, j: nat)
    requires ContentKey(dir, i) == ContentKey(dir, j)
    ensures i == j
  {
    var p := "llm." + dir + "_messages.";
    var s := ".message." + "content";
    var x := NatToString(i);
    var y := NatToString(j);
    assert ContentKey(dir, i) == p + x + s;
    assert ContentKey(dir, j) == p + y + s;
    assert |x| == |y|;
    assert x == (p + x + s)[|p|..|p| + |x|];
    assert y == (p + y + s)[|p|..|p| + |y|];
    NatToStringInjective(i, j);
  }

  /** A content key found in the attributes leaves fewer keys unvisited. */
  lemma VisitShrinks(attrs: map<string, Attr>, dir: string, i: nat)
    requires ContentKey(dir, i) in attrs
    ensures KeysBelow(dir, i + 1) == KeysBelow(dir, i) + {ContentKey(dir, i)}
    ensures |attrs.Keys - KeysBelow(dir, i + 1)| < |attrs.Keys - KeysBelow(dir, i)|
  {
    var k := ContentKey(dir, i);
    assert KeysBelow(dir, i + 1) == KeysBelow(dir, i) + {k};
    if k in KeysBelow(dir, i) {
      var j :| 0 <= j < i && ContentKey(dir, j) == k;
      ContentKeyInjective(dir, i, j);
    }
    var rest := attrs.Keys - KeysBelow(dir, i + 1);
    assert attrs.Keys - KeysBelow(dir, i) == rest + {k};
  }

  /** One collected message: `"[role]: content"` when the role is truthy,
      otherwise the content alone. */
  function Format(attrs: map<string, Attr>, dir: string, i: nat): string
    requires ContentKey(dir, i) in attrs
  {
    var content := attrs[ContentKey(dir, i)];
    var roleKey := MessageKey(dir, i, "role");
    if roleKey in attrs && Truthy(attrs[roleKey]) then "[" + Show(attrs[roleKey]) + "]: " + Show(content)
    else Show(content)
  }

  /** The messages at consecutive indices from `i` up to the first missing one. */
  function Gather(attrs: map<string, Attr>, dir: string, i: nat): seq<string>
    decreases |attrs.Keys - KeysBelow(dir, i)|
  {
    if ContentKey(dir, i) in attrs then
      VisitShrinks(attrs, dir, i);
      [Format(attrs, dir, i)] + Gather(attrs, dir, i + 1)
    else []
  }

  /** The gathered messages are exactly those at indices `i`, `i + 1`, ...
      before the first index with no content key. */
  lemma GatherAt(attrs: map<string, Attr>, dir: string, i: nat)
    ensures var ms := Gather(attrs, dir, i);
            (forall j :: i <= j < i + |ms| ==> ContentKey(dir, j) in attrs && ms[j - i] == Format(attrs, dir, j))
            && ContentKey(dir, i + |ms|) !in attrs
  {
    var ms := Gather(attrs, dir, i);
    forall j | i <= j < i + |ms|
      ensures ContentKey(dir, j) in attrs && ms[j - i] == Format(attrs, dir, j)
    {
      GatherElement(attrs, dir, i, j);
    }
    GatherStops(attrs, dir, i);
  }

  lemma {:induction false} GatherElement(attrs: map<string, Attr>, dir: string, i: nat, j: nat)
    requires i <= j < i + |Gather(attrs, dir, i)|
    ensures ContentKey(dir, j) in attrs && Gather(attrs, dir, i)[j - i] == Format(attrs, dir, j)
    decreases j - i
  {
    if j > i {
      VisitShrinks(attrs, dir, i);
      GatherElement(attrs, dir, i + 1, j);
    }
  }

  lemma {:induction false} GatherStops(attrs: map<string, Attr>, dir: string, i: nat)
    ensures ContentKey(dir, i + |Gather(attrs, dir, i)|) !in attrs
    decreases |attrs.Keys - KeysBelow(dir, i)|
  {
    if ContentKey(dir, i) in attrs {
      VisitShrinks(attrs, dir, i);
      GatherStops(attrs, dir, i + 1);
    }
  }

  /** What `_extract_messages` returns: the gathered messages joined by
      newlines, or else `<dir>.value` as text, or `""`. */
  function MessagesText(attrs: map<string, Attr>, dir: string): string {
    var ms := Gather(attrs, dir, 0);
    if ms != [] then Join("\n", ms) else ShowOr(attrs, dir + ".value", "")
  }

  /** Without a message at index 0 the plain value is used; with one, the
      result starts with that first message. */
  lemma MessagesTextCases(attrs: map<string, Attr>, dir: string)
    ensures ContentKey(dir, 0) !in attrs ==> MessagesText(attrs, dir) == ShowOr(attrs, dir + ".value", "")
    ensures ContentKey(dir, 0) in attrs ==>
              StartsWith(MessagesText(attrs, dir), Format(attrs, dir, 0))
  {
    var ms := Gather(attrs, dir, 0);
    if ContentKey(dir, 0) in attrs {
      GatherAt(attrs, dir, 0);
      assert ms[0] == Format(attrs, dir, 0);
      JoinStartsWithFirst("\n", ms);
    }
  }

  lemma JoinStartsWithFirst(sep: string, xs: seq<string>)
    requires xs != []
    ensures StartsWith(Join(sep, xs), xs[0])
  {
    if |xs| > 1 {
      assert Join(sep, xs) == xs[0] + (sep + Join(sep, xs[1..]));
    }
  }

  /** `_extract_messages`: the loop over consecutive indices. */
  method ExtractMessages(attrs: map<string, Attr>, dir: string) returns (r: string)
    ensures r == MessagesText(attrs, dir)
  {
    var messages: seq<string> := [];
    var i: nat := 0;
    while true
      invariant messages + Gather(attrs, dir, i) == Gather(attrs, dir, 0)
      decreases |attrs.Keys - KeysBelow(dir, i)|
    {
      var contentKey := ContentKey(dir, i);
      if contentKey in attrs {
        var message := Format(attrs, dir, i);
        VisitShrinks(attrs, dir, i);
        assert Gather(attrs, dir, i) == [message] + Gather(attrs, dir, i + 1);
        assert messages + ([message] + Gather(attrs, dir, i + 1)) == (messages + [message]) + Gather(attrs, dir, i + 1);
        messages := messages + [message];
        i := i + 1;
      } else {
        break;
      }
    }
    assert messages + [] == messages;
    if messages != [] {
      r := Join("\n", messages);
    } else {
      r := ShowOr(attrs, dir + ".value", "");
    }
  }

  // ---------------------------------------------------------------------------
  // Span kinds to steps
  // ---------------------------------------------------------------------------

  /** The outcome of `json.loads` on a text value: an object (a `dict`), some
      other JSON value shown through its `repr`, or text that is not JSON. */
  datatype Json = JsonObject(payload: Payload) | JsonOther(repr: string) | NotJson

  /** `{"input": v}` for a value whose `repr` is given. */
  function WrapInput(shownRepr: string): Payload {
    Payload("{'input': " + shownRepr + "}", true)
  }

  /** The tool arguments of a TOOL span: `_parse_json` of the first truthy of
      the three argument attributes, wrapped as `{"input": ...}` unless it is a
      dictionary. */
  function ToolArgs(attrs: map<string, Attr>, decode: string -> Json): (p: Payload)
    ensures Or(Or(Get(attrs, "tool.parameters"), Get(attrs, "tool_call.function.arguments")), Get(attrs, "input.value")).None?
            ==> p == EmptyArgs
  {
    var raw := Or(Or(Get(attrs, "tool.parameters"), Get(attrs, "tool_call.function.arguments")), Get(attrs, "input.value"));
    if raw.None? then EmptyArgs
    else match raw.value
      case TextAttr(s) =>
        (match decode(s)
         case JsonObject(d) => d
         case JsonOther(shown) => WrapInput(shown)
         case NotJson => WrapInput(Quote(s)))
      case _ => WrapInput(Repr(raw.value))
  }

  /** The name of a TOOL span's step: `tool.name`, else
      `tool_call.function.name`, else `"unknown_tool"`, the first that is truthy. */
  function ToolName(attrs: map<string, Attr>): (n: string)
    ensures "tool.name" in attrs && Truthy(attrs["tool.name"]) ==> n == Show(attrs["tool.name"])
    ensures !("tool.name" in attrs && Truthy(attrs["tool.name"]))
            && "tool_call.function.name" in attrs && Truthy(attrs["tool_call.function.name"])
            ==> n == Show(attrs["tool_call.function.name"])
    ensures !("tool.name" in attrs && Truthy(attrs["tool.name"]))
            && !("tool_call.function.name" in attrs && Truthy(attrs["tool_call.function.name"]))
            ==> n == "unknown_tool"
  {
    var named := Or(Get(attrs, "tool.name"), Get(attrs, "tool_call.function.name"));
    if named.Some? && Truthy(named.value) then Show(named.value) else "unknown_tool"
  }

  /** `attrs.get("llm.model_name") or attrs.get("gen_ai.request.model")`. */
  function ModelAttr(attrs: map<string, Attr>): Option<Attr> {
    Or(Get(attrs, "llm.model_name"), Get(attrs, "gen_ai.request.model"))
  }

  /** The message pydantic raises when `Step(model=...)` is given a non-string. */
  const ModelNotText := "1 validation error for Step\nmodel\n  Input should be a valid string"

  /** When `_convert_llm_span` raises: a token count that `int()` rejects, or
      a model name that is not text, which `Step`'s `model: str | None` refuses. */
  predicate LlmRaises(span: Span) {
    IntOf(span.attrs, "llm.token_count.prompt").Raised?
    || IntOf(span.attrs, "llm.token_count.completion").Raised?
    || IntOf(span.attrs, "llm.token_count.total").Raised?
    || (ModelAttr(span.attrs).Some? && !ModelAttr(span.attrs).value.TextAttr?)
  }

  /** `_convert_llm_span`: the token counts are converted first, then `Step`
      validates the model name. */
  function LlmStep(span: Span, stepId: string): (r: Result<Step>)
    ensures r.Ok? ==> r.value.stepType == LlmCall && r.value.id == stepId
                      && r.value.input == Some(MessagesText(span.attrs, "input"))
                      && r.value.output == Some(MessagesText(span.attrs, "output"))
    ensures r.Ok? ==> var m := ModelAttr(span.attrs);
                      (m.None? && r.value.model == None) || (m.Some? && m.value.TextAttr? && r.value.model == Some(m.value.s))
    ensures r.Raised? <==> IntOf(span.attrs, "llm.token_count.prompt").Raised?
                           || IntOf(span.attrs, "llm.token_count.completion").Raised?
                           || IntOf(span.attrs, "llm.token_count.total").Raised?
                           || (ModelAttr(span.attrs).Some? && !ModelAttr(span.attrs).value.TextAttr?)
    ensures (IntOf(span.attrs, "llm.token_count.prompt").Ok?
             && IntOf(span.attrs, "llm.token_count.completion").Ok?
             && IntOf(span.attrs, "llm.token_count.total").Ok?
             && ModelAttr(span.attrs).Some? && !ModelAttr(span.attrs).value.TextAttr?)
            ==> r == Raised(ModelNotText)
  {
    var prompt :- IntOf(span.attrs, "llm.token_count.prompt");
    var completion :- IntOf(span.attrs, "llm.token_count.completion");
    var total :- IntOf(span.attrs, "llm.token_count.total");
    var model := ModelAttr(span.attrs);
    if model.Some? && !model.value.TextAttr? then Raised(ModelNotText)
    else
      Ok(Step(stepId, LlmCall, StepStatusOf(span), if model.Some? then Some(model.value.s) else None,
              Some(MessagesText(span.attrs, "input")), Some(MessagesText(span.attrs, "output")),
              Some(TokenUsage(prompt, completion, total)), None, None, None, None, None,
              ErrorOf(span), Some(DurationOf(span))))
  }

  /** `_convert_tool_span`. */
  function ToolStep(span: Span, stepId: string, decode: string -> Json): Step {
    Step(stepId, ToolCall, StepStatusOf(span), None, None, None, None,
         Some(ToolName(span.attrs)), Some(ToolArgs(span.attrs, decode)), PayloadOf(Get(span.attrs, "output.value")),
         None, None, ErrorOf(span), Some(DurationOf(span)))
  }

  /** `_convert_retrieval_span`: a tool call named by the lower-cased kind. */
  function RetrievalStep(span: Span, kind: string, stepId: string): Step {
    var input := Get(span.attrs, "input.value");
    Step(stepId, ToolCall, StepStatusOf(span), None, None, None, None,
         Some(Lower(kind)), Some(WrapInput(if input.Some? then Repr(input.value) else "None")),
         PayloadOf(Get(span.attrs, "output.value")), None, None, ErrorOf(span), Some(DurationOf(span)))
  }

  /** `_convert_guardrail_span`. */
  function GuardrailStep(span: Span, stepId: string): Step {
    Step(stepId, Reasoning, StepStatusOf(span), None, None, None, None, None, None, None,
         Some("Guardrail check: " + ShowOr(span.attrs, "output.value", "passed")), None,
         ErrorOf(span), Some(DurationOf(span)))
  }

  /** `_convert_chain_span`: a nested chain or agent, which records no error. */
  function ChainStep(span: Span, stepId: string): Step {
    Step(stepId, Reasoning, StepStatusOf(span), None, None, None, None, None, None, None,
         Some("Chain: " + span.name + " - " + ShowOr(span.attrs, "output.value", "")), None,
         None, Some(DurationOf(span)))
  }

  predicate IsRetrieval(kind: string) {
    kind == "EMBEDDING" || kind == "RETRIEVER" || kind == "RERANKER"
  }

  /** `_span_to_step`: the step a span of the given kind becomes, if any. */
  function StepOf(span: Span, kind: string, stepId: string, decode: string -> Json): (r: Result<Option<Step>>)
    ensures r.Raised? <==> kind == "LLM" && LlmRaises(span)
    ensures r.Ok? && r.value.Some? ==> r.value.value.id == stepId
                                       && r.value.value.status == StepStatusOf(span)
                                       && r.value.value.durationMs == Some(DurationOf(span))
    ensures kind == "LLM" && r.Ok? ==> r.value.Some? && r.value.value.stepType == LlmCall
    ensures kind == "TOOL" ==> r.Ok? && r.value.Some? && r.value.value.stepType == ToolCall
                               && r.value.value.toolName == Some(ToolName(span.attrs))
    ensures IsRetrieval(kind) ==> r.Ok? && r.value.Some? && r.value.value.stepType == ToolCall
                                  && r.value.value.toolName == Some(Lower(kind))
    ensures kind == "GUARDRAIL" || kind == "CHAIN" || kind == "AGENT" ==>
              r.Ok? && r.value.Some? && r.value.value.stepType == Reasoning
    ensures r.Ok? && r.value.Some? && kind != "CHAIN" && kind != "AGENT" ==> r.value.value.error == ErrorOf(span)
    ensures (kind == "CHAIN" || kind == "AGENT") ==> r.value.value.error == None
    ensures kind !in {"LLM", "TOOL", "EMBEDDING", "RETRIEVER", "RERANKER", "GUARDRAIL", "CHAIN", "AGENT"} ==> r == Ok(None)
  {
    if kind == "LLM" then
      var s :- LlmStep(span, stepId);
      Ok(Some(s))
    else if kind == "TOOL" then Ok(Some(ToolStep(span, stepId, decode)))
    else if IsRetrieval(kind) then Ok(Some(RetrievalStep(span, kind, stepId)))
    else if kind == "GUARDRAIL" then Ok(Some(GuardrailStep(span, stepId)))
    else if kind == "CHAIN" || kind == "AGENT" then Ok(Some(ChainStep(span, stepId)))
    else Ok(None)
  }

  /** The retrieval kinds name their steps "embedding", "retriever" and "reranker". */
  lemma RetrievalNames()
    ensures Lower("EMBEDDING") == "embedding"
    ensures Lower("RETRIEVER") == "retriever"
    ensures Lower("RERANKER") == "reranker"
  {
  }

  // ---------------------------------------------------------------------------
  // Trace effects
  // ---------------------------------------------------------------------------

  /** The trace the processor creates for an unseen trace id. */
  function NewTraceData(id: string): TraceData {
    TraceData(id, "", None, Success, [], None, Some("openinference"), None)
  }

  /** `_update_trace_from_root_span`, on the fields this model keeps. */
  function RootUpdated(t: TraceData, span: Span): (r: TraceData)
    ensures r.id == t.id && r.steps == t.steps && r.agentName == t.agentName
    ensures r.status == TraceStatusOf(span) && r.durationMs == Some(DurationOf(span))
    ensures "input.value" in span.attrs ==> r.input == Show(span.attrs["input.value"])
    ensures "input.value" !in span.attrs ==> r.input == t.input
    ensures "output.value" in span.attrs ==> r.output == Some(Show(span.attrs["output.value"]))
    ensures "output.value" !in span.attrs ==> r.output == None
    ensures "llm.system" !in span.attrs ==> r.framework == t.framework
  {
    var output := Get(span.attrs, "output.value");
    t.(input := ShowOr(span.attrs, "input.value", t.input),
       output := if output.Some? then Some(Show(output.value)) else None,
       status := TraceStatusOf(span),
       durationMs := Some(DurationOf(span)),
       framework := if "llm.system" in span.attrs then Some(Show(span.attrs["llm.system"])) else t.framework)
  }

  /** What ending a span does to its trace (once the trace exists): the root
      span updates the trace and adds no step; any other span appends the
      step it converts to, if any. */
  function Effect(t: TraceData, span: Span, kind: string, stepId: string, decode: string -> Json): (r: TraceData)
    ensures r.id == t.id
    ensures IsRoot(span, kind) ==> r == RootUpdated(t, span)
    ensures !IsRoot(span, kind) ==> |t.steps| <= |r.steps| <= |t.steps| + 1 && r.steps[..|t.steps|] == t.steps
    ensures !IsRoot(span, kind) ==> r.(steps := t.steps) == t
    ensures !IsRoot(span, kind) && |r.steps| == |t.steps| + 1 ==> StepOf(span, kind, stepId, decode) == Ok(Some(r.steps[|t.steps|]))
    ensures !IsRoot(span, kind) && |r.steps| == |t.steps| ==> !(StepOf(span, kind, stepId, decode).Ok? && StepOf(span, kind, stepId, decode).value.Some?)
  {
    if IsRoot(span, kind) then RootUpdated(t, span)
    else
      var s := StepOf(span, kind, stepId, decode);
      if s.Ok? && s.value.Some? then t.(steps := t.steps + [s.value.value]) else t
  }

  // ---------------------------------------------------------------------------
  // The processor
  // ---------------------------------------------------------------------------

  /** The traces of `ids` that `m` holds, in the order of `ids`. */
  function Collect(ids: seq<string>, m: map<string, Trace>): (ts: seq<Trace>)
    ensures |ts| <= |ids|
    ensures forall t :: t in ts ==> t in m.Values
  {
    if ids == [] then []
    else
      var last := ids[|ids| - 1];
      Collect(ids[..|ids| - 1], m) + (if last in m then [m[last]] else [])
  }

  /** When every id is held, nothing is filtered out. */
  lemma {:induction false} CollectAll(ids: seq<string>, m: map<string, Trace>)
    ensures (forall id :: id in ids ==> id in m) ==>
              |Collect(ids, m)| == |ids| && forall k :: 0 <= k < |ids| ==> Collect(ids, m)[k] == m[ids[k]]
  {
    if ids != [] && forall id :: id in ids ==> id in m {
      var init := ids[..|ids| - 1];
      assert forall id :: id in init ==> id in ids;
      CollectAll(init, m);
    }
  }

  /** `EvaldeckSpanProcessor`: the traces by id and the order their ids were first seen. */
  class SpanProcessor {
    var traces: map<string, Trace>
    var order: seq<string>

    /** Every registered id appears once in the order, the other way round
        too, and each trace carries the id it is filed under. */
    ghost predicate Valid()
      reads this, traces.Values
    {
      (forall id :: id in order ==> id in traces)
      && (forall id :: id in traces ==> id in order)
      && (forall a, b :: 0 <= a < b < |order| ==> order[a] != order[b])
      && (forall id :: id in traces ==> traces[id].id == id)
    }

    constructor ()
      ensures Valid() && traces == map[] && order == []
    {
      traces := map[];
      order := [];
    }

    /** The trace filed under `id`, as a set, for frames. */
    function Filed(id: string): set<Trace>
      reads this
    {
      if id in traces then {traces[id]} else {}
    }

    /** `on_end`: a span with no kind is ignored; otherwise its trace is
        created and registered when first seen, and the span either updates
        it (a root span) or appends the step it converts to. An exception
        from the conversion is returned. */
    method OnEnd(span: Span, stepId: string, decode: string -> Json) returns (raised: Option<string>)
      requires Valid()
      modifies this, Filed(span.traceId)
      ensures Valid()
      ensures SpanKind(span) == "" ==> traces == old(traces) && order == old(order) && raised == None
      ensures SpanKind(span) != "" ==>
                traces.Keys == old(traces.Keys) + {span.traceId}
                && (forall id :: id in old(traces) ==> traces[id] == old(traces[id]))
                && order == old(order) + (if span.traceId in old(traces) then [] else [span.traceId])
      ensures SpanKind(span) != "" ==>
                var before := if span.traceId in old(traces) then old(traces[span.traceId].Data()) else NewTraceData(span.traceId);
                traces[span.traceId].Data() == Effect(before, span, SpanKind(span), stepId, decode)
      ensures SpanKind(span) != "" && span.traceId !in old(traces) ==> fresh(traces[span.traceId])
      ensures raised.Some? <==> SpanKind(span) != "" && !IsRoot(span, SpanKind(span))
                                && StepOf(span, SpanKind(span), stepId, decode).Raised?
      ensures raised.Some? <==> SpanKind(span) == "LLM" && !IsRoot(span, "LLM") && LlmRaises(span)
    {
      var kind := SpanKind(span);
      if kind == "" {
        return None;
      }
      var trace := Register(span.traceId);
      if IsRoot(span, kind) {
        UpdateFromRoot(trace, span);
        return None;
      }
      var step := SpanToStep(span, kind, stepId, decode);
      if step.Raised? {
        return Some(step.message);
      }
      if step.value.Some? {
        trace.AddStep(step.value.value);
      }
      raised := None;
    }

    /** The trace filed under `id`, created and registered when missing. */
    method Register(id: string) returns (trace: Trace)
      requires Valid()
      modifies this
      ensures Valid() && id in traces && trace == traces[id]
      ensures id in old(traces) ==> traces == old(traces) && order == old(order)
      ensures id !in old(traces) ==> fresh(trace) && traces == old(traces)[id := trace]
                                     && order == old(order) + [id] && trace.Data() == NewTraceData(id)
    {
      if id !in traces {
        trace := new Trace(id, "", Some("openinference"), None);
        traces := traces[id := trace];
        order := order + [id];
      } else {
        trace := traces[id];
      }
    }

    /** `_update_trace_from_root_span`. */
    method UpdateFromRoot(trace: Trace, span: Span)
      modifies trace
      ensures trace.Data() == RootUpdated(old(trace.Data()), span)
    {
      trace.input := ShowOr(span.attrs, "input.value", trace.input);
      var output := Get(span.attrs, "output.value");
      trace.output := if output.Some? then Some(Show(output.value)) else None;
      trace.status := TraceStatusOf(span);
      trace.durationMs := Some(DurationOf(span));
      if "llm.system" in span.attrs {
        trace.framework := Some(Show(span.attrs["llm.system"]));
      }
    }

    /** `_span_to_step`, with the message extraction loop for LLM spans. */
    method SpanToStep(span: Span, kind: string, stepId: string, decode: string -> Json) returns (r: Result<Option<Step>>)
      ensures r == StepOf(span, kind, stepId, decode)
    {
      if kind == "LLM" {
        var s := ConvertLlm(span, stepId);
        if s.Raised? {
          return Raised(s.message);
        }
        return Ok(Some(s.value));
      } else if kind == "TOOL" {
        return Ok(Some(ToolStep(span, stepId, decode)));
      } else if IsRetrieval(kind) {
        return Ok(Some(RetrievalStep(span, kind, stepId)));
      } else if kind == "GUARDRAIL" {
        return Ok(Some(GuardrailStep(span, stepId)));
      } else if kind == "CHAIN" || kind == "AGENT" {
        return Ok(Some(ChainStep(span, stepId)));
      }
      return Ok(None);
    }

    /** `_convert_llm_span`. */
    method ConvertLlm(span: Span, stepId: string) returns (r: Result<Step>)
      ensures r == LlmStep(span, stepId)
    {
      var model := ModelAttr(span.attrs);
      var input := ExtractMessages(span.attrs, "input");
      var output := ExtractMessages(span.attrs, "output");
      var prompt := IntOf(span.attrs, "llm.token_count.prompt");
      if prompt.Raised? {
        return Raised(prompt.message);
      }
      var completion := IntOf(span.attrs, "llm.token_count.completion");
      if completion.Raised? {
        return Raised(completion.message);
      }
      var total := IntOf(span.attrs, "llm.token_count.total");
      if total.Raised? {
        return Raised(total.message);
      }
      if model.Some? && !model.value.TextAttr? {
        return Raised(ModelNotText);
      }
      r := Ok(Step(stepId, LlmCall, StepStatusOf(span), if model.Some? then Some(model.value.s) else None,
                   Some(input), Some(output), Some(TokenUsage(prompt.value, completion.value, total.value)),
                   None, None, None, None, None, ErrorOf(span), Some(DurationOf(span))));
    }

    /** `get_trace`. */
    function GetTrace(id: string): (t: Option<Trace>)
      reads this
      ensures t.Some? <==> id in traces
      ensures t.Some? ==> t.value == traces[id]
    {
      if id in traces then Some(traces[id]) else None
    }

    /** `get_latest_trace`: the trace of the id registered last. */
    function GetLatestTrace(): (t: Option<Trace>)
      reads this
      ensures order == [] ==> t == None
      ensures order != [] ==> t == GetTrace(order[|order| - 1])
    {
      if order != [] then GetTrace(order[|order| - 1]) else None
    }

    /** `get_all_traces`: in registration order, which under `Valid` loses none. */
    function GetAllTraces(): (ts: seq<Trace>)
      reads this
      ensures forall t :: t in ts ==> t in traces.Values
      ensures (forall id :: id in order ==> id in traces) ==>
                |ts| == |order| && forall k :: 0 <= k < |order| ==> ts[k] == traces[order[k]]
    {
      CollectAll(order, traces);
      Collect(order, traces)
    }

    /** `reset`. */
    method Reset()
      modifies this
      ensures Valid() && traces == map[] && order == []
    {
      traces := map[];
      order := [];
    }
  }
}
