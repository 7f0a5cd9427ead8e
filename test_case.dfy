/** Test cases: what an agent is asked in each turn and what is expected of it,
    the dictionary normalisation applied to loaded test-case documents, and
    suites of test cases. */
module TestCases {
  import opened Wrappers
  import opened Seqs
  import opened Text

  // ---------------------------------------------------------------------------
  // Loosely typed values (parsed YAML documents, grader parameters)
  // ---------------------------------------------------------------------------

  /** A Python value as found in a loaded document or a `params` dictionary,
      or one of the records that the normalisation puts in its place. */
  datatype Value =
    | Null
    | Boolean(b: bool)
    | Integer(i: int)
    | Decimal(r: real)
    | Str(s: string)
    | Items(items: seq<Value>)
    // `keys` lists the keys of `entries` once each, in insertion order.
    | Dict(entries: map<string, Value>, keys: seq<string>)
    | ExpectedRec(expected: ExpectedBehavior)
    | GraderRec(config: GraderConfig)
    | TurnRec(turn: Turn)
  {
    /** Python truthiness (`bool(v)`); records are always true. */
    predicate Truthy() {
      match this
      case Null => false
      case Boolean(b) => b
      case Integer(i) => i != 0
      case Decimal(r) => r != 0.0
      case Str(s) => s != ""
      case Items(xs) => xs != []
      case Dict(m, _) => m != map[]
      case _ => true
    }

    /** The name of the value's Python type, as error messages show it. */
    function TypeName(): string {
      match this
      case Null => "NoneType"
      case Boolean(_) => "bool"
      case Integer(_) => "int"
      case Decimal(_) => "float"
      case Str(_) => "str"
      case Items(_) => "list"
      case Dict(_, _) => "dict"
      case ExpectedRec(_) => "ExpectedBehavior"
      case GraderRec(_) => "GraderConfig"
      case TurnRec(_) => "Turn"
    }
  }

  /** The one-character strings of `s`, which is what iterating a Python string yields. */
  function Chars(s: string): (r: seq<Value>)
    ensures |r| == |s| && forall k :: 0 <= k < |s| ==> r[k] == Str([s[k]])
  {
    seq(|s|, k requires 0 <= k < |s| => Str([s[k]]))
  }

  /** `for x in v`: a list yields its items, a string its characters and a
      dictionary its keys, in insertion order; iterating a record or a scalar
      raises. */
  function Iterate(v: Value): (r: Result<seq<Value>>)
    ensures v.Items? ==> r == Ok(v.items)
    ensures v.Str? ==> r == Ok(Chars(v.s))
    ensures v.Dict? ==> r == Ok(StrList(v.keys).items)
    ensures r.Raised? <==> !(v.Items? || v.Str? || v.Dict?)
  {
    match v
    case Items(xs) => Ok(xs)
    case Str(s) => Ok(Chars(s))
    case Dict(_, ks) => Ok(StrList(ks).items)
    case _ => Raised("'" + v.TypeName() + "' object is not iterable")
  }

  /** The strings of a list whose items are all strings. */
  predicate AllStr(xs: seq<Value>) {
    forall k :: 0 <= k < |xs| ==> xs[k].Str?
  }

  function StrsOf(xs: seq<Value>): (r: seq<string>)
    requires AllStr(xs)
    ensures |r| == |xs| && forall k :: 0 <= k < |xs| ==> r[k] == xs[k].s
  {
    seq(|xs|, k requires 0 <= k < |xs| => xs[k].s)
  }

  /** The list of strings as a value. */
  function StrList(xs: seq<string>): (v: Value)
    ensures v.Items? && |v.items| == |xs| && AllStr(v.items) && StrsOf(v.items) == xs
  {
    Items(seq(|xs|, k requires 0 <= k < |xs| => Str(xs[k])))
  }

  // ---------------------------------------------------------------------------
  // Records
  // ---------------------------------------------------------------------------

  datatype ExpectedBehavior = ExpectedBehavior(
    toolsCalled: Option<seq<string>>,
    toolsNotCalled: Option<seq<string>>,
    toolCallOrder: Option<seq<string>>,
    outputContains: Option<seq<string>>,
    outputNotContains: Option<seq<string>>,
    outputEquals: Option<string>,
    outputMatches: Option<string>,
    maxSteps: Option<int>,
    minSteps: Option<int>,
    maxToolCalls: Option<int>,
    maxLlmCalls: Option<int>,
    taskCompleted: Option<bool>,
    custom: Option<map<string, Value>>)

  /** `ExpectedBehavior()`: every expectation absent. */
  const NoExpectations := ExpectedBehavior(None, None, None, None, None, None, None, None, None, None, None, None, None)

  datatype GraderConfig = GraderConfig(
    kind: string,
    params: map<string, Value>,
    prompt: Option<string>,
    model: Option<string>,
    threshold: Option<real>,
    moduleName: Option<string>,
    functionName: Option<string>)

  datatype Turn = Turn(user: string, expected: Option<ExpectedBehavior>, graders: seq<GraderConfig>)

  datatype EvalCase = EvalCase(
    name: string,
    description: Option<string>,
    turns: seq<Turn>,
    timeout: Option<real>,
    retries: Option<int>,
    tags: seq<string>,
    metadata: map<string, Value>,
    referenceOutput: Option<string>,
    referenceTools: Option<seq<string>>)
  {
    predicate IsMultiTurn() {
      |turns| > 1
    }

    /** `expected`: the first turn's expectations, or none at all. */
    function Expected(): (e: ExpectedBehavior)
      ensures turns != [] && turns[0].expected.Some? ==> e == turns[0].expected.value
      ensures turns == [] || turns[0].expected.None? ==> e == NoExpectations
    {
      if turns != [] && turns[0].expected.Some? then turns[0].expected.value else NoExpectations
    }

    /** `graders`: the first turn's grader configurations, or none. */
    function Graders(): (gs: seq<GraderConfig>)
      ensures turns != [] ==> gs == turns[0].graders
      ensures turns == [] ==> gs == []
    {
      if turns != [] then turns[0].graders else []
    }

    /** `input`: the first turn's user message, or the empty string. */
    function Input(): (s: string)
      ensures turns != [] ==> s == turns[0].user
      ensures turns == [] ==> s == ""
    {
      if turns != [] then turns[0].user else ""
    }
  }

  /** `EvalCase(name=n, turns=[turn])`, the case a single turn is graded against. */
  function SingleTurnCase(name: string, turn: Turn): (c: EvalCase)
    ensures c.name == name && c.turns == [turn] && c.Expected() == turn.expected.GetOr(NoExpectations)
    ensures c.Graders() == turn.graders && c.Input() == turn.user && !c.IsMultiTurn()
  {
    EvalCase(name, None, [turn], None, None, [], map[], None, None)
  }

  datatype EvalSuite = EvalSuite(
    name: string,
    description: Option<string>,
    testCases: seq<EvalCase>,
    defaults: map<string, Value>,
    tags: seq<string>)

  /** Whether a case carries at least one of the given tags. */
  predicate SharesTag(c: EvalCase, tags: seq<string>) {
    exists t :: t in tags && t in c.tags
  }

  function CasesWithTags(cases: seq<EvalCase>, tags: seq<string>): seq<EvalCase> {
    if cases == [] then []
    else (if SharesTag(cases[0], tags) then [cases[0]] else []) + CasesWithTags(cases[1..], tags)
  }

  lemma {:induction false} CasesWithTagsSpec(cases: seq<EvalCase>, tags: seq<string>)
    ensures forall c :: c in CasesWithTags(cases, tags) <==> c in cases && SharesTag(c, tags)
    ensures Subsequence(CasesWithTags(cases, tags), cases)
  {
    if cases != [] {
      CasesWithTagsSpec(cases[1..], tags);
      assert cases == [cases[0]] + cases[1..];
      var rest := CasesWithTags(cases[1..], tags);
      if SharesTag(cases[0], tags) {
        assert ([cases[0]] + rest)[1..] == rest;
      } else {
        assert CasesWithTags(cases, tags) == rest;
        if rest != [] {
          assert rest[0] in rest;
          assert rest[0] != cases[0];
        }
      }
    }
  }

  /** `filter_by_tags`: the cases sharing a tag with `tags`, in order; the
      suite's other fields are copied. */
  function FilterByTags(suite: EvalSuite, tags: seq<string>): (r: EvalSuite)
    ensures forall c :: c in r.testCases <==> c in suite.testCases && SharesTag(c, tags)
    ensures Subsequence(r.testCases, suite.testCases)
    ensures r.name == suite.name && r.description == suite.description
    ensures r.defaults == suite.defaults && r.tags == suite.tags
  {
    CasesWithTagsSpec(suite.testCases, tags);
    EvalSuite(suite.name, suite.description, CasesWithTags(suite.testCases, tags), suite.defaults, suite.tags)
  }

  // ---------------------------------------------------------------------------
  // Building records from dictionaries (field validation)
  // ---------------------------------------------------------------------------

  function Invalid(model: string, field: string): string {
    "1 validation error for " + model + ": " + field
  }

  function RequiredStr(d: map<string, Value>, model: string, key: string): Result<string> {
    if key in d && d[key].Str? then Ok(d[key].s) else Raised(Invalid(model, key))
  }

  function OptStr(d: map<string, Value>, model: string, key: string): Result<Option<string>> {
    if key !in d || d[key].Null? then Ok(None)
    else if d[key].Str? then Ok(Some(d[key].s))
    else Raised(Invalid(model, key))
  }

  function OptInt(d: map<string, Value>, model: string, key: string): Result<Option<int>> {
    if key !in d || d[key].Null? then Ok(None)
    else if d[key].Integer? then Ok(Some(d[key].i))
    else Raised(Invalid(model, key))
  }

  function OptReal(d: map<string, Value>, model: string, key: string): Result<Option<real>> {
    if key !in d || d[key].Null? then Ok(None)
    else if d[key].Integer? then Ok(Some(d[key].i as real))
    else if d[key].Decimal? then Ok(Some(d[key].r))
    else Raised(Invalid(model, key))
  }

  function OptBool(d: map<string, Value>, model: string, key: string): Result<Option<bool>> {
    if key !in d || d[key].Null? then Ok(None)
    else if d[key].Boolean? then Ok(Some(d[key].b))
    else Raised(Invalid(model, key))
  }

  function OptStrList(d: map<string, Value>, model: string, key: string): Result<Option<seq<string>>> {
    if key !in d || d[key].Null? then Ok(None)
    else if d[key].Items? && AllStr(d[key].items) then Ok(Some(StrsOf(d[key].items)))
    else Raised(Invalid(model, key))
  }

  /** A list-of-strings field whose default is the empty list: an absent
      key gives `[]`, while `None` is rejected like any other non-list. */
  function StrListOr(d: map<string, Value>, model: string, key: string): Result<seq<string>> {
    if key !in d then Ok([])
    else if d[key].Items? && AllStr(d[key].items) then Ok(StrsOf(d[key].items))
    else Raised(Invalid(model, key))
  }

  /** A dictionary field whose default is the empty dictionary: an absent
      key gives `{}`, while `None` is rejected like any other non-dictionary. */
  function DictOr(d: map<string, Value>, model: string, key: string): Result<map<string, Value>> {
    if key !in d then Ok(map[])
    else if d[key].Dict? then Ok(d[key].entries)
    else Raised(Invalid(model, key))
  }

  function OptDict(d: map<string, Value>, model: string, key: string): Result<Option<map<string, Value>>> {
    if key !in d || d[key].Null? then Ok(None)
    else if d[key].Dict? then Ok(Some(d[key].entries))
    else Raised(Invalid(model, key))
  }

  /** `ExpectedBehavior(**d)`; keys that are not fields are ignored. */
  function ExpectedFromDict(d: map<string, Value>): Result<ExpectedBehavior> {
    var m := "ExpectedBehavior";
    var toolsCalled :- OptStrList(d, m, "tools_called");
    var toolsNotCalled :- OptStrList(d, m, "tools_not_called");
    var toolCallOrder :- OptStrList(d, m, "tool_call_order");
    var outputContains :- OptStrList(d, m, "output_contains");
    var outputNotContains :- OptStrList(d, m, "output_not_contains");
    var outputEquals :- OptStr(d, m, "output_equals");
    var outputMatches :- OptStr(d, m, "output_matches");
    var maxSteps :- OptInt(d, m, "max_steps");
    var minSteps :- OptInt(d, m, "min_steps");
    var maxToolCalls :- OptInt(d, m, "max_tool_calls");
    var maxLlmCalls :- OptInt(d, m, "max_llm_calls");
    var taskCompleted :- OptBool(d, m, "task_completed");
    var custom :- OptDict(d, m, "custom");
    Ok(ExpectedBehavior(toolsCalled, toolsNotCalled, toolCallOrder, outputContains, outputNotContains,
                        outputEquals, outputMatches, maxSteps, minSteps, maxToolCalls, maxLlmCalls,
                        taskCompleted, custom))
  }

  /** `GraderConfig(**d)`: the type must be text; `params` defaults to the
      empty dictionary but rejects `None`. */
  function GraderFromDict(d: map<string, Value>): (r: Result<GraderConfig>)
    ensures ("type" !in d || !d["type"].Str?) ==> r.Raised?
    ensures "params" in d && !d["params"].Dict? ==> r.Raised?
    ensures r.Ok? ==> "type" in d && d["type"] == Str(r.value.kind)
    ensures r.Ok? ==> r.value.params == (if "params" in d then d["params"].entries else map[])
  {
    var m := "GraderConfig";
    var kind :- RequiredStr(d, m, "type");
    var params :- DictOr(d, m, "params");
    var prompt :- OptStr(d, m, "prompt");
    var model :- OptStr(d, m, "model");
    var threshold :- OptReal(d, m, "threshold");
    var moduleName :- OptStr(d, m, "module");
    var functionName :- OptStr(d, m, "function");
    Ok(GraderConfig(kind, params, prompt, model, threshold, moduleName, functionName))
  }

  /** A grader entry of a turn, as the turn's validation accepts it. */
  function GraderOf(v: Value): Result<GraderConfig> {
    match v
    case GraderRec(g) => Ok(g)
    case Dict(d, _) => GraderFromDict(d)
    case _ => Raised(Invalid("Turn", "graders"))
  }

  function GradersOf(xs: seq<Value>): Result<seq<GraderConfig>> {
    if xs == [] then Ok([])
    else
      var g :- GraderOf(xs[0]);
      var rest :- GradersOf(xs[1..]);
      Ok([g] + rest)
  }

  /** `Turn(**d)`. */
  function TurnFromDict(d: map<string, Value>): Result<Turn> {
    var user :- RequiredStr(d, "Turn", "user");
    var expected :- if "expected" !in d || d["expected"].Null? then Ok(None)
                    else if d["expected"].ExpectedRec? then Ok(Some(d["expected"].expected))
                    else if d["expected"].Dict? then
                      var e :- ExpectedFromDict(d["expected"].entries); Ok(Some(e))
                    else Raised(Invalid("Turn", "expected"));
    var graders :- if "graders" !in d then Ok([])
                   else if d["graders"].Items? then GradersOf(d["graders"].items)
                   else Raised(Invalid("Turn", "graders"));
    Ok(Turn(user, expected, graders))
  }

  function TurnOf(v: Value): Result<Turn> {
    match v
    case TurnRec(t) => Ok(t)
    case Dict(d, _) => TurnFromDict(d)
    case _ => Raised(Invalid("EvalCase", "turns"))
  }

  function TurnsOf(xs: seq<Value>): (r: Result<seq<Turn>>)
    ensures r.Ok? ==> |r.value| == |xs|
  {
    if xs == [] then Ok([])
    else
      var t :- TurnOf(xs[0]);
      var rest :- TurnsOf(xs[1..]);
      Ok([t] + rest)
  }

  /** `EvalCase(**d)`: the name must be text; `tags` and `metadata` default to
      empty but reject `None`; `turns` must be a list of valid turns. */
  function CaseFromDict(d: map<string, Value>): (r: Result<EvalCase>)
    ensures ("name" !in d || !d["name"].Str?) ==> r.Raised?
    ensures "turns" in d && !d["turns"].Items? ==> r.Raised?
    ensures "tags" in d && !(d["tags"].Items? && AllStr(d["tags"].items)) ==> r.Raised?
    ensures "metadata" in d && !d["metadata"].Dict? ==> r.Raised?
    ensures r.Ok? ==> "name" in d && d["name"] == Str(r.value.name)
    ensures r.Ok? ==> ("turns" !in d ==> r.value.turns == [])
                      && ("turns" in d ==> d["turns"].Items? && TurnsOf(d["turns"].items) == Ok(r.value.turns))
    ensures r.Ok? ==> ("tags" !in d ==> r.value.tags == [])
                      && ("tags" in d ==> d["tags"].Items? && AllStr(d["tags"].items)
                                          && StrsOf(d["tags"].items) == r.value.tags)
    ensures r.Ok? ==> r.value.metadata == (if "metadata" in d then d["metadata"].entries else map[])
  {
    var m := "EvalCase";
    var name :- RequiredStr(d, m, "name");
    var description :- OptStr(d, m, "description");
    var turns :- if "turns" !in d then Ok([])
                 else if d["turns"].Items? then TurnsOf(d["turns"].items)
                 else Raised(Invalid(m, "turns"));
    var timeout :- OptReal(d, m, "timeout");
    var retries :- OptInt(d, m, "retries");
    var tags :- StrListOr(d, m, "tags");
    var metadata :- DictOr(d, m, "metadata");
    var referenceOutput :- OptStr(d, m, "reference_output");
    var referenceTools :- OptStrList(d, m, "reference_tools");
    Ok(EvalCase(name, description, turns, timeout, retries, tags, metadata, referenceOutput, referenceTools))
  }

  // ---------------------------------------------------------------------------
  // Normalisation of a loaded test-case document (`_from_dict`)
  // ---------------------------------------------------------------------------

  /** The older single-turn layout: top-level `input`, `expected` and
      `graders` move into one turn `{user, expected?, graders?}`. */
  function UpgradeLegacy(data: map<string, Value>): (r: map<string, Value>)
    ensures "input" in data && "turns" !in data ==>
              "input" !in r && "expected" !in r && "graders" !in r && "turns" in r
              && r["turns"] == Items([Dict(LegacyTurn(data), LegacyKeys(data))])
              && forall k :: k in data && k !in {"input", "expected", "graders"} ==> k in r && r[k] == data[k]
    ensures !("input" in data && "turns" !in data) ==> r == data
  {
    if "input" in data && "turns" !in data then
      data - {"input", "expected", "graders"} + map["turns" := Items([Dict(LegacyTurn(data), LegacyKeys(data))])]
    else data
  }

  function LegacyTurn(data: map<string, Value>): (t: map<string, Value>)
    requires "input" in data
    ensures t.Keys == {"user"} + (if "expected" in data then {"expected"} else {})
                               + (if "graders" in data then {"graders"} else {})
    ensures t["user"] == data["input"]
    ensures "expected" in data ==> t["expected"] == data["expected"]
    ensures "graders" in data ==> t["graders"] == data["graders"]
  {
    var t := map["user" := data["input"]];
    var t := if "expected" in data then t["expected" := data["expected"]] else t;
    if "graders" in data then t["graders" := data["graders"]] else t
  }

  /** The keys of the legacy turn in the order the source inserts them. */
  function LegacyKeys(data: map<string, Value>): (ks: seq<string>)
    ensures forall k :: k in ks <==> k == "user" || (k in {"expected", "graders"} && k in data)
  {
    ["user"] + (if "expected" in data then ["expected"] else []) + (if "graders" in data then ["graders"] else [])
  }

  /** One grader entry after normalisation: dictionaries become records, other values pass through. */
  function NormalizeGrader(v: Value): Result<Value> {
    if v.Dict? then var g :- GraderFromDict(v.entries); Ok(GraderRec(g)) else Ok(v)
  }

  function NormalizeGraders(xs: seq<Value>): Result<seq<Value>> {
    if xs == [] then Ok([])
    else
      var g :- NormalizeGrader(xs[0]);
      var rest :- NormalizeGraders(xs[1..]);
      Ok([g] + rest)
  }

  /** The `turn` dictionary after its `expected` and `graders` entries are converted. */
  function NormalizeTurnDict(t: map<string, Value>): Result<map<string, Value>> {
    var t :- if "expected" in t && t["expected"].Dict? then
               var e :- ExpectedFromDict(t["expected"].entries); Ok(t["expected" := ExpectedRec(e)])
             else Ok(t);
    if "graders" in t then
      var xs :- Iterate(t["graders"]);
      var gs :- NormalizeGraders(xs);
      Ok(t["graders" := Items(gs)])
    else Ok(t)
  }

  /** One turn entry after normalisation: dictionaries become `Turn` records, other values pass through. */
  function NormalizeTurn(v: Value): Result<Value> {
    if v.Dict? then
      var t :- NormalizeTurnDict(v.entries);
      var turn :- TurnFromDict(t);
      Ok(TurnRec(turn))
    else Ok(v)
  }

  function NormalizeTurns(xs: seq<Value>): (r: Result<seq<Value>>)
    ensures r.Ok? ==> |r.value| == |xs|
  {
    if xs == [] then Ok([])
    else
      var t :- NormalizeTurn(xs[0]);
      var rest :- NormalizeTurns(xs[1..]);
      Ok([t] + rest)
  }

  /** The whole of `_from_dict`: upgrade, normalise the turns, validate. */
  function CaseFromDocument(data: map<string, Value>): (r: Result<EvalCase>)
    ensures var d := UpgradeLegacy(data); ("name" !in d || !d["name"].Str?) ==> r.Raised?
    ensures var d := UpgradeLegacy(data); "turns" in d && Iterate(d["turns"]).Raised? ==> r.Raised?
    ensures r.Ok? ==> "name" in data && data["name"] == Str(r.value.name)
    ensures var d := UpgradeLegacy(data);
            r.Ok? && "turns" in d ==> Iterate(d["turns"]).Ok? && |r.value.turns| == |Iterate(d["turns"]).value|
    ensures "input" in data && "turns" !in data && r.Ok? ==> |r.value.turns| == 1
    ensures "turns" !in UpgradeLegacy(data) ==> r == CaseFromDict(data)
  {
    var d := UpgradeLegacy(data);
    var d :- if "turns" in d then
               var xs :- Iterate(d["turns"]);
               var ts :- NormalizeTurns(xs);
               Ok(d["turns" := Items(ts)])
             else Ok(d);
    CaseFromDict(d)
  }

  /** Normalisation succeeds on a list exactly when it succeeds on every item,
      and then it keeps the length and order and converts item by item. */
  lemma {:induction false} NormalizeTurnsItemwise(xs: seq<Value>)
    ensures NormalizeTurns(xs).Ok? <==> forall k :: 0 <= k < |xs| ==> NormalizeTurn(xs[k]).Ok?
    ensures NormalizeTurns(xs).Ok? ==>
              |NormalizeTurns(xs).value| == |xs|
              && forall k :: 0 <= k < |xs| ==> NormalizeTurns(xs).value[k] == NormalizeTurn(xs[k]).value
  {
    if xs != [] {
      NormalizeTurnsItemwise(xs[1..]);
      if NormalizeTurn(xs[0]).Ok? && NormalizeTurns(xs[1..]).Ok? {
        var rest := NormalizeTurns(xs[1..]).value;
        assert NormalizeTurns(xs).value == [NormalizeTurn(xs[0]).value] + rest;
        forall k | 0 <= k < |xs| ensures NormalizeTurns(xs).value[k] == NormalizeTurn(xs[k]).value {
          if k > 0 {
            assert NormalizeTurns(xs).value[k] == rest[k - 1];
            assert xs[k] == xs[1..][k - 1];
          }
        }
      } else if NormalizeTurn(xs[0]).Ok? {
        var k :| 0 <= k < |xs[1..]| && !NormalizeTurn(xs[1..][k]).Ok?;
        assert xs[1..][k] == xs[k + 1];
      }
    }
  }

  /** Entries that are not dictionaries pass through the normalisation unchanged. */
  lemma NonDictPassesThrough(v: Value)
    requires !v.Dict?
    ensures NormalizeTurn(v) == Ok(v) && NormalizeGrader(v) == Ok(v)
  {
  }

  /** `_from_dict`, as the source writes it: a loop over the turns, and for each
      dictionary turn a loop over its graders, mutating the document. */
  method FromDict(data: map<string, Value>) returns (r: Result<EvalCase>)
    ensures r == CaseFromDocument(data)
  {
    var d := UpgradeLegacy(data);
    if "turns" in d {
      var source := Iterate(d["turns"]);
      if source.Raised? {
        return Raised(source.message);
      }
      var items := source.value;
      var turns: seq<Value> := [];
      var i := 0;
      while i < |items|
        invariant 0 <= i <= |items|
        invariant NormalizeTurns(items[..i]) == Ok(turns)
      {
        var item := items[i];
        var converted := item;
        if item.Dict? {
          var t := NormalizeTurnDict(item.entries);
          if t.Raised? {
            NormalizeTurnsPrefix(items, i, turns);
            return Raised(t.message);
          }
          var turn := TurnFromDict(t.value);
          if turn.Raised? {
            NormalizeTurnsPrefix(items, i, turns);
            return Raised(turn.message);
          }
          converted := TurnRec(turn.value);
        }
        NormalizeTurnsExtend(items, i, turns, converted);
        turns := turns + [converted];
        i := i + 1;
      }
      assert items[..i] == items;
      d := d["turns" := Items(turns)];
    }
    r := CaseFromDict(d);
  }

  lemma {:induction false} NormalizeTurnsSnoc(xs: seq<Value>, x: Value)
    ensures NormalizeTurns(xs + [x]) ==
              if NormalizeTurns(xs).Raised? then NormalizeTurns(xs)
              else if NormalizeTurn(x).Raised? then Raised(NormalizeTurn(x).message)
              else Ok(NormalizeTurns(xs).value + [NormalizeTurn(x).value])
  {
    if xs == [] {
      assert [x][1..] == [];
      assert xs + [x] == [x];
      if NormalizeTurn(x).Ok? {
        assert [NormalizeTurn(x).value] + [] == [] + [NormalizeTurn(x).value];
      }
    } else {
      assert (xs + [x])[0] == xs[0];
      assert (xs + [x])[1..] == xs[1..] + [x];
      var h := NormalizeTurn(xs[0]);
      if h.Ok? {
        NormalizeTurnsSnoc(xs[1..], x);
        var tail := NormalizeTurns(xs[1..]);
        if tail.Ok? && NormalizeTurn(x).Ok? {
          assert [h.value] + (tail.value + [NormalizeTurn(x).value])
              == ([h.value] + tail.value) + [NormalizeTurn(x).value];
        }
      }
    }
  }

  lemma NormalizeTurnsExtend(items: seq<Value>, i: nat, turns: seq<Value>, converted: Value)
    requires i < |items| && NormalizeTurns(items[..i]) == Ok(turns)
    requires NormalizeTurn(items[i]) == Ok(converted)
    ensures NormalizeTurns(items[..i + 1]) == Ok(turns + [converted])
  {
    assert items[..i + 1] == items[..i] + [items[i]];
    NormalizeTurnsSnoc(items[..i], items[i]);
  }

  /** Once an item fails to normalise, the whole list does, with that item's error. */
  lemma NormalizeTurnsPrefix(items: seq<Value>, i: nat, turns: seq<Value>)
    requires i < |items| && NormalizeTurns(items[..i]) == Ok(turns)
    requires NormalizeTurn(items[i]).Raised?
    ensures NormalizeTurns(items) == Raised(NormalizeTurn(items[i]).message)
  {
    NormalizeTurnsUpTo(items, i);
    NormalizeTurnsFailedPrefix(items, i + 1);
  }

  lemma NormalizeTurnsUpTo(items: seq<Value>, i: nat)
    requires i < |items| && NormalizeTurns(items[..i]).Ok? && NormalizeTurn(items[i]).Raised?
    ensures NormalizeTurns(items[..i + 1]) == Raised(NormalizeTurn(items[i]).message)
  {
    assert items[..i + 1] == items[..i] + [items[i]];
    NormalizeTurnsSnocFails(items[..i], items[i]);
  }

  lemma NormalizeTurnsSnocFails(xs: seq<Value>, x: Value)
    requires NormalizeTurns(xs).Ok? && NormalizeTurn(x).Raised?
    ensures NormalizeTurns(xs + [x]) == Raised(NormalizeTurn(x).message)
  {
    NormalizeTurnsSnoc(xs, x);
  }

  lemma {:induction false} NormalizeTurnsFailedPrefix(items: seq<Value>, n: nat)
    requires n <= |items| && NormalizeTurns(items[..n]).Raised?
    ensures NormalizeTurns(items) == NormalizeTurns(items[..n])
    decreases |items| - n
  {
    if n == |items| {
      assert items[..n] == items;
    } else {
      assert items[..n + 1] == items[..n] + [items[n]];
      NormalizeTurnsSnoc(items[..n], items[n]);
      NormalizeTurnsFailedPrefix(items, n + 1);
    }
  }

  // ---------------------------------------------------------------------------
  // Loading a directory of test cases
  // ---------------------------------------------------------------------------

  /** The file names a glob `*<ext>` keeps, minus those starting with `_`. */
  function CaseFiles(names: seq<string>, ext: string): seq<string> {
    if names == [] then []
    else (if EndsWith(names[0], ext) && !StartsWith(names[0], "_") then [names[0]] else [])
         + CaseFiles(names[1..], ext)
  }

  lemma {:induction false} CaseFilesMembers(names: seq<string>, ext: string)
    ensures forall n :: n in CaseFiles(names, ext) <==> n in names && EndsWith(n, ext) && !StartsWith(n, "_")
  {
    if names != [] {
      CaseFilesMembers(names[1..], ext);
      assert names == [names[0]] + names[1..];
    }
  }

  /** The files `from_directory` loads, in load order: sorted `*.yaml` names,
      then sorted `*.yml` names, skipping names that start with `_`. */
  function LoadOrder(names: seq<string>): seq<string> {
    SortStrings(CaseFiles(names, ".yaml")) + SortStrings(CaseFiles(names, ".yml"))
  }

  lemma LoadOrderSpec(names: seq<string>)
    ensures var order := LoadOrder(names);
            var yaml := SortStrings(CaseFiles(names, ".yaml"));
            order == yaml + SortStrings(CaseFiles(names, ".yml"))
            && Sorted(yaml) && Sorted(order[|yaml|..])
            && forall n :: n in order <==>
                 n in names && !StartsWith(n, "_") && (EndsWith(n, ".yaml") || EndsWith(n, ".yml"))
  {
    var yaml := CaseFiles(names, ".yaml");
    var yml := CaseFiles(names, ".yml");
    SortStringsSorted(yaml);
    SortStringsSorted(yml);
    CaseFilesMembers(names, ".yaml");
    CaseFilesMembers(names, ".yml");
    var order := LoadOrder(names);
    assert order[|SortStrings(yaml)|..] == SortStrings(yml);
    forall n ensures n in order <==> n in names && !StartsWith(n, "_") && (EndsWith(n, ".yaml") || EndsWith(n, ".yml")) {
      assert n in SortStrings(yaml) <==> n in multiset(SortStrings(yaml));
      assert n in SortStrings(yml) <==> n in multiset(SortStrings(yml));
    }
  }

  /** The cases loaded from `files` in order, or the first load error. */
  function LoadAll(path: string, files: seq<string>, load: string -> Result<EvalCase>): Result<seq<EvalCase>> {
    if files == [] then Ok([])
    else
      var c := load(files[0]);
      if c.Raised? then Raised("Failed to load " + path + "/" + files[0] + ": " + c.message)
      else
        var rest :- LoadAll(path, files[1..], load);
        Ok([c.value] + rest)
  }

  /** The loading loop of `from_directory`: each file in order, stopping at
      the first that fails to load. */
  method LoadCases(path: string, files: seq<string>, load: string -> Result<EvalCase>)
    returns (r: Result<seq<EvalCase>>)
    ensures r == LoadAll(path, files, load)
  {
    var cases: seq<EvalCase> := [];
    var i := 0;
    assert files[0..] == files;
    if LoadAll(path, files, load).Ok? {
      assert cases + LoadAll(path, files, load).value == LoadAll(path, files, load).value;
    }
    while i < |files|
      invariant 0 <= i <= |files|
      invariant LoadAll(path, files, load) ==
                  match LoadAll(path, files[i..], load)
                  case Ok(rest) => Ok(cases + rest)
                  case Raised(m) => Raised(m)
    {
      assert files[i..][1..] == files[i + 1..];
      var c := load(files[i]);
      if c.Raised? {
        return Raised("Failed to load " + path + "/" + files[i] + ": " + c.message);
      }
      var tail := LoadAll(path, files[i + 1..], load);
      if tail.Ok? {
        assert LoadAll(path, files[i..], load) == Ok([c.value] + tail.value);
        assert cases + ([c.value] + tail.value) == (cases + [c.value]) + tail.value;
      }
      cases := cases + [c.value];
      i := i + 1;
    }
    assert files[i..] == [] && cases + [] == cases;
    r := Ok(cases);
  }

  /** `from_directory`: `names` are the directory's entries and `load` reads
      and parses one file (both I/O, here parameters). */
  method FromDirectory(path: string, baseName: string, isDir: bool, names: seq<string>,
                       name: Option<string>, load: string -> Result<EvalCase>)
    returns (r: Result<EvalSuite>)
    ensures !isDir ==> r == Raised("Path is not a directory: " + path)
    ensures isDir ==> match LoadAll(path, LoadOrder(names), load)
                      case Ok(cases) =>
                        r.Ok? && r.value.testCases == cases && r.value.description.None?
                        && r.value.defaults == map[] && r.value.tags == []
                        && r.value.name == (if name.Some? && name.value != "" then name.value else baseName)
                      case Raised(m) => r == Raised(m)
  {
    if !isDir {
      return Raised("Path is not a directory: " + path);
    }
    var loaded := LoadCases(path, LoadOrder(names), load);
    if loaded.Raised? {
      return Raised(loaded.message);
    }
    var suiteName := if name.Some? && name.value != "" then name.value else baseName;
    r := Ok(EvalSuite(suiteName, None, loaded.value, map[], []));
  }
}
