/** The deterministic graders: output containment and exclusion, equality up
    to whitespace, tool-set membership and exclusion, tool-call order, count
    bounds and task completion. */
module CodeGraders {
  import opened Wrappers
  import opened Seqs
  import opened Text
  import opened Traces
  import opened Results
  import opened TestCases

  /** What `trace.output` shows in a grade's `actual` slot. */
  function OutputShown(output: Option<string>): Shown {
    if output.Some? then Shown.Text(output.value) else Nothing
  }

  /** `str(status)` of a trace status (members render as `TraceStatus.NAME`). */
  function StatusText(s: TraceStatus): string {
    match s
    case Success => "TraceStatus.SUCCESS"
    case Failure => "TraceStatus.FAILURE"
    case Timeout => "TraceStatus.TIMEOUT"
    case Error => "TraceStatus.ERROR"
  }

  function BoolText(b: bool): string {
    if b then "True" else "False"
  }

  /** A grader value whose items could not all be used as strings: the
      error that the first such item raises. */
  function FirstNonStr(items: seq<Value>, caseSensitive: bool): (m: string)
    requires !AllStr(items)
  {
    if !items[0].Str? then
      if caseSensitive then "'in <string>' requires string as left operand, not " + items[0].TypeName()
      else "'" + items[0].TypeName() + "' object has no attribute 'lower'"
    else FirstNonStr(items[1..], caseSensitive)
  }

  /** The text a value is compared in: lower-cased unless matching is case-sensitive. */
  function Folded(s: string, caseSensitive: bool): string {
    if caseSensitive then s else Lower(s)
  }

  // ---------------------------------------------------------------------------
  // Containment
  // ---------------------------------------------------------------------------

  /** The values that do not occur in `content` (already folded), in input order. */
  function Missing(values: seq<string>, content: string, caseSensitive: bool): seq<string> {
    if values == [] then []
    else (if !IsSubstring(Folded(values[0], caseSensitive), content) then [values[0]] else [])
         + Missing(values[1..], content, caseSensitive)
  }

  /** The values that do occur in `content` (already folded), in input order. */
  function Found(values: seq<string>, content: string, caseSensitive: bool): seq<string> {
    if values == [] then []
    else (if IsSubstring(Folded(values[0], caseSensitive), content) then [values[0]] else [])
         + Found(values[1..], content, caseSensitive)
  }

  lemma {:induction false} MissingSpec(values: seq<string>, content: string, cs: bool)
    ensures forall v :: v in Missing(values, content, cs) <==> v in values && !IsSubstring(Folded(v, cs), content)
    ensures Subsequence(Missing(values, content, cs), values)
  {
    if values != [] {
      MissingSpec(values[1..], content, cs);
      assert values == [values[0]] + values[1..];
      var rest := Missing(values[1..], content, cs);
      if !IsSubstring(Folded(values[0], cs), content) {
        assert ([values[0]] + rest)[1..] == rest;
      } else {
        assert Missing(values, content, cs) == rest;
        if rest != [] {
          assert rest[0] in rest;
          assert rest[0] != values[0];
        }
      }
    }
  }

  lemma {:induction false} FoundSpec(values: seq<string>, content: string, cs: bool)
    ensures forall v :: v in Found(values, content, cs) <==> v in values && IsSubstring(Folded(v, cs), content)
    ensures Subsequence(Found(values, content, cs), values)
  {
    if values != [] {
      FoundSpec(values[1..], content, cs);
      assert values == [values[0]] + values[1..];
      var rest := Found(values[1..], content, cs);
      if IsSubstring(Folded(values[0], cs), content) {
        assert ([values[0]] + rest)[1..] == rest;
      } else {
        assert Found(values, content, cs) == rest;
        if rest != [] {
          assert rest[0] in rest;
          assert rest[0] != values[0];
        }
      }
    }
  }

  lemma MissingAppend(values: seq<string>, v: string, content: string, cs: bool)
    ensures Missing(values + [v], content, cs) ==
            Missing(values, content, cs) + (if !IsSubstring(Folded(v, cs), content) then [v] else [])
  {
    MissingAppendRec(values, v, content, cs);
  }

  lemma {:induction false} MissingAppendRec(values: seq<string>, v: string, content: string, cs: bool)
    ensures Missing(values + [v], content, cs) ==
            Missing(values, content, cs) + (if !IsSubstring(Folded(v, cs), content) then [v] else [])
  {
    if values == [] {
      assert values + [v] == [v];
      assert [v][1..] == [];
    } else {
      var w := values + [v];
      assert w[0] == values[0] && w[1..] == values[1..] + [v];
      MissingAppendRec(values[1..], v, content, cs);
      var head := if !IsSubstring(Folded(values[0], cs), content) then [values[0]] else [];
      var tail := if !IsSubstring(Folded(v, cs), content) then [v] else [];
      assert Missing(w, content, cs) == head + Missing(values[1..] + [v], content, cs);
      assert head + (Missing(values[1..], content, cs) + tail) == (head + Missing(values[1..], content, cs)) + tail;
    }
  }

  lemma {:induction false} FoundAppend(values: seq<string>, v: string, content: string, cs: bool)
    ensures Found(values + [v], content, cs) ==
            Found(values, content, cs) + (if IsSubstring(Folded(v, cs), content) then [v] else [])
  {
    if values == [] {
      assert values + [v] == [v];
      assert [v][1..] == [];
    } else {
      var w := values + [v];
      assert w[0] == values[0] && w[1..] == values[1..] + [v];
      FoundAppend(values[1..], v, content, cs);
      var head := if IsSubstring(Folded(values[0], cs), content) then [values[0]] else [];
      var tail := if IsSubstring(Folded(v, cs), content) then [v] else [];
      assert Found(w, content, cs) == head + Found(values[1..] + [v], content, cs);
      assert head + (Found(values[1..], content, cs) + tail) == (head + Found(values[1..], content, cs)) + tail;
    }
  }

  /** The missing-value scan of `ContainsGrader.grade`. */
  method CollectMissing(values: seq<string>, content: string, caseSensitive: bool) returns (missing: seq<string>)
    ensures missing == Missing(values, content, caseSensitive)
  {
    missing := [];
    var i := 0;
    while i < |values|
      invariant 0 <= i <= |values|
      invariant missing == Missing(values[..i], content, caseSensitive)
    {
      MissingAppend(values[..i], values[i], content, caseSensitive);
      assert values[..i + 1] == values[..i] + [values[i]];
      var check := if caseSensitive then values[i] else Lower(values[i]);
      if !IsSubstring(check, content) {
        missing := missing + [values[i]];
      }
      i := i + 1;
    }
    assert values[..i] == values;
  }

  /** The forbidden-value scan of `NotContainsGrader.grade`. */
  method CollectFound(values: seq<string>, content: string, caseSensitive: bool) returns (found: seq<string>)
    ensures found == Found(values, content, caseSensitive)
  {
    found := [];
    var i := 0;
    while i < |values|
      invariant 0 <= i <= |values|
      invariant found == Found(values[..i], content, caseSensitive)
    {
      FoundAppend(values[..i], values[i], content, caseSensitive);
      assert values[..i + 1] == values[..i] + [values[i]];
      var check := if caseSensitive then values[i] else Lower(values[i]);
      if IsSubstring(check, content) {
        found := found + [values[i]];
      }
      i := i + 1;
    }
    assert values[..i] == values;
  }

  /** `ContainsGrader(values, field, case_sensitive)`: the arguments are kept
      as given (they may come from a configuration's `params`). */
  datatype ContainsGrader = ContainsGrader(values: Value, field: Value, caseSensitive: Value)

  const DefaultContains := ContainsGrader(Null, Str("output"), Boolean(false))

  /** `ContainsGrader(**params)`. */
  function ContainsFromParams(params: map<string, Value>): (r: Result<ContainsGrader>)
    ensures r.Ok? <==> params.Keys <= {"values", "field", "case_sensitive"}
    ensures r.Ok? ==> r.value.values == (if "values" in params then params["values"] else Null)
  {
    if !(params.Keys <= {"values", "field", "case_sensitive"}) then
      Raised("ContainsGrader.__init__() got an unexpected keyword argument")
    else
      Ok(ContainsGrader(
        if "values" in params then params["values"] else Null,
        if "field" in params then params["field"] else Str("output"),
        if "case_sensitive" in params then params["case_sensitive"] else Boolean(false)))
  }

  /** What a grader reports as the values it was given. */
  function ValuesShown(v: Value, strs: seq<string>): Shown {
    if v.Str? then Shown.Text(v.s) else Texts(strs)
  }

  /** `ContainsGrader.grade`. */
  function ContainsGrade(g: ContainsGrader, trace: TraceData, tc: EvalCase): (r: Result<GradeResult>)
    ensures r.Ok? ==> r.value.graderName == "contains" && r.value.status in {Pass, Fail}
    ensures var values := if g.values.Null? then StrList(tc.Expected().outputContains.GetOr([])) else g.values;
            r.Raised? <==> values.Truthy() && (Iterate(values).Raised? || !AllStr(Iterate(values).value))
  {
    var values := if g.values.Null? then StrList(tc.Expected().outputContains.GetOr([])) else g.values;
    if !values.Truthy() then Ok(PassedResult("contains", Some("No values to check")))
    else
      var items :- Iterate(values);
      var cs := g.caseSensitive.Truthy();
      if !AllStr(items) then Raised(FirstNonStr(items, cs))
      else
        var strs := StrsOf(items);
        var content := Folded(trace.output.GetOr(""), cs);
        var missing := Missing(strs, content, cs);
        if missing != [] then
          Ok(FailedResult("contains", "Missing values in output: " + ReprList(missing),
                          ValuesShown(values, strs), OutputShown(trace.output)))
        else
          Ok(PassedResult("contains", Some("All " + NatToString(|strs|) + " values found in output")))
  }

  /** The grade computed as the source does, with the scan as a loop. */
  method ContainsGradeMethod(g: ContainsGrader, trace: TraceData, tc: EvalCase) returns (r: Result<GradeResult>)
    ensures r == ContainsGrade(g, trace, tc)
  {
    var values := if g.values.Null? then StrList(tc.Expected().outputContains.GetOr([])) else g.values;
    if !values.Truthy() {
      return Ok(PassedResult("contains", Some("No values to check")));
    }
    var items := Iterate(values);
    if items.Raised? {
      return Raised(items.message);
    }
    var cs := g.caseSensitive.Truthy();
    if !AllStr(items.value) {
      return Raised(FirstNonStr(items.value, cs));
    }
    var strs := StrsOf(items.value);
    var content := trace.output.GetOr("");
    if !cs {
      content := Lower(content);
    }
    var missing := CollectMissing(strs, content, cs);
    if missing != [] {
      r := Ok(FailedResult("contains", "Missing values in output: " + ReprList(missing),
                           ValuesShown(values, strs), OutputShown(trace.output)));
    } else {
      r := Ok(PassedResult("contains", Some("All " + NatToString(|strs|) + " values found in output")));
    }
  }

  /** With string values, the containment grade passes exactly when every
      value occurs in the output (both folded unless case-sensitive); an
      absent output counts as empty. Values of its own override the
      expectation, and no values at all pass. */
  lemma ContainsPassesIff(g: ContainsGrader, trace: TraceData, tc: EvalCase, strs: seq<string>)
    requires g.values.Null? ==> strs == tc.Expected().outputContains.GetOr([])
    requires !g.values.Null? ==> g.values == StrList(strs)
    ensures ContainsGrade(g, trace, tc).Ok?
    ensures ContainsGrade(g, trace, tc).value.status == Pass <==>
              forall v :: v in strs ==>
                IsSubstring(Folded(v, g.caseSensitive.Truthy()), Folded(trace.output.GetOr(""), g.caseSensitive.Truthy()))
    ensures ContainsGrade(g, trace, tc).value.status in {Pass, Fail}
  {
    var cs := g.caseSensitive.Truthy();
    var values := StrList(strs);
    assert values == (if g.values.Null? then StrList(tc.Expected().outputContains.GetOr([])) else g.values);
    var content := Folded(trace.output.GetOr(""), cs);
    MissingSpec(strs, content, cs);
    var missing := Missing(strs, content, cs);
    if strs == [] {
      assert !values.Truthy();
    } else {
      assert values.Truthy();
      assert Iterate(values) == Ok(values.items);
      assert StrsOf(values.items) == strs;
      if missing != [] {
        assert missing[0] in missing;
      }
    }
  }

  /** A non-empty dictionary of values is checked by its keys, as iterating
      it in Python yields them. */
  lemma ContainsDictKeys(g: ContainsGrader, trace: TraceData, tc: EvalCase)
    requires g.values.Dict? && g.values.entries != map[]
    ensures ContainsGrade(g, trace, tc).Ok?
    ensures ContainsGrade(g, trace, tc).value.status == Pass <==>
              forall k :: k in g.values.keys ==>
                IsSubstring(Folded(k, g.caseSensitive.Truthy()), Folded(trace.output.GetOr(""), g.caseSensitive.Truthy()))
  {
    var cs := g.caseSensitive.Truthy();
    var ks := g.values.keys;
    var content := Folded(trace.output.GetOr(""), cs);
    assert StrsOf(Iterate(g.values).value) == ks;
    MissingSpec(ks, content, cs);
    var missing := Missing(ks, content, cs);
    if missing != [] {
      assert missing[0] in missing;
    }
  }

  /** `NotContainsGrader(values, field, case_sensitive)`. */
  datatype NotContainsGrader = NotContainsGrader(values: Option<seq<string>>, caseSensitive: bool)

  /** `NotContainsGrader.grade`. */
  function NotContainsGrade(g: NotContainsGrader, trace: TraceData, tc: EvalCase): (r: GradeResult)
    ensures r.status in {Pass, Fail}
  {
    var values := if g.values.Some? then g.values.value else tc.Expected().outputNotContains.GetOr([]);
    if values == [] then PassedResult("not_contains", Some("No values to check"))
    else
      var content := Folded(trace.output.GetOr(""), g.caseSensitive);
      var found := Found(values, content, g.caseSensitive);
      if found != [] then
        FailedResult("not_contains", "Forbidden values found in output: " + ReprList(found),
                     Shown.Text("None of: " + ReprList(values)), OutputShown(trace.output))
      else PassedResult("not_contains", Some("No forbidden values found"))
  }

  method NotContainsGradeMethod(g: NotContainsGrader, trace: TraceData, tc: EvalCase) returns (r: GradeResult)
    ensures r == NotContainsGrade(g, trace, tc)
  {
    var values := if g.values.Some? then g.values.value else tc.Expected().outputNotContains.GetOr([]);
    if values == [] {
      return PassedResult("not_contains", Some("No values to check"));
    }
    var content := trace.output.GetOr("");
    if !g.caseSensitive {
      content := Lower(content);
    }
    var found := CollectFound(values, content, g.caseSensitive);
    if found != [] {
      r := FailedResult("not_contains", "Forbidden values found in output: " + ReprList(found),
                        Shown.Text("None of: " + ReprList(values)), OutputShown(trace.output));
    } else {
      r := PassedResult("not_contains", Some("No forbidden values found"));
    }
  }

  /** The exclusion grade passes exactly when no value occurs in the (folded) output. */
  lemma NotContainsPassesIff(g: NotContainsGrader, trace: TraceData, tc: EvalCase)
    ensures var values := if g.values.Some? then g.values.value else tc.Expected().outputNotContains.GetOr([]);
            NotContainsGrade(g, trace, tc).status == Pass <==>
              forall v :: v in values ==>
                !IsSubstring(Folded(v, g.caseSensitive), Folded(trace.output.GetOr(""), g.caseSensitive))
  {
    var values := if g.values.Some? then g.values.value else tc.Expected().outputNotContains.GetOr([]);
    var content := Folded(trace.output.GetOr(""), g.caseSensitive);
    FoundSpec(values, content, g.caseSensitive);
    var found := Found(values, content, g.caseSensitive);
    if found != [] {
      assert found[0] in found;
    }
  }

  // ---------------------------------------------------------------------------
  // Equality
  // ---------------------------------------------------------------------------

  datatype EqualsGrader = EqualsGrader(expected: Option<string>, normalizeWhitespace: bool)

  /** `EqualsGrader.grade`: an empty configured value falls back to the expectation. */
  function EqualsGrade(g: EqualsGrader, trace: TraceData, tc: EvalCase): (r: GradeResult)
    ensures r.status in {Pass, Fail}
  {
    var expected := if g.expected.Some? && g.expected.value != "" then g.expected else tc.Expected().outputEquals;
    if expected.None? then PassedResult("equals", Some("No expected value to check"))
    else
      var want := if g.normalizeWhitespace then NormalizeWhitespace(expected.value) else expected.value;
      var got := if g.normalizeWhitespace then NormalizeWhitespace(trace.output.GetOr("")) else trace.output.GetOr("");
      if got == want then PassedResult("equals", Some("Output matches expected"))
      else FailedResult("equals", "Output does not match expected", Shown.Text(want), Shown.Text(got))
  }

  /** With whitespace normalisation the grade passes exactly when output and
      expected value consist of the same words; an absent expectation passes. */
  lemma EqualsPassesIff(g: EqualsGrader, trace: TraceData, tc: EvalCase)
    requires g.normalizeWhitespace
    ensures var expected := if g.expected.Some? && g.expected.value != "" then g.expected else tc.Expected().outputEquals;
            EqualsGrade(g, trace, tc).status == Pass <==>
              expected.None? || Words(trace.output.GetOr("")) == Words(expected.value)
  {
    var expected := if g.expected.Some? && g.expected.value != "" then g.expected else tc.Expected().outputEquals;
    if expected.Some? {
      NormalizedEqualIff(trace.output.GetOr(""), expected.value);
    }
  }

  // ---------------------------------------------------------------------------
  // Tool sets
  // ---------------------------------------------------------------------------

  /** The entries of `xs` that are not in `ys`, in order. */
  function Without(xs: seq<string>, ys: seq<string>): (r: seq<string>)
    ensures forall x :: x in r <==> x in xs && x !in ys
  {
    if xs == [] then []
    else
      assert xs == [xs[0]] + xs[1..];
      (if xs[0] !in ys then [xs[0]] else []) + Without(xs[1..], ys)
  }

  /** The entries of `xs` that are in `ys`, in order. */
  function Within(xs: seq<string>, ys: seq<string>): (r: seq<string>)
    ensures forall x :: x in r <==> x in xs && x in ys
  {
    if xs == [] then []
    else
      assert xs == [xs[0]] + xs[1..];
      (if xs[0] in ys then [xs[0]] else []) + Within(xs[1..], ys)
  }

  datatype ToolCalledGrader = ToolCalledGrader(required: Value)

  /** `ToolCalledGrader(**params)`. */
  function ToolCalledFromParams(params: map<string, Value>): (r: Result<ToolCalledGrader>)
    ensures r.Ok? <==> params.Keys <= {"required"}
    ensures r.Ok? ==> r.value.required == (if "required" in params then params["required"] else Null)
  {
    if !(params.Keys <= {"required"}) then
      Raised("ToolCalledGrader.__init__() got an unexpected keyword argument")
    else Ok(ToolCalledGrader(if "required" in params then params["required"] else Null))
  }

  // Required names that are not strings: `set()` rejects unhashable ones;
  // the others are never among the called names, so the grade fails unless
  // `sorted()` meets two values it cannot compare.

  /** Whether `hash(v)` succeeds: lists, dictionaries and records are unhashable. */
  predicate Hashable(v: Value) {
    v.Null? || v.Boolean? || v.Integer? || v.Decimal? || v.Str?
  }

  predicate AllHashable(xs: seq<Value>) {
    forall k :: 0 <= k < |xs| ==> Hashable(xs[k])
  }

  /** The type name of the first unhashable value, which `set()` reports. */
  function FirstUnhashable(xs: seq<Value>): string
    requires !AllHashable(xs)
  {
    if !Hashable(xs[0]) then xs[0].TypeName() else FirstUnhashable(xs[1..])
  }

  /** A value Python orders numerically (booleans count as 0 and 1). */
  predicate Numeric(v: Value) {
    v.Boolean? || v.Integer? || v.Decimal?
  }

  predicate AllNumeric(xs: seq<Value>) {
    forall k :: 0 <= k < |xs| ==> Numeric(xs[k])
  }

  /** Whether `sorted(xs)` completes: numbers compare with numbers and
      strings with strings, nothing else compares (not even `None` with
      `None`), and a sort of two or more values compares at least every pair
      that ends up adjacent. */
  predicate Sortable(xs: seq<Value>) {
    |xs| <= 1 || AllNumeric(xs) || AllStr(xs)
  }

  function NumberOf(v: Value): real
    requires Numeric(v)
  {
    match v
    case Boolean(b) => if b then 1.0 else 0.0
    case Integer(i) => i as real
    case Decimal(r) => r
  }

  /** `x` placed after every value of `xs` not greater than it. */
  function InsertNumber(x: Value, xs: seq<Value>): (r: seq<Value>)
    requires Numeric(x) && AllNumeric(xs)
    ensures |r| == |xs| + 1 && AllNumeric(r) && multiset(r) == multiset(xs) + multiset{x}
  {
    if xs == [] then [x]
    else if NumberOf(x) < NumberOf(xs[0]) then [x] + xs
    else
      assert xs == [xs[0]] + xs[1..];
      [xs[0]] + InsertNumber(x, xs[1..])
  }

  /** `sorted(xs)` of numbers: ascending, equal numbers in their original order. */
  function SortNumbers(xs: seq<Value>): (r: seq<Value>)
    requires AllNumeric(xs)
    ensures |r| == |xs| && AllNumeric(r) && multiset(r) == multiset(xs)
  {
    if xs == [] then []
    else
      assert xs == xs[..|xs| - 1] + [xs[|xs| - 1]];
      InsertNumber(xs[|xs| - 1], SortNumbers(xs[..|xs| - 1]))
  }

  /** `set(xs)` of numbers: the first of each group of equal numbers. */
  function DedupNumbers(xs: seq<Value>): (r: seq<Value>)
    requires AllNumeric(xs)
    ensures AllNumeric(r) && forall v :: v in r ==> v in xs
  {
    if xs == [] then []
    else
      var init := xs[..|xs| - 1];
      var last := xs[|xs| - 1];
      var rest := DedupNumbers(init);
      if exists k :: 0 <= k < |init| && NumberOf(init[k]) == NumberOf(last) then rest else rest + [last]
  }

  /** `repr(v)` of `None`, a boolean, an integer or a whole float. The digits
      of a fractional float are not modelled. */
  function ReprScalar(v: Value): string
    requires Hashable(v) && !v.Str?
  {
    match v
    case Null => "None"
    case Boolean(b) => BoolText(b)
    case Integer(i) => IntToString(i)
    case Decimal(r) => if r == r.Floor as real then IntToString(r.Floor) + ".0" else "<float>"
  }

  function ReprScalars(xs: seq<Value>): (r: seq<string>)
    requires forall k :: 0 <= k < |xs| ==> Hashable(xs[k]) && !xs[k].Str?
    ensures |r| == |xs|
  {
    seq(|xs|, k requires 0 <= k < |xs| => ReprScalar(xs[k]))
  }

  /** `sorted(xs)` of a list that is sortable and holds no string. */
  function SortScalars(xs: seq<Value>): (r: seq<Value>)
    requires AllHashable(xs) && Sortable(xs) && !AllStr(xs)
    ensures forall k :: 0 <= k < |r| ==> Hashable(r[k]) && !r[k].Str?
  {
    if AllNumeric(xs) then
      var r := SortNumbers(xs);
      assert forall k :: 0 <= k < |r| ==> Numeric(r[k]);
      r
    else
      assert |xs| == 1 && !xs[0].Str?;
      xs
  }

  /** `sorted(set(xs))` of such a list. */
  function SortedScalarSet(xs: seq<Value>): (r: seq<Value>)
    requires AllHashable(xs) && Sortable(xs) && !AllStr(xs)
    ensures forall k :: 0 <= k < |r| ==> Hashable(r[k]) && !r[k].Str?
  {
    if AllNumeric(xs) then
      var r := SortNumbers(DedupNumbers(xs));
      assert forall k :: 0 <= k < |r| ==> Numeric(r[k]);
      r
    else SortScalars(xs)
  }

  /** `str(xs)` of a list of values shown by their `repr`. */
  function ReprOfList(reprs: seq<string>): string {
    "[" + Join(", ", reprs) + "]"
  }

  /** `ToolCalledGrader.grade`: every required tool must appear among the called ones. */
  function ToolCalledGrade(g: ToolCalledGrader, trace: TraceData, tc: EvalCase): (r: Result<GradeResult>)
    ensures r.Ok? ==> r.value.graderName == "tool_called" && r.value.status in {Pass, Fail}
    ensures var required := if g.required.Null? then StrList(tc.Expected().toolsCalled.GetOr([])) else g.required;
            r.Raised? <==> required.Truthy()
                           && (Iterate(required).Raised? || !AllHashable(Iterate(required).value)
                               || (!AllStr(Iterate(required).value) && !Sortable(Iterate(required).value)))
  {
    var required := if g.required.Null? then StrList(tc.Expected().toolsCalled.GetOr([])) else g.required;
    if !required.Truthy() then Ok(PassedResult("tool_called", Some("No required tools to check")))
    else
      var items :- Iterate(required);
      if !AllHashable(items) then Raised("unhashable type: '" + FirstUnhashable(items) + "'")
      else if !AllStr(items) then
        if !Sortable(items) then Raised("'<' not supported between instances of the required tool names")
        else
          Ok(FailedResult("tool_called",
                          "Required tools not called: " + ReprOfList(ReprScalars(SortedScalarSet(items))),
                          Reprs(ReprScalars(SortScalars(items))), Texts(SortedSet(ToolsCalled(trace.steps)))))
      else
        var names := StrsOf(items);
        var called := ToolsCalled(trace.steps);
        var missing := Without(names, called);
        if missing != [] then
          Ok(FailedResult("tool_called", "Required tools not called: " + ReprList(SortedSet(missing)),
                          Texts(SortStrings(names)), Texts(SortedSet(called))))
        else
          Ok(PassedResult("tool_called", Some("All " + NatToString(|names|) + " required tools were called")))
  }

  /** With string names, the grade passes exactly when every required tool was
      called at least once (extra and repeated calls are allowed). */
  lemma ToolCalledPassesIff(g: ToolCalledGrader, trace: TraceData, tc: EvalCase, names: seq<string>)
    requires g.required.Null? ==> names == tc.Expected().toolsCalled.GetOr([])
    requires !g.required.Null? ==> g.required == StrList(names)
    ensures ToolCalledGrade(g, trace, tc).Ok?
    ensures ToolCalledGrade(g, trace, tc).value.status == Pass <==>
              forall n :: n in names ==> n in ToolsCalled(trace.steps)
  {
    var missing := Without(names, ToolsCalled(trace.steps));
    if missing != [] {
      assert missing[0] in missing;
    }
  }

  /** Names that are not all strings: the grade raises exactly when one of
      them is unhashable or `sorted()` cannot order them, and otherwise fails,
      since such a name is never among the called ones. */
  lemma ToolCalledNonText(g: ToolCalledGrader, trace: TraceData, tc: EvalCase)
    requires !g.required.Null? && g.required.Truthy()
    requires Iterate(g.required).Ok? && !AllStr(Iterate(g.required).value)
    ensures var items := Iterate(g.required).value;
            ToolCalledGrade(g, trace, tc).Raised? <==> !AllHashable(items) || !Sortable(items)
    ensures ToolCalledGrade(g, trace, tc).Ok? ==> ToolCalledGrade(g, trace, tc).value.status == Fail
  {
  }

  datatype ToolNotCalledGrader = ToolNotCalledGrader(forbidden: Option<seq<string>>)

  /** `ToolNotCalledGrader.grade`. */
  function ToolNotCalledGrade(g: ToolNotCalledGrader, trace: TraceData, tc: EvalCase): (r: GradeResult)
    ensures r.status in {Pass, Fail}
  {
    var forbidden := if g.forbidden.Some? then g.forbidden.value else tc.Expected().toolsNotCalled.GetOr([]);
    if forbidden == [] then PassedResult("tool_not_called", Some("No forbidden tools to check"))
    else
      var called := ToolsCalled(trace.steps);
      var violated := Within(called, forbidden);
      if violated != [] then
        FailedResult("tool_not_called", "Forbidden tools were called: " + ReprList(SortedSet(violated)),
                     Shown.Text("None of: " + ReprList(SortStrings(forbidden))), Texts(SortedSet(called)))
      else PassedResult("tool_not_called", Some("No forbidden tools were called"))
  }

  /** The grade passes exactly when no forbidden tool was called. */
  lemma ToolNotCalledPassesIff(g: ToolNotCalledGrader, trace: TraceData, tc: EvalCase)
    ensures var forbidden := if g.forbidden.Some? then g.forbidden.value else tc.Expected().toolsNotCalled.GetOr([]);
            ToolNotCalledGrade(g, trace, tc).status == Pass <==>
              forall n :: n in forbidden ==> n !in ToolsCalled(trace.steps)
  {
    var forbidden := if g.forbidden.Some? then g.forbidden.value else tc.Expected().toolsNotCalled.GetOr([]);
    var violated := Within(ToolsCalled(trace.steps), forbidden);
    if violated != [] {
      assert violated[0] in violated;
    }
  }

  // ---------------------------------------------------------------------------
  // Tool order
  // ---------------------------------------------------------------------------

  /** How many entries of `expected` a single left-to-right greedy scan of `actual` matches. */
  function Greedy(actual: seq<string>, expected: seq<string>): (n: nat)
    ensures n <= |expected|
  {
    if actual == [] then 0
    else if expected != [] && actual[0] == expected[0] then 1 + Greedy(actual[1..], expected[1..])
    else Greedy(actual[1..], expected)
  }

  /** The greedy scan reaches the end of `expected` exactly when `expected` is a subsequence of `actual`. */
  lemma {:induction false} GreedyIffSubsequence(actual: seq<string>, expected: seq<string>)
    ensures Greedy(actual, expected) == |expected| <==> Subsequence(expected, actual)
    ensures Greedy(actual, expected) == |expected| <==> Embeds(expected, actual)
  {
    SubsequenceIffEmbeds(expected, actual);
    if actual != [] && expected != [] {
      if actual[0] == expected[0] {
        GreedyIffSubsequence(actual[1..], expected[1..]);
      } else {
        GreedyIffSubsequence(actual[1..], expected);
      }
    }
  }

  /** The counter loop of `ToolOrderGrader.grade`. */
  method ScanOrder(actual: seq<string>, expected: seq<string>) returns (idx: nat)
    ensures idx == Greedy(actual, expected)
  {
    idx := 0;
    var i := 0;
    while i < |actual|
      invariant 0 <= i <= |actual| && idx <= |expected|
      invariant idx + Greedy(actual[i..], expected[idx..]) == Greedy(actual, expected)
    {
      assert actual[i..][1..] == actual[i + 1..];
      if idx < |expected| && actual[i] == expected[idx] {
        assert expected[idx..][1..] == expected[idx + 1..];
        idx := idx + 1;
      }
      i := i + 1;
    }
  }

  datatype ToolOrderGrader = ToolOrderGrader(expectedOrder: Option<seq<string>>)

  /** `ToolOrderGrader.grade`. */
  function ToolOrderGrade(g: ToolOrderGrader, trace: TraceData, tc: EvalCase): (r: GradeResult)
    ensures r.status in {Pass, Fail}
  {
    var expected := if g.expectedOrder.Some? then g.expectedOrder.value else tc.Expected().toolCallOrder.GetOr([]);
    if expected == [] then PassedResult("tool_order", Some("No expected order to check"))
    else
      var actual := ToolsCalled(trace.steps);
      if Greedy(actual, expected) == |expected| then PassedResult("tool_order", Some("Tools called in correct order"))
      else FailedResult("tool_order", "Tools not called in expected order", Texts(expected), Texts(actual))
  }

  method ToolOrderGradeMethod(g: ToolOrderGrader, trace: TraceData, tc: EvalCase) returns (r: GradeResult)
    ensures r == ToolOrderGrade(g, trace, tc)
  {
    var expected := if g.expectedOrder.Some? then g.expectedOrder.value else tc.Expected().toolCallOrder.GetOr([]);
    if expected == [] {
      return PassedResult("tool_order", Some("No expected order to check"));
    }
    var actual := ToolsCalled(trace.steps);
    var idx := ScanOrder(actual, expected);
    if idx == |expected| {
      r := PassedResult("tool_order", Some("Tools called in correct order"));
    } else {
      r := FailedResult("tool_order", "Tools not called in expected order", Texts(expected), Texts(actual));
    }
  }

  /** The order grade passes exactly when the expected order is a subsequence
      of the called tools (other calls may be interleaved): when the expected
      tools sit at strictly increasing positions of the calls. An empty order passes. */
  lemma ToolOrderPassesIff(g: ToolOrderGrader, trace: TraceData, tc: EvalCase)
    ensures var expected := if g.expectedOrder.Some? then g.expectedOrder.value else tc.Expected().toolCallOrder.GetOr([]);
            ToolOrderGrade(g, trace, tc).status == Pass <==> Subsequence(expected, ToolsCalled(trace.steps))
    ensures var expected := if g.expectedOrder.Some? then g.expectedOrder.value else tc.Expected().toolCallOrder.GetOr([]);
            ToolOrderGrade(g, trace, tc).status == Pass <==> Embeds(expected, ToolsCalled(trace.steps))
  {
    var expected := if g.expectedOrder.Some? then g.expectedOrder.value else tc.Expected().toolCallOrder.GetOr([]);
    GreedyIffSubsequence(ToolsCalled(trace.steps), expected);
  }

  // ---------------------------------------------------------------------------
  // Count bounds
  // ---------------------------------------------------------------------------

  /** Which count a bound grader limits. */
  datatype Counted = Steps | ToolCalls | LlmCalls

  function CountedName(k: Counted): string {
    match k
    case Steps => "max_steps"
    case ToolCalls => "max_tool_calls"
    case LlmCalls => "max_llm_calls"
  }

  /** The count a bound grader reads from the trace. */
  function CountOf(k: Counted, trace: TraceData): nat {
    match k
    case Steps => |trace.steps|
    case ToolCalls => |Traces.ToolCalls(trace.steps)|
    case LlmCalls => |Traces.LlmCalls(trace.steps)|
  }

  /** The expectation a bound grader falls back to. */
  function ExpectedBound(k: Counted, e: ExpectedBehavior): Option<int> {
    match k
    case Steps => e.maxSteps
    case ToolCalls => e.maxToolCalls
    case LlmCalls => e.maxLlmCalls
  }

  /** `MaxStepsGrader`, `MaxToolCallsGrader`, `MaxLLMCallsGrader`. */
  datatype BoundGrader = BoundGrader(counted: Counted, limit: Option<int>)

  function WithinMessage(k: Counted, actual: nat, limit: int): string {
    var a, m := NatToString(actual), IntToString(limit);
    match k
    case Steps => "Completed in " + a + " steps (max: " + m + ")"
    case ToolCalls => "Made " + a + " tool calls (max: " + m + ")"
    case LlmCalls => "Made " + a + " LLM calls (max: " + m + ")"
  }

  function OverMessage(k: Counted, actual: nat, limit: int): string {
    var a, m := NatToString(actual), IntToString(limit);
    match k
    case Steps => "Too many steps: " + a + " > " + m
    case ToolCalls => "Too many tool calls: " + a + " > " + m
    case LlmCalls => "Too many LLM calls: " + a + " > " + m
  }

  function NoBoundMessage(k: Counted): string {
    match k
    case Steps => "No max steps defined"
    case ToolCalls => "No max tool calls defined"
    case LlmCalls => "No max LLM calls defined"
  }

  /** The bound grades: an absent bound passes; otherwise the bound is
      inclusive, and a failure records the bound and the count. */
  function BoundGrade(g: BoundGrader, trace: TraceData, tc: EvalCase): (r: GradeResult)
    ensures r.graderName == CountedName(g.counted)
    ensures var limit := if g.limit.Some? then g.limit else ExpectedBound(g.counted, tc.Expected());
            (r.status == Pass <==> limit.None? || CountOf(g.counted, trace) <= limit.value)
            && (r.status == Fail ==> r.expected == Number(limit.value) && r.actual == Number(CountOf(g.counted, trace)))
            && r.status in {Pass, Fail}
  {
    var name := CountedName(g.counted);
    var limit := if g.limit.Some? then g.limit else ExpectedBound(g.counted, tc.Expected());
    if limit.None? then PassedResult(name, Some(NoBoundMessage(g.counted)))
    else
      var actual := CountOf(g.counted, trace);
      if actual <= limit.value then PassedResult(name, Some(WithinMessage(g.counted, actual, limit.value)))
      else FailedResult(name, OverMessage(g.counted, actual, limit.value), Number(limit.value), Number(actual))
  }

  // ---------------------------------------------------------------------------
  // Task completion
  // ---------------------------------------------------------------------------

  /** A trace completed its task: status SUCCESS and a non-empty output. */
  predicate Completed(trace: TraceData) {
    trace.status == Success && trace.output.Some? && trace.output.value != ""
  }

  datatype TaskCompletedGrader = TaskCompletedGrader(requireSuccess: bool)

  /** `TaskCompletedGrader.grade`: the expectation, when present, overrides `require_success`. */
  function TaskCompletedGrade(g: TaskCompletedGrader, trace: TraceData, tc: EvalCase): (r: GradeResult)
    ensures var expected := tc.Expected().taskCompleted.GetOr(g.requireSuccess);
            (r.status == Pass <==> Completed(trace) == expected) && r.status in {Pass, Fail}
  {
    var expected := tc.Expected().taskCompleted.GetOr(g.requireSuccess);
    var completed := Completed(trace);
    var hasOutput := trace.output.Some? && trace.output.value != "";
    if expected && completed then PassedResult("task_completed", Some("Task completed successfully"))
    else if expected && !completed then
      FailedResult("task_completed",
                   "Task not completed. Status: " + StatusText(trace.status) + ", Output: " + BoolText(hasOutput),
                   Shown.Text("completed"), Shown.Text("status=" + StatusText(trace.status)))
    else if !expected && !completed then
      PassedResult("task_completed", Some("Task correctly did not complete (as expected)"))
    else FailedResult("task_completed", "Task completed but was expected to fail",
                      Shown.Text("not completed"), Shown.Text("completed"))
  }
}
