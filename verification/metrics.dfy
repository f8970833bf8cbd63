/** Invocation counts mixed into a list of functions (gateway/metrics/add_metrics.go). */
module Metrics {

  import opened Wrappers

  datatype FunctionStatus = FunctionStatus(name: string, namespace: string, invocationCount: real)

  /** A value of a query result: a JSON string, or anything else. */
  datatype Value = Text(s: string) | Other

  /** One result: the function's label and the `value` pair, whose second part is the count. */
  datatype Sample = Sample(functionName: string, value: seq<Value>)

  function LabelOf(f: FunctionStatus): string {
    f.name + "." + f.namespace
  }

  /** What a sample adds to the count of its function; `parse` is `strconv.ParseFloat`, exact. */
  function Amount(parse: string -> Option<real>, v: Sample): real {
    if |v.value| < 2 || v.value[1].Other? then 0.0
    else match parse(v.value[1].s) case Some(x) => x case None => 0.0
  }

  /** The samples of a function have a second part, which is read without a check. */
  ghost predicate Readable(samples: seq<Sample>, f: FunctionStatus) {
    forall v :: v in samples && v.functionName == LabelOf(f) ==> |v.value| >= 2
  }

  /** The sum of the parseable values that carry a label. */
  function SumFor(parse: string -> Option<real>, samples: seq<Sample>, name: string): real {
    if samples == [] then 0.0
    else
      var last := samples[|samples| - 1];
      SumFor(parse, samples[..|samples| - 1], name) + if last.functionName == name then Amount(parse, last) else 0.0
  }

  /** The sum of the parseable values whose label is one of `names`. */
  function SumForAny(parse: string -> Option<real>, samples: seq<Sample>, names: set<string>): real {
    if samples == [] then 0.0
    else
      var last := samples[|samples| - 1];
      SumForAny(parse, samples[..|samples| - 1], names) + if last.functionName in names then Amount(parse, last) else 0.0
  }

  function Total(functions: seq<FunctionStatus>): real {
    if functions == [] then 0.0
    else Total(functions[..|functions| - 1]) + functions[|functions| - 1].invocationCount
  }

  function Labels(functions: seq<FunctionStatus>): set<string> {
    set f | f in functions :: LabelOf(f)
  }

  ghost predicate DistinctLabels(functions: seq<FunctionStatus>) {
    forall i, j :: 0 <= i < j < |functions| ==> LabelOf(functions[i]) != LabelOf(functions[j])
  }

  /** Each count is the sum of the values that carry the function's label. */
  ghost predicate Mixed(parse: string -> Option<real>, samples: seq<Sample>, functions: seq<FunctionStatus>) {
    forall i :: 0 <= i < |functions| ==>
      functions[i].invocationCount == SumFor(parse, samples, LabelOf(functions[i]))
  }

  ghost predicate SameFunctions(a: seq<FunctionStatus>, b: seq<FunctionStatus>) {
    |a| == |b| && forall i :: 0 <= i < |a| ==> a[i].name == b[i].name && a[i].namespace == b[i].namespace
  }

  /** The parseable values of the results that carry a text as their label. */
  function Values(parse: string -> Option<real>, samples: seq<Sample>, text: string): seq<real> {
    if samples == [] then []
    else
      var last := samples[|samples| - 1];
      Values(parse, samples[..|samples| - 1], text) +
        if last.functionName == text && |last.value| >= 2 && last.value[1].Text? && parse(last.value[1].s).Some?
        then [parse(last.value[1].s).value] else []
  }

  function Sum(values: seq<real>): real {
    if values == [] then 0.0 else Sum(values[..|values| - 1]) + values[|values| - 1]
  }

  lemma SumAppend(values: seq<real>, x: real)
    ensures Sum(values + [x]) == Sum(values) + x
  {
    assert (values + [x])[..|values|] == values;
  }

  lemma {:induction false} SumForIsSum(parse: string -> Option<real>, samples: seq<Sample>, text: string)
    ensures SumFor(parse, samples, text) == Sum(Values(parse, samples, text))
  {
    if samples != [] {
      var last, values := samples[|samples| - 1], Values(parse, samples[..|samples| - 1], text);
      SumForIsSum(parse, samples[..|samples| - 1], text);
      assert values + [] == values;
      SumAppend(values, Amount(parse, last));
    }
  }

  /** What a function is given: the values of the results that carry its name, a dot and its namespace. */
  lemma CountIsSumOfValues(parse: string -> Option<real>, samples: seq<Sample>, functions: seq<FunctionStatus>, i: nat)
    requires Mixed(parse, samples, functions) && i < |functions|
    ensures functions[i].invocationCount == Sum(Values(parse, samples, functions[i].name + "." + functions[i].namespace))
  {
    SumForIsSum(parse, samples, functions[i].name + "." + functions[i].namespace);
  }

  /** The zeroing loop of the handler (lines 52-54). */
  method ResetCounts(functions: array<FunctionStatus>)
    modifies functions
    ensures SameFunctions(functions[..], old(functions[..]))
    ensures forall i :: 0 <= i < functions.Length ==> functions[i].invocationCount == 0.0
  {
    for i := 0 to functions.Length
      invariant SameFunctions(functions[..], old(functions[..]))
      invariant forall j :: 0 <= j < i ==> functions[j].invocationCount == 0.0
    {
      functions[i] := functions[i].(invocationCount := 0.0);
    }
  }

  /** `mixIn`: every count grows by the sum of the values that carry the function's label. */
  method MixIn(functions: array<FunctionStatus>, samples: seq<Sample>, parse: string -> Option<real>)
    requires forall i :: 0 <= i < functions.Length ==> Readable(samples, functions[i])
    modifies functions
    ensures SameFunctions(functions[..], old(functions[..]))
    ensures forall i :: 0 <= i < functions.Length ==>
              functions[i].invocationCount ==
              old(functions[i].invocationCount) + SumFor(parse, samples, LabelOf(old(functions[i])))
  {
    for i := 0 to functions.Length
      invariant forall j :: i <= j < functions.Length ==> functions[j] == old(functions[j])
      invariant SameFunctions(functions[..], old(functions[..]))
      invariant forall j :: 0 <= j < i ==>
                  functions[j].invocationCount ==
                  old(functions[j].invocationCount) + SumFor(parse, samples, LabelOf(old(functions[j])))
    {
      MixInOne(functions, i, samples, parse);
    }
  }

  /** The inner loop: one function against all results. */
  method MixInOne(functions: array<FunctionStatus>, i: nat, samples: seq<Sample>, parse: string -> Option<real>)
    requires i < functions.Length && Readable(samples, functions[i])
    modifies functions
    ensures functions[..] == old(functions[..])[i := old(functions[i]).(invocationCount :=
              old(functions[i].invocationCount) + SumFor(parse, samples, LabelOf(old(functions[i]))))]
  {
    var function_ := functions[i];
    for k := 0 to |samples|
      invariant functions[..] == old(functions[..])[i := function_.(invocationCount :=
                  function_.invocationCount + SumFor(parse, samples[..k], LabelOf(function_)))]
    {
      assert samples[..k + 1][..k] == samples[..k];
      var v := samples[k];
      if v.functionName == LabelOf(function_) {
        match v.value[1]
        case Other =>
        case Text(s) =>
          var f := parse(s);
          if f.Some? {
            functions[i] := functions[i].(invocationCount := functions[i].invocationCount + f.value);
          }
      }
    }
    assert samples[..|samples|] == samples;
  }

  /** The two loops of the handler in a row. */
  method AddMetrics(functions: array<FunctionStatus>, samples: seq<Sample>, parse: string -> Option<real>)
    requires forall i :: 0 <= i < functions.Length ==> Readable(samples, functions[i])
    modifies functions
    ensures SameFunctions(functions[..], old(functions[..]))
    ensures Mixed(parse, samples, functions[..])
    ensures forall i :: 0 <= i < functions.Length ==>
              functions[i].invocationCount ==
              Sum(Values(parse, samples, functions[i].name + "." + functions[i].namespace))
    ensures DistinctLabels(functions[..]) ==>
              Total(functions[..]) == SumForAny(parse, samples, Labels(functions[..]))
  {
    ResetCounts(functions);
    MixIn(functions, samples, parse);
    assert Mixed(parse, samples, functions[..]);
    forall i | 0 <= i < functions.Length
      ensures functions[i].invocationCount ==
              Sum(Values(parse, samples, functions[i].name + "." + functions[i].namespace))
    {
      CountIsSumOfValues(parse, samples, functions[..], i);
    }
    if DistinctLabels(functions[..]) {
      TotalIsConserved(parse, samples, functions[..]);
    }
  }

  // What becomes of the total.

  /** How many functions carry a label. */
  function Carriers(functions: seq<FunctionStatus>, name: string): nat {
    if functions == [] then 0
    else Carriers(functions[..|functions| - 1], name) + if LabelOf(functions[|functions| - 1]) == name then 1 else 0
  }

  /** The sum of the parseable values, each taken as often as some function carries its label. */
  function SumForEach(parse: string -> Option<real>, samples: seq<Sample>, functions: seq<FunctionStatus>): real {
    if samples == [] then 0.0
    else
      var last := samples[|samples| - 1];
      SumForEach(parse, samples[..|samples| - 1], functions) +
        Times(Carriers(functions, last.functionName), Amount(parse, last))
  }

  /** `x` taken `n` times. */
  function Times(n: nat, x: real): real {
    if n == 0 then 0.0 else Times(n - 1, x) + x
  }

  lemma {:induction false} TimesIsProduct(n: nat, x: real)
    ensures Times(n, x) == n as real * x
  {
    if n > 0 {
      TimesIsProduct(n - 1, x);
      assert n as real == (n - 1) as real + 1.0;
      assert ((n - 1) as real + 1.0) * x == (n - 1) as real * x + x;
    }
  }

  lemma {:induction false} SumForEachAdd(parse: string -> Option<real>, samples: seq<Sample>,
                                         functions: seq<FunctionStatus>, f: FunctionStatus)
    ensures SumForEach(parse, samples, functions + [f]) == SumForEach(parse, samples, functions) + SumFor(parse, samples, LabelOf(f))
  {
    if samples != [] {
      var last := samples[|samples| - 1];
      SumForEachAdd(parse, samples[..|samples| - 1], functions, f);
      CarriersAdd(functions, f, last.functionName);
    }
  }

  lemma CarriersAdd(functions: seq<FunctionStatus>, f: FunctionStatus, name: string)
    ensures Carriers(functions + [f], name) == Carriers(functions, name) + if LabelOf(f) == name then 1 else 0
  {
    assert (functions + [f])[..|functions|] == functions;
  }

  lemma {:induction false} SumForEachOfNone(parse: string -> Option<real>, samples: seq<Sample>)
    ensures SumForEach(parse, samples, []) == 0.0
  {
    if samples != [] {
      SumForEachOfNone(parse, samples[..|samples| - 1]);
    }
  }

  /** Whatever the labels are, the total takes every value as often as functions carry its label. */
  lemma {:induction false} TotalCountsCarriers(parse: string -> Option<real>, samples: seq<Sample>, functions: seq<FunctionStatus>)
    requires Mixed(parse, samples, functions)
    ensures Total(functions) == SumForEach(parse, samples, functions)
  {
    if functions == [] {
      SumForEachOfNone(parse, samples);
    } else {
      var n := |functions| - 1;
      TotalCountsCarriers(parse, samples, functions[..n]);
      SumForEachAdd(parse, samples, functions[..n], functions[n]);
      assert functions == functions[..n] + [functions[n]];
    }
  }

  lemma {:induction false} CarriersOfLabel(functions: seq<FunctionStatus>, name: string)
    ensures Carriers(functions, name) >= 1 <==> name in Labels(functions)
    ensures DistinctLabels(functions) ==> Carriers(functions, name) <= 1
  {
    if functions != [] {
      var n := |functions| - 1;
      CarriersOfLabel(functions[..n], name);
      assert functions == functions[..n] + [functions[n]];
      assert functions[n] in functions;
    }
  }

  lemma {:induction false} CarriersOfTwo(functions: seq<FunctionStatus>, i: nat, j: nat)
    requires i < j < |functions| && LabelOf(functions[i]) == LabelOf(functions[j])
    ensures Carriers(functions, LabelOf(functions[i])) >= 2
  {
    var n := |functions| - 1;
    if j < n {
      CarriersOfTwo(functions[..n], i, j);
    } else {
      assert functions[..n][i] in functions[..n];
      CarriersOfLabel(functions[..n], LabelOf(functions[i]));
    }
  }

  /**
   With distinct labels nothing is lost and nothing counted twice: the counts of all functions
   add up to all results whose label is the label of some function.
   */
  lemma TotalIsConserved(parse: string -> Option<real>, samples: seq<Sample>, functions: seq<FunctionStatus>)
    requires DistinctLabels(functions) && Mixed(parse, samples, functions)
    ensures Total(functions) == SumForAny(parse, samples, Labels(functions))
  {
    TotalCountsCarriers(parse, samples, functions);
    CarriedOnce(parse, samples, functions);
  }

  lemma {:induction false} CarriedOnce(parse: string -> Option<real>, samples: seq<Sample>, functions: seq<FunctionStatus>)
    requires DistinctLabels(functions)
    ensures SumForEach(parse, samples, functions) == SumForAny(parse, samples, Labels(functions))
  {
    if samples != [] {
      CarriedOnce(parse, samples[..|samples| - 1], functions);
      var last := samples[|samples| - 1];
      CarriersOfLabel(functions, last.functionName);
      TimesIsProduct(Carriers(functions, last.functionName), Amount(parse, last));
    }
  }

  /** The functions with the counts that `mixIn` gives them after the zeroing. */
  function MixedIn(parse: string -> Option<real>, samples: seq<Sample>, functions: seq<FunctionStatus>): (r: seq<FunctionStatus>)
    ensures SameFunctions(r, functions) && Mixed(parse, samples, r)
  {
    seq(|functions|, i requires 0 <= i < |functions| =>
      functions[i].(invocationCount := SumFor(parse, samples, LabelOf(functions[i]))))
  }

  lemma SameFunctionsSameLabels(a: seq<FunctionStatus>, b: seq<FunctionStatus>)
    requires SameFunctions(a, b)
    ensures Labels(a) == Labels(b) && (DistinctLabels(a) <==> DistinctLabels(b))
  {
    forall name | name in Labels(a) + Labels(b) ensures name in Labels(a) && name in Labels(b) {
      var i :| 0 <= i < |a| && (LabelOf(a[i]) == name || LabelOf(b[i]) == name);
      assert a[i] in a && b[i] in b && LabelOf(a[i]) == LabelOf(b[i]);
    }
  }

  ghost predicate AlwaysConserved(parse: string -> Option<real>, functions: seq<FunctionStatus>) {
    forall samples :: Total(MixedIn(parse, samples, functions)) == SumForAny(parse, samples, Labels(functions))
  }

  ghost predicate SomethingCounts(parse: string -> Option<real>) {
    exists s: string :: parse(s).Some? && parse(s).value != 0.0
  }

  /** The total is conserved for all results exactly with distinct labels, unless no text is a number other than 0. */
  lemma ConservedExactlyWithDistinctLabels(parse: string -> Option<real>, functions: seq<FunctionStatus>)
    ensures AlwaysConserved(parse, functions) <==> DistinctLabels(functions) || !SomethingCounts(parse)
  {
    if DistinctLabels(functions) || !SomethingCounts(parse) {
      forall samples
        ensures Total(MixedIn(parse, samples, functions)) == SumForAny(parse, samples, Labels(functions))
      {
        var mixed := MixedIn(parse, samples, functions);
        SameFunctionsSameLabels(mixed, functions);
        TotalCountsCarriers(parse, samples, mixed);
        if DistinctLabels(functions) {
          CarriedOnce(parse, samples, mixed);
        } else {
          NothingCounts(parse, samples, mixed);
        }
      }
    } else {
      var s: string :| parse(s).Some? && parse(s).value != 0.0;
      var i: nat, j: nat :| i < j < |functions| && LabelOf(functions[i]) == LabelOf(functions[j]);
      OneResultCountsTwice(parse, s, functions, i, j);
    }
  }

  lemma {:induction false} NothingCounts(parse: string -> Option<real>, samples: seq<Sample>, functions: seq<FunctionStatus>)
    requires !SomethingCounts(parse)
    ensures SumForEach(parse, samples, functions) == 0.0 == SumForAny(parse, samples, Labels(functions))
  {
    if samples != [] {
      NothingCounts(parse, samples[..|samples| - 1], functions);
      var last := samples[|samples| - 1];
      assert Amount(parse, last) == 0.0;
      TimesIsProduct(Carriers(functions, last.functionName), 0.0);
    }
  }

  lemma OneResultCountsTwice(parse: string -> Option<real>, s: string, functions: seq<FunctionStatus>, i: nat, j: nat)
    requires parse(s).Some? && parse(s).value != 0.0
    requires i < j < |functions| && LabelOf(functions[i]) == LabelOf(functions[j])
    ensures var samples := [Sample(LabelOf(functions[i]), [Other, Text(s)])];
            Total(MixedIn(parse, samples, functions)) != SumForAny(parse, samples, Labels(functions))
  {
    var v := Sample(LabelOf(functions[i]), [Other, Text(s)]);
    var mixed := MixedIn(parse, [v], functions);
    TotalCountsCarriers(parse, [v], mixed);
    SumsOfOne(parse, v, mixed, Labels(functions));
    CarriersOfTwo(mixed, i, j);
    assert functions[i] in functions;
    TimesIsAnother(Carriers(mixed, v.functionName), Amount(parse, v));
  }

  lemma SumsOfOne(parse: string -> Option<real>, v: Sample, functions: seq<FunctionStatus>, names: set<string>)
    ensures SumForEach(parse, [v], functions) == Times(Carriers(functions, v.functionName), Amount(parse, v))
    ensures SumForAny(parse, [v], names) == if v.functionName in names then Amount(parse, v) else 0.0
  {
    assert [v][..0] == [];
  }

  lemma TimesIsAnother(n: nat, x: real)
    requires n >= 2 && x != 0.0
    ensures Times(n, x) != x
  {
    TimesIsProduct(n - 1, x);
    assert (n - 1) as real * x != 0.0;
  }
}
