/** What a whole run guarantees: its meaning, its bounds, its errors, and what larger limits change. */
module Guarantees {
  import opened Texts
  import opened Json
  import opened Limits
  import opened Sizing
  import opened Ir
  import opened Operators
  import opened Semantics
  import opened Schemas
  import opened SchemaSafety
  import opened Programs
  import opened Validity
  import opened Runtimes
  import Raising
  import StoredPrograms
  import Canonical
  import B = Bounded
  import D = Denotation
  import R = Refinement

  // ----- meaning -----

  /**
   * A run that succeeds returns what the limit-free meaning of the program's
   * expression is, and that meaning takes no more visits than the limit allows.
   */
  lemma RunMeansDenotation(j: Json, inputs: Json, l: Limits, strings: Strings)
    requires Run(j, inputs, l, strings).Ok?
    ensures DecodeProgram(j).Some?
    ensures var meaning := D.Denote(D.World(GivenInputs(inputs), strings), DecodeProgram(j).value.body, map[]);
            meaning.result == Run(j, inputs, l, strings) && meaning.ticks <= l.maxEvaluations
  {
    hide DecodeProgram, SchemaOk, Check, Sem, D.Denote, Sized, Mismatch, GivenInputs;
    var c := Ctx(l, GivenInputs(inputs), strings);
    var none: Env := map[];
    R.SemRefines(c, DecodeProgram(j).value.body, none);
  }

  /** The output of a run fits the limits, and its canonical bytes are no more than the output limit. */
  lemma RunIsBounded(j: Json, inputs: Json, l: Limits, strings: Strings)
    requires WellFormed(j) && WellFormed(inputs) && Run(j, inputs, l, strings).Ok?
    ensures var output := Run(j, inputs, l, strings).value;
            Fits(output, l, 1) && |Utf8Encode(Canonical.Render(output))| <= l.maxOutputBytes
  {
    hide DecodeProgram, SchemaOk, Check, Sem, Sized, Fits, Mismatch, GivenInputs, Canonical.Render, WellFormed;
    StoredPrograms.StoredProgramRuns(j, inputs, l, strings);
    var output := Run(j, inputs, l, strings).value;
    SizedExact(output, l, l.maxOutputBytes, OutputLimit, 1);
    SizeIsUtf8Length(output);
    Utf8EncodeLength(Canonical.Render(output));
  }

  // ----- errors -----

  lemma MismatchUnstuck(v: Json, s: Option<Json>)
    requires s.Some? ==> Usable(s.value, 0)
    ensures Mismatch(v, s).Some? ==> !Stuck(Mismatch(v, s).value)
  {
    hide CheckValue, SchemaOk, NullFree;
    if s.Some? {
      UsableNeverBreaks(v, s.value, 0);
    }
  }

  /** An admitted expression neither meets an unbound variable nor crashes, nor recurses past the depth limit. */
  lemma EvaluateUnstuck(c: Ctx, body: Expr)
    requires Accepted(body, c.limits, {})
    ensures Unstuck(Evaluate(c, body)) && Depth(body) <= c.limits.maxDepth
  {
    hide Check, Valid, Sem, Sized, NodeCount, Depth, D.Budget;
    AcceptedExactly(body, c.limits, {});
    ValidDepth(body, c.limits, 1, {});
    var none: Env := map[];
    SemSound(c, body, none, none, c.limits, 1, {});
    var s := Sem(c, body, none);
    SizedUnstuck(Obj([]), c.limits, c.limits.maxInputBytes, InputLimit);
    if s.result.Ok? {
      SizedUnstuck(s.result.value, c.limits, c.limits.maxOutputBytes, OutputLimit);
    }
  }

  lemma SizedUnstuck(v: Json, l: Limits, max: int, code: Code)
    requires !Stuck(code)
    ensures Unstuck(Sized(v, l, max, code, 1))
  {
    hide Sized;
    R.SizedBudget(v, l, max, code, 1);
  }

  /** Every run of an admitted program ends in an output or a structured error. */
  lemma RunUnstuck(j: Json, inputs: Json, l: Limits, strings: Strings)
    requires Admit(j, l).Ok?
    requires var p := Admit(j, l).value;
             (p.inputSchema.Some? ==> NullFree(p.inputSchema.value)) && (p.outputSchema.Some? ==> NullFree(p.outputSchema.value))
    ensures Unstuck(Run(j, inputs, l, strings)) && Depth(Admit(j, l).value.body) <= l.maxDepth
  {
    hide DecodeProgram, SchemaOk, Check, Sem, Sized, Evaluate, Mismatch, GivenInputs, NullFree, Depth, Stuck;
    var p, given := Admit(j, l).value, GivenInputs(inputs);
    EvaluateUnstuck(Ctx(l, given, strings), p.body);
    NotStuck();
    SizedUnstuck(given, l, l.maxInputBytes, InputLimit);
    MismatchUnstuck(given, p.inputSchema);
    var output := Evaluate(Ctx(l, given, strings), p.body);
    if output.Ok? {
      MismatchUnstuck(output.value, p.outputSchema);
    }
  }

  lemma NotStuck()
    ensures !Stuck(InputLimit) && !Stuck(OutputLimit) && !Stuck(SchemaMismatch)
  {
  }

  // ----- bounded intermediates -----

  /** Inputs that pass the preflight are what the bound on intermediate values asks for. */
  lemma InputsPrepared(given: Json, l: Limits, strings: Strings)
    requires l.maxInputBytes >= 2 && l.maxOutputBytes >= 2 && Sized(given, l, l.maxInputBytes, InputLimit, 1).Ok?
    ensures B.Prepared(Ctx(l, given, strings), map[])
  {
    hide Sized, Fits, JsonSize, B.Counted;
    SizedExact(given, l, l.maxInputBytes, InputLimit, 1);
    B.FitsCounted(given, l, 1);
  }

  /**
   * Bounded intermediates: in every run of an admitted program whose inputs pass
   * the preflight, each value that any call of the evaluator returns is within
   * the byte and collection limits, however deep the call.
   */
  lemma {:induction false} RunCallsBounded(j: Json, inputs: Json, l: Limits, strings: Strings, calls: seq<B.Call>)
    requires l.maxInputBytes >= 2 && l.maxOutputBytes >= 2
    requires Admit(j, l).Ok? && Sized(GivenInputs(inputs), l, l.maxInputBytes, InputLimit, 1).Ok?
    requires B.CallStack(Ctx(l, GivenInputs(inputs), strings), calls) && calls[0] == B.Call(Admit(j, l).value.body, map[])
    ensures forall i :: 0 <= i < |calls| ==>
              B.StepWithin(Sem(Ctx(l, GivenInputs(inputs), strings), calls[i].expr, calls[i].env), l)
  {
    hide DecodeProgram, SchemaOk, Check, Sem, Sized, GivenInputs, B.Prepared, B.Within, Valid;
    var c, body := Ctx(l, GivenInputs(inputs), strings), Admit(j, l).value.body;
    AcceptedExactly(body, l, {});
    InputsPrepared(c.inputs, l, strings);
    assert Valid(body, l, 1, {}) && B.Prepared(c, map[]);
    assert B.Ready(c, calls[0]);
    B.CallsBounded(c, calls);
  }

  // ----- larger limits -----

  lemma {:induction false} ValidRaised(e: Expr, l: Limits, m: Limits, depth: nat, scope: set<Text>)
    requires AtMost(l, m) && Valid(e, l, depth, scope)
    ensures Valid(e, m, depth, scope)
    decreases e, 1
  {
    hide AllValid, FieldsValid, Fits, JsonSize, ValidName, ArityOk, LazyArityOk, BodyScope;
    match e
    case Literal(v) => Raising.FitsRaised(v, l, m, 1);
    case Object(fields) => FieldsValidRaised(fields, l, m, depth + 1, scope);
    case Array(elements) => AllValidRaised(elements, l, m, depth + 1, scope);
    case Get(target, key, fallback) =>
      ValidRaised(target, l, m, depth + 1, scope);
      ValidRaised(key, l, m, depth + 1, scope);
      if fallback.Some? {
        ValidRaised(fallback.value, l, m, depth + 1, scope);
      }
    case Lazy(_, args) => AllValidRaised(args, l, m, depth + 1, scope);
    case Apply(_, args) => AllValidRaised(args, l, m, depth + 1, scope);
    case Each(_, collection, item, index, body) =>
      ValidRaised(collection, l, m, depth + 1, scope);
      ValidRaised(body, l, m, depth + 1, BodyScope(scope, item, index));
    case Sum(collection) => ValidRaised(collection, l, m, depth + 1, scope);
    case _ =>
  }

  lemma {:induction false} AllValidRaised(es: seq<Expr>, l: Limits, m: Limits, depth: nat, scope: set<Text>)
    requires AtMost(l, m) && AllValid(es, l, depth, scope)
    ensures AllValid(es, m, depth, scope)
    decreases es, 0
  {
    hide Valid;
    if es != [] {
      ValidRaised(es[0], l, m, depth, scope);
      AllValidRaised(es[1..], l, m, depth, scope);
    }
  }

  lemma {:induction false} FieldsValidRaised(fields: seq<Field<Expr>>, l: Limits, m: Limits, depth: nat, scope: set<Text>)
    requires AtMost(l, m) && FieldsValid(fields, l, depth, scope)
    ensures FieldsValid(fields, m, depth, scope)
    decreases fields, 0
  {
    hide Valid;
    if fields != [] {
      ValidRaised(fields[0].value, l, m, depth, scope);
      FieldsValidRaised(fields[1..], l, m, depth, scope);
    }
  }

  lemma AdmitRaised(j: Json, l: Limits, m: Limits)
    requires AtMost(l, m) && Admit(j, l).Ok?
    ensures Admit(j, m) == Admit(j, l)
  {
    hide DecodeProgram, SchemaOk, Check, Valid, NodeCount;
    var body := DecodeProgram(j).value.body;
    AcceptedExactly(body, l, {});
    ValidRaised(body, l, m, 1, {});
    AcceptedExactly(body, m, {});
  }

  lemma EvaluateRaised(c: Ctx, m: Limits, body: Expr)
    requires AtMost(c.limits, m) && Evaluate(c, body).Ok?
    ensures Evaluate(Raising.With(c, m), body) == Evaluate(c, body)
  {
    hide Sem, Sized;
    var none: Env := map[];
    Raising.SemRaised(c, m, body, none);
    Raising.SizedRaised(Obj([]), c.limits, m, c.limits.maxInputBytes, m.maxInputBytes, InputLimit, 1);
    var s := Sem(c, body, none);
    Raising.SizedRaised(s.result.value, c.limits, m, c.limits.maxOutputBytes, m.maxOutputBytes, OutputLimit, 1);
  }

  /** Raising any limits never changes a successful run, nor turns it into an error. */
  lemma RunRaised(j: Json, inputs: Json, l: Limits, m: Limits, strings: Strings)
    requires AtMost(l, m) && Run(j, inputs, l, strings).Ok?
    ensures Run(j, inputs, m, strings) == Run(j, inputs, l, strings)
  {
    hide Admit, Sized, Evaluate, Mismatch, GivenInputs;
    AdmitRaised(j, l, m);
    var given := GivenInputs(inputs);
    Raising.SizedRaised(given, l, m, l.maxInputBytes, m.maxInputBytes, InputLimit, 1);
    EvaluateRaised(Ctx(l, given, strings), m, Admit(j, l).value.body);
  }
}
