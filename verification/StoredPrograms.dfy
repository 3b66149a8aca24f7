/**
 * A program whose keys have been sorted, as the registry stores it, decodes to
 * the sorted expression, is admitted under the same limits, and runs to the
 * same output on sorted inputs.
 */
module StoredPrograms {
  import opened Texts
  import opened Json
  import opened Limits
  import opened Sizing
  import opened Ir
  import opened Operators
  import opened Semantics
  import opened Snapshot
  import opened Storing
  import opened Schemas
  import opened SchemaOrder
  import opened Programs
  import V = Validity
  import Canonical

  // ----- decoding -----

  lemma KeysWithin(fields: seq<Field<Json>>, keys: set<Text>)
    requires WellFormed(Obj(fields))
    ensures (forall i :: 0 <= i < |fields| ==> SortByKey(NormalizeFields(fields))[i].key in keys)
            <==> (forall i :: 0 <= i < |fields| ==> fields[i].key in keys)
  {
    hide WellFormed, SortByKey, NormalizeFields, Lookup;
    var sorted := SortByKey(NormalizeFields(fields));
    if forall i :: 0 <= i < |fields| ==> fields[i].key in keys {
      forall i | 0 <= i < |fields| ensures sorted[i].key in keys {
        var j := SortedMembers(NormalizeFields(fields), i);
        NormalizeFieldsAt(fields, j);
      }
    }
    if forall i :: 0 <= i < |fields| ==> sorted[i].key in keys {
      forall i | 0 <= i < |fields| ensures fields[i].key in keys {
        LookupFindsKey(fields, fields[i].key);
        KeywordNormalizes(fields, fields[i].key);
        LookupFindsKey(sorted, fields[i].key);
        var k :| 0 <= k < |sorted| && sorted[k].key == fields[i].key;
        assert sorted[k].key in keys;
      }
    }
  }

  lemma KeysAreNormalizes(fields: seq<Field<Json>>, required: set<Text>, optional: set<Text>)
    requires WellFormed(Obj(fields))
    ensures KeysAre(SortByKey(NormalizeFields(fields)), required, optional) <==> KeysAre(fields, required, optional)
  {
    hide WellFormed, SortByKey, NormalizeFields, Lookup;
    KeysWithin(fields, required + optional);
    forall k | k in required
      ensures HasKey(SortByKey(NormalizeFields(fields)), k) <==> HasKey(fields, k)
    {
      KeywordNormalizes(fields, k);
    }
  }

  /** What decoding the sorted JSON must give. */
  ghost predicate DecodesTo(a: Option<Expr>, b: Option<Expr>) {
    (a.Some? <==> b.Some?) && (a.Some? ==> WellFormedExpr(a.value) && b.value == Snap(a.value))
  }

  lemma {:induction false} DecodeNormalizes(j: Json)
    requires WellFormed(j)
    ensures DecodesTo(DecodeExpr(j), DecodeExpr(Normalize(j)))
    decreases j, 2
  {
    hide DecodeLiteral, DecodeInput, DecodeVar, DecodeObject, DecodeArray, DecodeGet, DecodeSum, DecodeEach, DecodeApply,
      EachOpNamed, NormalizeFields, NormalizeItems, SortByKey, Snap, WellFormedExpr, Lookup, WellFormed;
    if j.Obj? {
      KeywordNormalizes(j.fields, OP);
      LeafDecodes(j);
      ListDecodes(j);
      GetDecodes(j);
      SumDecodes(j);
      if OpName(j).Some? {
        EachDecodes(j, OpName(j).value);
        ApplyDecodes(j, OpName(j).value);
      }
    }
  }

  lemma LeafDecodes(j: Json)
    requires j.Obj? && WellFormed(j)
    ensures DecodesTo(DecodeLiteral(j), DecodeLiteral(Normalize(j)))
    ensures DecodesTo(DecodeInput(j), DecodeInput(Normalize(j)))
    ensures DecodesTo(DecodeVar(j), DecodeVar(Normalize(j)))
  {
    hide KeysAre, NormalizeFields, NormalizeItems, SortByKey, Lookup, WellFormed;
    var fields := j.fields;
    KeysAreNormalizes(fields, {OP, VALUE}, {});
    KeysAreNormalizes(fields, {OP}, {NAME});
    KeysAreNormalizes(fields, {OP, NAME}, {});
    KeywordNormalizes(fields, VALUE);
    KeywordNormalizes(fields, NAME);
    RequiredPresent(fields, {OP, VALUE}, {}, VALUE);
    RequiredPresent(fields, {OP, NAME}, {}, NAME);
  }

  lemma RequiredPresent(fields: seq<Field<Json>>, required: set<Text>, optional: set<Text>, key: Text)
    requires key in required
    ensures KeysAre(fields, required, optional) ==> Lookup(fields, key).Some?
  {
  }

  lemma {:induction false} AllDecode(items: seq<Json>)
    requires WellFormedAll(items)
    ensures var a, b := DecodeAll(items), DecodeAll(NormalizeItems(items));
            (a.Some? <==> b.Some?) && (a.Some? ==> AllWellFormed(a.value) && b.value == SnapAll(a.value))
    decreases items, 0
  {
    hide DecodeExpr, Snap, WellFormedExpr, WellFormed, Normalize;
    if items != [] {
      DecodeNormalizes(items[0]);
      AllDecode(items[1..]);
      assert NormalizeItems(items)[1..] == NormalizeItems(items[1..]);
      var a := DecodeAll(items);
      if a.Some? {
        assert a.value[1..] == DecodeAll(items[1..]).value;
      }
    }
  }

  lemma {:induction false} FieldsDecode(fields: seq<Field<Json>>)
    requires WellFormedValues(fields)
    ensures var a, b := DecodeFields(fields), DecodeFields(NormalizeFields(fields));
            (a.Some? <==> b.Some?)
            && (a.Some? ==> FieldsWellFormed(a.value) && b.value == SnapFields(a.value) && |a.value| == |fields|
                            && forall i :: 0 <= i < |fields| ==> a.value[i].key == fields[i].key)
    decreases fields, 0
  {
    hide DecodeExpr, Snap, WellFormedExpr, WellFormed, Normalize;
    if fields != [] {
      DecodeNormalizes(fields[0].value);
      FieldsDecode(fields[1..]);
      assert NormalizeFields(fields)[1..] == NormalizeFields(fields[1..]);
      var a := DecodeFields(fields);
      if a.Some? {
        assert a.value[1..] == DecodeFields(fields[1..]).value;
        assert forall i :: 0 < i < |fields| ==> fields[i] == fields[1..][i - 1] && a.value[i] == a.value[1..][i - 1];
      }
    }
  }

  lemma {:induction false} InsertDecodes(f: Field<Json>, fields: seq<Field<Json>>)
    ensures var d, ds, all := DecodeExpr(f.value), DecodeFields(fields), DecodeFields(Insert(f, fields));
            (all.Some? <==> d.Some? && ds.Some?)
            && (all.Some? ==> all.value == Insert(Field(f.key, d.value), ds.value))
  {
    hide DecodeExpr, Below;
    if fields == [] || Below(f.key, fields[0].key) {
      assert ([f] + fields)[1..] == fields;
    } else {
      InsertDecodes(f, fields[1..]);
      assert Insert(f, fields)[1..] == Insert(f, fields[1..]);
      var ds := DecodeFields(fields);
      if ds.Some? {
        assert ds.value[1..] == DecodeFields(fields[1..]).value;
      }
    }
  }

  lemma {:induction false} SortDecodes(fields: seq<Field<Json>>)
    ensures var a, b := DecodeFields(fields), DecodeFields(SortByKey(fields));
            (a.Some? <==> b.Some?) && (a.Some? ==> b.value == SortByKey(a.value))
  {
    hide DecodeExpr, Insert;
    if fields != [] {
      SortDecodes(fields[1..]);
      InsertDecodes(fields[0], SortByKey(fields[1..]));
      var a := DecodeFields(fields);
      if a.Some? {
        assert a.value[1..] == DecodeFields(fields[1..]).value;
      }
    }
  }

  lemma {:induction false} ListDecodes(j: Json)
    requires j.Obj? && WellFormed(j)
    ensures DecodesTo(DecodeObject(j), DecodeObject(Normalize(j)))
    ensures DecodesTo(DecodeArray(j), DecodeArray(Normalize(j)))
    decreases j, 1
  {
    ObjectDecodes(j);
    ArrayDecodes(j);
  }

  lemma {:induction false} ObjectDecodes(j: Json)
    requires j.Obj? && WellFormed(j)
    ensures DecodesTo(DecodeObject(j), DecodeObject(Normalize(j)))
    decreases j, 0
  {
    hide KeysAre, NormalizeFields, NormalizeItems, SortByKey, Lookup, DecodeFields, SnapFields, FieldsWellFormed;
    KeysAreNormalizes(j.fields, {OP, FIELDS}, {});
    KeywordNormalizes(j.fields, FIELDS);
    RequiredPresent(j.fields, {OP, FIELDS}, {}, FIELDS);
    var fields := Member(j, FIELDS);
    if fields.Some? && fields.value.Obj? {
      var inner := fields.value.fields;
      FieldsDecode(inner);
      SortDecodes(NormalizeFields(inner));
      assert UniqueKeys(inner);
    }
  }

  lemma {:induction false} ArrayDecodes(j: Json)
    requires j.Obj? && WellFormed(j)
    ensures DecodesTo(DecodeArray(j), DecodeArray(Normalize(j)))
    decreases j, 0
  {
    hide KeysAre, NormalizeFields, NormalizeItems, SortByKey, Lookup, DecodeAll, SnapAll, AllWellFormed;
    KeysAreNormalizes(j.fields, {OP, ELEMENTS}, {});
    KeywordNormalizes(j.fields, ELEMENTS);
    RequiredPresent(j.fields, {OP, ELEMENTS}, {}, ELEMENTS);
    var items := Member(j, ELEMENTS);
    if items.Some? && items.value.Arr? {
      AllDecode(items.value.items);
    }
  }

  lemma {:induction false} ApplyDecodes(j: Json, name: Text)
    requires j.Obj? && WellFormed(j)
    ensures DecodesTo(DecodeApply(j, name), DecodeApply(Normalize(j), name))
    decreases j, 0
  {
    hide KeysAre, NormalizeFields, NormalizeItems, SortByKey, Lookup, DecodeAll, SnapAll, AllWellFormed, OpNamed, LazyOpNamed;
    KeysAreNormalizes(j.fields, {OP, ARGS}, {});
    KeywordNormalizes(j.fields, ARGS);
    RequiredPresent(j.fields, {OP, ARGS}, {}, ARGS);
    var args := Member(j, ARGS);
    if args.Some? && args.value.Arr? {
      AllDecode(args.value.items);
    }
  }

  lemma {:induction false} GetDecodes(j: Json)
    requires j.Obj? && WellFormed(j)
    ensures DecodesTo(DecodeGet(j), DecodeGet(Normalize(j)))
    decreases j, 0
  {
    hide KeysAre, NormalizeFields, NormalizeItems, SortByKey, Lookup, DecodeExpr, WellFormed, Normalize;
    var required := {OP, TARGET, KEY};
    assert Normalize(j) == Obj(SortByKey(NormalizeFields(j.fields))) by {
      NormalizeObject(j);
    }
    KeysAreNormalizes(j.fields, required, {FALLBACK});
    KeywordNormalizes(j.fields, TARGET);
    KeywordNormalizes(j.fields, KEY);
    KeywordNormalizes(j.fields, FALLBACK);
    RequiredPresent(j.fields, required, {FALLBACK}, TARGET);
    RequiredPresent(j.fields, required, {FALLBACK}, KEY);
    if KeysAre(j.fields, required, {FALLBACK}) {
      DecodeNormalizes(Member(j, TARGET).value);
      DecodeNormalizes(Member(j, KEY).value);
      if Member(j, FALLBACK).Some? {
        DecodeNormalizes(Member(j, FALLBACK).value);
      }
    }
  }

  lemma NormalizeObject(j: Json)
    requires j.Obj?
    ensures Normalize(j) == Obj(SortByKey(NormalizeFields(j.fields)))
  {
  }

  lemma {:induction false} SumDecodes(j: Json)
    requires j.Obj? && WellFormed(j)
    ensures DecodesTo(DecodeSum(j), DecodeSum(Normalize(j)))
    decreases j, 0
  {
    hide KeysAre, NormalizeFields, NormalizeItems, SortByKey, Lookup, DecodeExpr, WellFormed, Normalize;
    assert Normalize(j) == Obj(SortByKey(NormalizeFields(j.fields))) by {
      NormalizeObject(j);
    }
    KeysAreNormalizes(j.fields, {OP, COLLECTION}, {});
    KeywordNormalizes(j.fields, COLLECTION);
    RequiredPresent(j.fields, {OP, COLLECTION}, {}, COLLECTION);
    if KeysAre(j.fields, {OP, COLLECTION}, {}) {
      DecodeNormalizes(Member(j, COLLECTION).value);
    }
  }

  lemma {:induction false} EachDecodes(j: Json, name: Text)
    requires j.Obj? && WellFormed(j)
    ensures DecodesTo(DecodeEach(j, name), DecodeEach(Normalize(j), name))
    decreases j, 0
  {
    hide KeysAre, NormalizeFields, NormalizeItems, SortByKey, Lookup, DecodeExpr, WellFormed, EachOpNamed;
    var required := {OP, COLLECTION, VARIABLE, BODY};
    var optional := if name == Ascii("sort") then {INDEX, DESCENDING} else {INDEX};
    KeysAreNormalizes(j.fields, required, optional);
    KeywordNormalizes(j.fields, COLLECTION);
    KeywordNormalizes(j.fields, BODY);
    KeywordNormalizes(j.fields, VARIABLE);
    KeywordNormalizes(j.fields, INDEX);
    KeywordNormalizes(j.fields, DESCENDING);
    RequiredPresent(j.fields, required, optional, COLLECTION);
    RequiredPresent(j.fields, required, optional, BODY);
    RequiredPresent(j.fields, required, optional, VARIABLE);
    if KeysAre(j.fields, required, optional) {
      DecodeNormalizes(Member(j, COLLECTION).value);
      DecodeNormalizes(Member(j, BODY).value);
    }
  }

  // ----- admission -----

  lemma {:induction false} InsertValid(f: Field<Expr>, fields: seq<Field<Expr>>, l: Limits, depth: nat, scope: set<Text>)
    ensures V.FieldsValid(Insert(f, fields), l, depth, scope) <==> V.Valid(f.value, l, depth, scope) && V.FieldsValid(fields, l, depth, scope)
    ensures V.FieldsCount(Insert(f, fields)) == V.NodeCount(f.value) + V.FieldsCount(fields)
  {
    hide V.Valid, V.NodeCount, Below;
    if fields == [] || Below(f.key, fields[0].key) {
      assert ([f] + fields)[1..] == fields;
    } else {
      InsertValid(f, fields[1..], l, depth, scope);
      assert Insert(f, fields)[1..] == Insert(f, fields[1..]);
    }
  }

  lemma {:induction false} SortValid(fields: seq<Field<Expr>>, l: Limits, depth: nat, scope: set<Text>)
    ensures V.FieldsValid(SortByKey(fields), l, depth, scope) <==> V.FieldsValid(fields, l, depth, scope)
    ensures V.FieldsCount(SortByKey(fields)) == V.FieldsCount(fields)
  {
    hide V.Valid, V.NodeCount, Insert;
    if fields != [] {
      SortValid(fields[1..], l, depth, scope);
      InsertValid(fields[0], SortByKey(fields[1..]), l, depth, scope);
    }
  }

  /** Sorting neither adds nodes nor makes an expression valid or invalid. */
  lemma {:induction false} ValidSnap(e: Expr, l: Limits, depth: nat, scope: set<Text>)
    requires WellFormedExpr(e)
    ensures V.Valid(Snap(e), l, depth, scope) <==> V.Valid(e, l, depth, scope)
    ensures V.NodeCount(Snap(e)) == V.NodeCount(e)
    decreases e, 1
  {
    hide V.AllValid, V.FieldsValid, V.CountAll, V.FieldsCount, Fits, JsonSize, Normalize, WellFormed, AllWellFormed, FieldsWellFormed,
      SnapAll, SnapFields, SortByKey, ValidName, ArityOk, LazyArityOk, BodyScope;
    match e
    case Literal(v) =>
      FitsNormalizes(v, l, 1);
      SizeNormalizes(v);
    case Object(fields) =>
      FieldsValidSnap(fields, l, depth + 1, scope);
      SortValid(SnapFields(fields), l, depth + 1, scope);
    case Array(elements) => AllValidSnap(elements, l, depth + 1, scope);
    case Get(target, key, fallback) =>
      ValidSnap(target, l, depth + 1, scope);
      ValidSnap(key, l, depth + 1, scope);
      if fallback.Some? {
        ValidSnap(fallback.value, l, depth + 1, scope);
      }
    case Lazy(_, args) => AllValidSnap(args, l, depth + 1, scope);
    case Apply(_, args) => AllValidSnap(args, l, depth + 1, scope);
    case Each(_, collection, item, index, body) =>
      ValidSnap(collection, l, depth + 1, scope);
      ValidSnap(body, l, depth + 1, BodyScope(scope, item, index));
    case Sum(collection) => ValidSnap(collection, l, depth + 1, scope);
    case _ =>
  }

  lemma {:induction false} AllValidSnap(es: seq<Expr>, l: Limits, depth: nat, scope: set<Text>)
    requires AllWellFormed(es)
    ensures V.AllValid(SnapAll(es), l, depth, scope) <==> V.AllValid(es, l, depth, scope)
    ensures V.CountAll(SnapAll(es)) == V.CountAll(es)
    decreases es, 0
  {
    hide V.Valid, V.NodeCount, Snap, WellFormedExpr;
    if es != [] {
      ValidSnap(es[0], l, depth, scope);
      AllValidSnap(es[1..], l, depth, scope);
      assert SnapAll(es)[1..] == SnapAll(es[1..]);
    }
  }

  lemma {:induction false} FieldsValidSnap(fields: seq<Field<Expr>>, l: Limits, depth: nat, scope: set<Text>)
    requires FieldsWellFormed(fields)
    ensures V.FieldsValid(SnapFields(fields), l, depth, scope) <==> V.FieldsValid(fields, l, depth, scope)
    ensures V.FieldsCount(SnapFields(fields)) == V.FieldsCount(fields)
    decreases fields, 0
  {
    hide V.Valid, V.NodeCount, Snap, WellFormedExpr;
    if fields != [] {
      ValidSnap(fields[0].value, l, depth, scope);
      FieldsValidSnap(fields[1..], l, depth, scope);
      assert SnapFields(fields)[1..] == SnapFields(fields[1..]);
    }
  }

  function SnapProgram(p: Program): Program {
    Program(OptionNormalize(p.inputSchema), OptionNormalize(p.outputSchema), Snap(p.body))
  }

  ghost predicate WellFormedProgram(p: Program) {
    WellFormedOption(p.inputSchema) && WellFormedOption(p.outputSchema) && WellFormedExpr(p.body)
  }

  lemma ProgramDecodes(j: Json)
    requires WellFormed(j)
    ensures var a, b := DecodeProgram(j), DecodeProgram(Normalize(j));
            (a.Some? <==> b.Some?) && (a.Some? ==> WellFormedProgram(a.value) && b.value == SnapProgram(a.value))
  {
    hide KeysAre, NormalizeFields, NormalizeItems, SortByKey, Lookup, DecodeExpr, WellFormed;
    if j.Obj? {
      var fields, required, optional := j.fields, {VERSION, EXPRESSION}, {INPUT_SCHEMA, OUTPUT_SCHEMA};
      KeysAreNormalizes(fields, required, optional);
      KeywordNormalizes(fields, VERSION);
      KeywordNormalizes(fields, EXPRESSION);
      KeywordNormalizes(fields, INPUT_SCHEMA);
      KeywordNormalizes(fields, OUTPUT_SCHEMA);
      RequiredPresent(fields, required, optional, VERSION);
      RequiredPresent(fields, required, optional, EXPRESSION);
      if KeysAre(fields, required, optional) {
        DecodeNormalizes(Lookup(fields, EXPRESSION).value);
      }
    }
  }

  /** The stored program is admitted exactly when the submitted one is, as its sorted form. */
  lemma AdmitStored(j: Json, l: Limits)
    requires WellFormed(j)
    ensures Admit(Normalize(j), l).Ok? <==> Admit(j, l).Ok?
    ensures Admit(j, l).Ok? ==> Admit(Normalize(j), l).value == SnapProgram(Admit(j, l).value) && WellFormedProgram(Admit(j, l).value)
  {
    hide DecodeProgram, SchemaOk, Check, V.Valid, V.NodeCount, Snap, WellFormedExpr, Normalize, WellFormed;
    ProgramDecodes(j);
    var p := DecodeProgram(j);
    if p.Some? {
      if p.value.inputSchema.Some? {
        SchemaOkNormalizes(p.value.inputSchema.value, 0);
      }
      if p.value.outputSchema.Some? {
        SchemaOkNormalizes(p.value.outputSchema.value, 0);
      }
      ValidSnap(p.value.body, l, 1, {});
      V.AcceptedExactly(p.value.body, l, {});
      V.AcceptedExactly(Snap(p.value.body), l, {});
    }
  }

  // ----- a run of the stored program -----

  lemma MismatchNormalizes(v: Json, s: Option<Json>)
    requires WellFormed(v) && WellFormedOption(s)
    ensures Mismatch(Normalize(v), OptionNormalize(s)).None? <==> Mismatch(v, s).None?
  {
    hide Canonical.Clean, CheckValue, Normalize, WellFormed;
    if s.Some? {
      CleanNormalizes(v);
      CheckNormalizes(v, s.value);
    }
  }

  /** Two results: both errors, or the second value is the first one sorted. */
  ghost predicate SameOutput(r: Result<Json>, s: Result<Json>) {
    (r.Ok? <==> s.Ok?) && (r.Ok? ==> WellFormed(r.value) && s.value == Normalize(r.value))
  }

  lemma EvaluateStored(c: Ctx, body: Expr)
    requires WellFormed(c.inputs) && WellFormedExpr(body)
    ensures SameOutput(Evaluate(c, body), Evaluate(NormalizeCtx(c), Snap(body)))
  {
    hide Sem, Sized, Snap, WellFormedExpr, Normalize, WellFormed;
    var none: Env := map[];
    SemSnap(c, body, none);
    assert NormalizeEnv(none) == none;
    var s := Sem(c, body, none);
    if s.result.Ok? {
      SizedNormalizes(s.result.value, c.limits, c.limits.maxOutputBytes, OutputLimit, 1);
    }
  }

  lemma GivenInputsNormalize(inputs: Json)
    requires WellFormed(inputs)
    ensures GivenInputs(Normalize(inputs)) == Normalize(GivenInputs(inputs)) && WellFormed(GivenInputs(inputs))
  {
  }

  lemma RunAdmittedStored(p: Program, inputs: Json, l: Limits, strings: Strings)
    requires WellFormedProgram(p) && WellFormed(inputs)
    ensures SameOutput(RunAdmitted(p, inputs, l, strings), RunAdmitted(SnapProgram(p), Normalize(inputs), l, strings))
  {
    hide Evaluate, Mismatch, Sized, Snap, WellFormedExpr, Normalize, WellFormed, GivenInputs, OptionNormalize;
    GivenInputsNormalize(inputs);
    var given := GivenInputs(inputs);
    var c := Ctx(l, given, strings);
    SizedNormalizes(given, l, l.maxInputBytes, InputLimit, 1);
    MismatchNormalizes(given, p.inputSchema);
    EvaluateStored(c, p.body);
    var output := Evaluate(c, p.body);
    if output.Ok? {
      MismatchNormalizes(output.value, p.outputSchema);
    }
  }

  /**
   * Storing preserves meaning: for every program and input that came from JSON,
   * the key-sorted program on the key-sorted input succeeds exactly when the
   * original does, and then with the same canonical output.
   */
  lemma StoredProgramRuns(j: Json, inputs: Json, l: Limits, strings: Strings)
    requires WellFormed(j) && WellFormed(inputs)
    ensures SameOutput(Run(j, inputs, l, strings), Run(Normalize(j), Normalize(inputs), l, strings))
    ensures Run(j, inputs, l, strings).Ok? ==>
              Canonical.Render(Run(Normalize(j), Normalize(inputs), l, strings).value)
              == Canonical.Render(Run(j, inputs, l, strings).value)
  {
    hide Admit, RunAdmitted, WellFormed, Normalize, Canonical.Render, WellFormedProgram;
    AdmitStored(j, l);
    var p := Admit(j, l);
    if p.Ok? {
      RunAdmittedStored(p.value, inputs, l, strings);
      var r := RunAdmitted(p.value, inputs, l, strings);
      if r.Ok? {
        Canonical.RenderNormalizes(r.value);
      }
    }
  }
}
