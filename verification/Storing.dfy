/**
 * Storing preserves meaning: an expression whose object fields and literals
 * have been sorted by key, run on sorted inputs, succeeds exactly when the
 * original does, after the same number of evaluations and with the same value
 * up to key order, although its fields now run in another order under the same
 * running byte total.
 */
module Storing {
  import opened Texts
  import opened Json
  import opened Limits
  import opened Sizing
  import opened Ir
  import opened Operators
  import opened Semantics
  import opened Snapshot
  import V = Validity

  /** Both succeed, with well-formed values equal up to key order and equal counts; or both fail. */
  ghost predicate Matches(s: Step<Json>, t: Step<Json>) {
    && (s.result.Ok? <==> t.result.Ok?)
    && (s.result.Ok? ==> WellFormed(s.result.value) && t.result.value == Normalize(s.result.value) && t.ticks == s.ticks)
  }

  ghost predicate AllMatch(s: Step<seq<Json>>, t: Step<seq<Json>>) {
    && (s.result.Ok? <==> t.result.Ok?)
    && (s.result.Ok? ==>
          && WellFormedItems(s.result.value)
          && t.result.value == NormalizeItems(s.result.value)
          && t.ticks == s.ticks)
  }

  /** What evaluation may assume of its expression, inputs and variables: all of them came from JSON. */
  ghost predicate Ready(c: Ctx, env: Env) {
    WellFormed(c.inputs) && WellFormedEnv(env)
  }

  // ----- fields in any order -----

  /** Every field's key, value and value size are fine on their own. */
  predicate FieldOk(c: Ctx, f: Field<Expr>, env: Env) {
    var s := Sem(c, f.value, env);
    Encodable(f.key) && s.result.Ok? && Fits(s.result.value, c.limits, 1)
  }

  predicate FieldsOk(c: Ctx, fields: seq<Field<Expr>>, env: Env) {
    fields == [] || (FieldOk(c, fields[0], env) && FieldsOk(c, fields[1..], env))
  }

  function FieldValue(c: Ctx, f: Field<Expr>, env: Env): Field<Json> {
    var s := Sem(c, f.value, env);
    Field(f.key, if s.result.Ok? then s.result.value else Null)
  }

  function FieldResults(c: Ctx, fields: seq<Field<Expr>>, env: Env): (r: seq<Field<Json>>)
    ensures |r| == |fields|
  {
    if fields == [] then [] else [FieldValue(c, fields[0], env)] + FieldResults(c, fields[1..], env)
  }

  function FieldTicks(c: Ctx, fields: seq<Field<Expr>>, env: Env): nat {
    if fields == [] then 0 else Sem(c, fields[0].value, env).ticks + FieldTicks(c, fields[1..], env)
  }

  lemma FieldHeadExact(key: Text, total: int, first: bool, l: Limits)
    ensures var t := total + (if first then 0 else 1) + ContentSize(key) + 3;
            (FieldHead(key, total, first, l).Ok? <==> Encodable(key) && t <= l.maxOutputBytes)
            && (FieldHead(key, total, first, l).Ok? ==> FieldHead(key, total, first, l).value == t)
  {
    ScanContentExact(key, 0, None);
  }

  lemma ChargeExact(v: Json, total: int, l: Limits)
    ensures Charge(v, total, l).Ok? <==> Fits(v, l, 1) && total + JsonSize(v) <= l.maxOutputBytes
    ensures Charge(v, total, l).Ok? ==> Charge(v, total, l).value == total + JsonSize(v)
  {
    hide Sized, Fits, JsonSize;
    SizedExact(v, l, l.maxOutputBytes - total, OutputLimit, 1);
  }

  /**
   * An object evaluates exactly when each field does on its own and the total
   * size is within the limit: neither condition mentions the order.
   */
  lemma {:induction false} FieldsExact(c: Ctx, fields: seq<Field<Expr>>, env: Env, total: int, first: bool)
    ensures var s := EvalFields(c, fields, env, total, first);
            var values := FieldResults(c, fields, env);
            && (s.result.Ok? <==> FieldsOk(c, fields, env)
                                  && (fields == [] || total + FieldsSize(values, first) <= c.limits.maxOutputBytes))
            && (s.result.Ok? ==> s.result.value == values && s.ticks == FieldTicks(c, fields, env))
  {
    hide Sem, Charge, FieldHead, Fits, JsonSize, Encodable, ContentSize;
    if fields != [] {
      var f := fields[0];
      var s := Sem(c, f.value, env);
      var values := FieldResults(c, fields, env);
      var t := total + (if first then 0 else 1) + ContentSize(f.key) + 3;
      assert values[0] == FieldValue(c, f, env) && values[1..] == FieldResults(c, fields[1..], env);
      FieldHeadExact(f.key, total, first, c.limits);
      if s.result.Ok? {
        ChargeExact(s.result.value, t, c.limits);
        FieldsExact(c, fields[1..], env, t + JsonSize(s.result.value), false);
      }
    }
  }

  lemma {:induction false} InsertFields(c: Ctx, f: Field<Expr>, fields: seq<Field<Expr>>, env: Env)
    ensures FieldsOk(c, Insert(f, fields), env) <==> FieldOk(c, f, env) && FieldsOk(c, fields, env)
    ensures FieldResults(c, Insert(f, fields), env) == Insert(FieldValue(c, f, env), FieldResults(c, fields, env))
    ensures FieldTicks(c, Insert(f, fields), env) == Sem(c, f.value, env).ticks + FieldTicks(c, fields, env)
  {
    hide FieldOk, Sem, Below;
    var values := FieldResults(c, fields, env);
    if fields == [] || Below(f.key, fields[0].key) {
      assert ([f] + fields)[1..] == fields;
    } else {
      InsertFields(c, f, fields[1..], env);
      assert Insert(f, fields)[1..] == Insert(f, fields[1..]);
      assert values[1..] == FieldResults(c, fields[1..], env);
    }
  }

  /** Sorting the fields sorts the results and changes neither success nor the count. */
  lemma {:induction false} SortedFields(c: Ctx, fields: seq<Field<Expr>>, env: Env)
    ensures FieldsOk(c, SortByKey(fields), env) <==> FieldsOk(c, fields, env)
    ensures FieldResults(c, SortByKey(fields), env) == SortByKey(FieldResults(c, fields, env))
    ensures FieldTicks(c, SortByKey(fields), env) == FieldTicks(c, fields, env)
  {
    hide FieldOk, FieldValue, Sem, Insert;
    if fields != [] {
      SortedFields(c, fields[1..], env);
      InsertFields(c, fields[0], SortByKey(fields[1..]), env);
      assert FieldResults(c, fields, env)[1..] == FieldResults(c, fields[1..], env);
    }
  }

  lemma {:induction false} FieldsSnap(c: Ctx, fields: seq<Field<Expr>>, env: Env)
    requires Ready(c, env) && FieldsWellFormed(fields)
    ensures FieldsOk(NormalizeCtx(c), SnapFields(fields), NormalizeEnv(env)) <==> FieldsOk(c, fields, env)
    ensures FieldsOk(c, fields, env) ==>
              && FieldResults(NormalizeCtx(c), SnapFields(fields), NormalizeEnv(env)) == NormalizeFields(FieldResults(c, fields, env))
              && FieldTicks(NormalizeCtx(c), SnapFields(fields), NormalizeEnv(env)) == FieldTicks(c, fields, env)
              && forall i :: 0 <= i < |fields| ==> WellFormed(FieldResults(c, fields, env)[i].value)
    decreases fields, 0
  {
    hide Sem, Snap, Fits, Encodable, WellFormedExpr, WellFormed, Normalize, NormalizeEnv, WellFormedEnv;
    if fields != [] {
      var f := fields[0];
      SemSnap(c, f.value, env);
      FieldsSnap(c, fields[1..], env);
      var s := Sem(c, f.value, env);
      if s.result.Ok? {
        FitsNormalizes(s.result.value, c.limits, 1);
      }
      assert SnapFields(fields)[1..] == SnapFields(fields[1..]);
      var values := FieldResults(c, fields, env);
      assert values[1..] == FieldResults(c, fields[1..], env);
      assert forall i :: 0 < i < |fields| ==> values[i] == values[1..][i - 1];
    }
  }

  lemma {:induction false} FieldResultKeys(c: Ctx, fields: seq<Field<Expr>>, env: Env, i: nat)
    requires i < |fields|
    ensures FieldResults(c, fields, env)[i].key == fields[i].key
  {
    hide Sem;
    if i > 0 {
      FieldResultKeys(c, fields[1..], env, i - 1);
    }
  }

  lemma FieldResultsUnique(c: Ctx, fields: seq<Field<Expr>>, env: Env)
    requires UniqueKeys(fields)
    ensures UniqueKeys(FieldResults(c, fields, env))
  {
    hide Sem;
    forall i, j | 0 <= i < j < |fields|
      ensures FieldResults(c, fields, env)[i].key != FieldResults(c, fields, env)[j].key
    {
      FieldResultKeys(c, fields, env, i);
      FieldResultKeys(c, fields, env, j);
    }
  }

  lemma {:induction false} ObjectSnap(c: Ctx, e: Expr, env: Env)
    requires Ready(c, env) && WellFormedExpr(e) && e.Object?
    ensures Matches(Eval(c, e, env), Eval(NormalizeCtx(c), Snap(e), NormalizeEnv(env)))
    decreases e, 2
  {
    hide Sem, EvalFields, FieldsOk, FieldResults, FieldTicks, FieldsWellFormed, SortByKey, SnapFields, JsonSize, FieldsSize,
      NormalizeEnv, WellFormedEnv, NormalizeFields;
    var fields, d, denv := e.fields, NormalizeCtx(c), NormalizeEnv(env);
    var values := FieldResults(c, fields, env);
    FieldsExact(c, fields, env, 2, true);
    FieldsExact(d, SortByKey(SnapFields(fields)), denv, 2, true);
    SortedFields(d, SnapFields(fields), denv);
    FieldsSnap(c, fields, env);
    if FieldsOk(c, fields, env) {
      FieldResultsUnique(c, fields, env);
      assert WellFormed(Obj(values));
      ObjectSizeNormalizes(values);
    }
  }

  lemma ObjectSizeNormalizes(values: seq<Field<Json>>)
    requires WellFormed(Obj(values))
    ensures FieldsSize(SortByKey(NormalizeFields(values)), true) == FieldsSize(values, true)
  {
    hide FieldsSize, SortByKey, NormalizeFields, WellFormed;
    SizeNormalizes(Obj(values));
    assert JsonSize(Obj(SortByKey(NormalizeFields(values)))) == 2 + FieldsSize(SortByKey(NormalizeFields(values)), true);
    assert JsonSize(Obj(values)) == 2 + FieldsSize(values, true);
  }

  // ----- the theorem, operation by operation -----

  /** The stored expression evaluates as the original does, up to key order. */
  lemma {:induction false} SemSnap(c: Ctx, e: Expr, env: Env)
    requires Ready(c, env) && WellFormedExpr(e)
    ensures Matches(Sem(c, e, env), Sem(NormalizeCtx(c), Snap(e), NormalizeEnv(env)))
    decreases e, 4
  {
    hide Eval, WellFormedExpr, Ready;
    EvalSnap(c, e, env);
  }

  lemma {:induction false} EvalSnap(c: Ctx, e: Expr, env: Env)
    requires Ready(c, env) && WellFormedExpr(e)
    ensures Matches(Eval(c, e, env), Eval(NormalizeCtx(c), Snap(e), NormalizeEnv(env)))
    decreases e, 3
  {
    if e.Object? {
      ObjectSnap(c, e, env);
    } else if e.Get? {
      GetSnap(c, e, env);
    } else if e.Lazy? {
      LazyEvalSnap(c, e, env);
    } else if e.Each? {
      EachSnap(c, e, env);
    } else if e.Sum? {
      SumSnap(c, e, env);
    } else if e.Array? || e.Apply? {
      OperandsSnap(c, e, env);
    } else {
      LeafSnap(c, e, env);
    }
  }

  lemma LeafSnap(c: Ctx, e: Expr, env: Env)
    requires Ready(c, env) && WellFormedExpr(e) && (e.Literal? || e.Input? || e.Var?)
    ensures Matches(Eval(c, e, env), Eval(NormalizeCtx(c), Snap(e), NormalizeEnv(env)))
  {
    hide Normalize, WellFormed;
    if e.Input? {
      InputSnap(c.inputs, e.name);
    }
  }

  lemma InputSnap(inputs: Json, name: Option<Text>)
    requires WellFormed(inputs)
    ensures InputOf(Normalize(inputs), name).Ok? <==> InputOf(inputs, name).Ok?
    ensures InputOf(inputs, name).Ok? ==>
              InputOf(Normalize(inputs), name).value == Normalize(InputOf(inputs, name).value) && WellFormed(InputOf(inputs, name).value)
  {
    hide Lookup, SortByKey, NormalizeFields;
    if inputs.Obj? && name.Some? {
      LookupNormalized(inputs.fields, name.value);
      LookupFindsKey(inputs.fields, name.value);
    }
  }

  lemma {:induction false} ItemsSnap(c: Ctx, es: seq<Expr>, env: Env, total: int, first: bool)
    requires Ready(c, env) && AllWellFormed(es)
    ensures AllMatch(EvalItems(c, es, env, total, first),
                     EvalItems(NormalizeCtx(c), SnapAll(es), NormalizeEnv(env), total, first))
    decreases es, 0
  {
    hide Sem, Charge, Snap, WellFormedExpr, WellFormed, Normalize, NormalizeEnv, WellFormedEnv;
    if es != [] {
      assert SnapAll(es)[0] == Snap(es[0]) && SnapAll(es)[1..] == SnapAll(es[1..]);
      SemSnap(c, es[0], env);
      var t, s := Comma(total, first, c.limits), Sem(c, es[0], env);
      if t.Ok? && s.result.Ok? {
        ChargeNormalizes(s.result.value, t.value, c.limits);
        var u := Charge(s.result.value, t.value, c.limits);
        if u.Ok? {
          ItemsSnap(c, es[1..], env, u.value, false);
          ConsMatches(s, EvalItems(c, es[1..], env, u.value, false),
                      EvalItems(NormalizeCtx(c), SnapAll(es[1..]), NormalizeEnv(env), u.value, false));
        }
      }
    }
  }

  lemma ConsMatches(s: Step<Json>, rest: Step<seq<Json>>, other: Step<seq<Json>>)
    requires s.result.Ok? && WellFormed(s.result.value) && AllMatch(rest, other)
    ensures AllMatch(Prefix(s.result.value, s.ticks, rest), Prefix(Normalize(s.result.value), s.ticks, other))
  {
    hide WellFormed, Normalize;
    if rest.result.Ok? {
      var values := [s.result.value] + rest.result.value;
      assert values[1..] == rest.result.value;
      assert NormalizeItems(values)[1..] == NormalizeItems(rest.result.value);
    }
  }

  lemma {:induction false} OperandsSnap(c: Ctx, e: Expr, env: Env)
    requires Ready(c, env) && WellFormedExpr(e) && (e.Array? || e.Apply?)
    ensures Matches(Eval(c, e, env), Eval(NormalizeCtx(c), Snap(e), NormalizeEnv(env)))
    decreases e, 2
  {
    hide EvalItems, ApplyOp, AllWellFormed, NormalizeItems, SnapAll, Ready;
    var es := if e.Array? then e.elements else e.args;
    ItemsSnap(c, es, env, 2, true);
    var s := EvalItems(c, es, env, 2, true);
    if s.result.Ok? && e.Apply? {
      ApplyNormalizes(e.op, s.result.value, c.strings, c.limits);
      if ApplyOp(e.op, s.result.value, c.strings, c.limits).Ok? {
        ApplyWellFormed(e.op, s.result.value, c.strings, c.limits);
      }
    }
  }

  /** Lookups by key do not see key order, and lookups by position see the same positions. */
  lemma FoundNormalizes(target: Json, key: Json)
    requires WellFormed(target)
    ensures var f, g := GetOf(target, key), GetOf(Normalize(target), Normalize(key));
            && (f.Ok? <==> g.Ok?)
            && (f.Ok? ==> g.value == OptionNormalize(f.value) && (f.value.Some? ==> WellFormed(f.value.value)))
  {
    hide Lookup, SortByKey, NormalizeFields, NormalizeItems;
    if target.Obj? && key.Str? {
      LookupNormalized(target.fields, key.text);
      LookupFindsKey(target.fields, key.text);
    } else if target.Arr? && key.Int? {
      var n, i := |target.items|, key.number;
      if 0 <= i < n {
        NormalizeItemsAt(target.items, i);
      } else if -n <= i < 0 {
        NormalizeItemsAt(target.items, n + i);
      }
    }
  }

  lemma {:induction false} GetSnap(c: Ctx, e: Expr, env: Env)
    requires Ready(c, env) && WellFormedExpr(e) && e.Get?
    ensures Matches(Eval(c, e, env), Eval(NormalizeCtx(c), Snap(e), NormalizeEnv(env)))
    decreases e, 2
  {
    hide Sem, GetOf, WellFormed, Normalize, NormalizeEnv, Ready;
    SemSnap(c, e.target, env);
    SemSnap(c, e.key, env);
    var t, k := Sem(c, e.target, env), Sem(c, e.key, env);
    if t.result.Ok? && k.result.Ok? {
      FoundNormalizes(t.result.value, k.result.value);
    }
    if e.fallback.Some? {
      SemSnap(c, e.fallback.value, env);
    }
  }

  lemma {:induction false} LazyEvalSnap(c: Ctx, e: Expr, env: Env)
    requires Ready(c, env) && WellFormedExpr(e) && e.Lazy?
    ensures Matches(Eval(c, e, env), Eval(NormalizeCtx(c), Snap(e), NormalizeEnv(env)))
    decreases e, 2
  {
    hide EvalAnd, EvalOr, EvalIf, EvalCoalesce, AllWellFormed, SnapAll, Ready, NormalizeEnv;
    LazySnap(c, e.lazyOp, e.args, env);
  }

  lemma {:induction false} LazySnap(c: Ctx, op: LazyOp, args: seq<Expr>, env: Env)
    requires Ready(c, env) && AllWellFormed(args)
    ensures Matches(V.LazyStep(c, op, args, env), V.LazyStep(NormalizeCtx(c), op, SnapAll(args), NormalizeEnv(env)))
    decreases args, 1
  {
    hide Sem, Snap, WellFormedExpr, NormalizeEnv, Ready, NormalizeCtx;
    if args != [] {
      assert SnapAll(args)[0] == Snap(args[0]) && SnapAll(args)[1..] == SnapAll(args[1..]);
      SemSnap(c, args[0], env);
      if op.If? {
        BranchSnap(c, args, 1, env);
        BranchSnap(c, args, 2, env);
      } else {
        LazySnap(c, op, args[1..], env);
      }
    }
  }

  lemma {:induction false} BranchSnap(c: Ctx, args: seq<Expr>, i: nat, env: Env)
    requires Ready(c, env) && AllWellFormed(args) && 1 <= i <= 2
    ensures i < |args| ==> Matches(Sem(c, args[i], env), Sem(NormalizeCtx(c), SnapAll(args)[i], NormalizeEnv(env)))
    decreases args, 0
  {
    hide Sem, Matches, WellFormedExpr, NormalizeEnv, Ready, NormalizeCtx, Snap;
    if i < |args| {
      AllWellFormedAt(args, i);
      SnapAllAt(args, i);
      SemSnap(c, args[i], env);
    }
  }

  lemma {:induction false} AllWellFormedAt(es: seq<Expr>, i: nat)
    requires AllWellFormed(es) && i < |es|
    ensures WellFormedExpr(es[i])
  {
    hide WellFormedExpr;
    if i > 0 {
      AllWellFormedAt(es[1..], i - 1);
    }
  }

  lemma {:induction false} SnapAllAt(es: seq<Expr>, i: nat)
    requires i < |es|
    ensures SnapAll(es)[i] == Snap(es[i])
  {
    hide Snap;
    if i > 0 {
      SnapAllAt(es[1..], i - 1);
    }
  }

  /** A collection that matches is an array with matching items, or neither is an array. */
  lemma CollectionMatches(v: Json, l: Limits)
    requires WellFormed(v)
    ensures AsArray(Normalize(v), l).Ok? <==> AsArray(v, l).Ok?
    ensures AsArray(v, l).Ok? ==>
              && AsArray(Normalize(v), l).value == NormalizeItems(AsArray(v, l).value)
              && WellFormedItems(AsArray(v, l).value)
  {
    hide NormalizeItems;
  }

  lemma {:induction false} SumSnap(c: Ctx, e: Expr, env: Env)
    requires Ready(c, env) && WellFormedExpr(e) && e.Sum?
    ensures Matches(Eval(c, e, env), Eval(NormalizeCtx(c), Snap(e), NormalizeEnv(env)))
    decreases e, 2
  {
    hide Sem, SumFrom, WellFormed, Normalize, NormalizeEnv, Ready, AsArray;
    SemSnap(c, e.collection, env);
    var s := Sem(c, e.collection, env);
    if s.result.Ok? {
      CollectionMatches(s.result.value, c.limits);
      var items := AsArray(s.result.value, c.limits);
      if items.Ok? {
        SumNormalizes(items.value, 0, c.limits);
        assert forall n :: WellFormed(Int(n)) && Normalize(Int(n)) == Int(n) by {
          IntIsNormal();
        }
      }
    }
  }

  lemma IntIsNormal()
    ensures forall n :: WellFormed(Int(n)) && Normalize(Int(n)) == Int(n)
  {
  }

  // ----- traversals -----

  lemma BindingNormalizes(env: Env, name: Text, v: Json)
    requires WellFormedEnv(env) && WellFormed(v)
    ensures NormalizeEnv(env[name := v]) == NormalizeEnv(env)[name := Normalize(v)]
    ensures WellFormedEnv(env[name := v])
  {
    hide WellFormed, Normalize;
  }

  lemma NestNormalizes(env: Env, item: Text, index: Option<Text>, v: Json, i: nat)
    requires WellFormedEnv(env) && WellFormed(v)
    ensures NormalizeEnv(Nest(env, item, index, v, i)) == Nest(NormalizeEnv(env), item, index, Normalize(v), i)
    ensures WellFormedEnv(Nest(env, item, index, v, i))
  {
    hide WellFormedEnv, NormalizeEnv;
    BindingNormalizes(env, item, v);
    if index.Some? {
      assert WellFormed(Int(i)) && Normalize(Int(i)) == Int(i);
      BindingNormalizes(env[item := v], index.value, Int(i));
    }
  }

  lemma {:induction false} EachSnap(c: Ctx, e: Expr, env: Env)
    requires Ready(c, env) && WellFormedExpr(e) && e.Each?
    ensures Matches(Eval(c, e, env), Eval(NormalizeCtx(c), Snap(e), NormalizeEnv(env)))
    decreases e, 2
  {
    hide Sem, EvalEach, WellFormed, Normalize, NormalizeEnv, Ready, AsArray, Matches;
    SemSnap(c, e.collection, env);
    var s := Sem(c, e.collection, env);
    MatchesUnfold(s, Sem(NormalizeCtx(c), Snap(e.collection), NormalizeEnv(env)));
    if s.result.Ok? {
      CollectionMatches(s.result.value, c.limits);
      var items := AsArray(s.result.value, c.limits);
      if items.Ok? {
        TraversalSnap(c, e, items.value, env);
        AfterMatches(s.ticks, EvalEach(c, e.each, e.item, e.index, e.body, items.value, env),
                     EvalEach(NormalizeCtx(c), e.each, e.item, e.index, Snap(e.body), NormalizeItems(items.value), NormalizeEnv(env)));
      } else {
        BothFail(Eval(c, e, env), Eval(NormalizeCtx(c), Snap(e), NormalizeEnv(env)));
      }
    } else {
      BothFail(Eval(c, e, env), Eval(NormalizeCtx(c), Snap(e), NormalizeEnv(env)));
    }
  }

  lemma MatchesUnfold(s: Step<Json>, t: Step<Json>)
    requires Matches(s, t)
    ensures s.result.Ok? <==> t.result.Ok?
    ensures s.result.Ok? ==> WellFormed(s.result.value) && t.result.value == Normalize(s.result.value) && t.ticks == s.ticks
  {
  }

  lemma BothFail(s: Step<Json>, t: Step<Json>)
    requires s.result.Err? && t.result.Err?
    ensures Matches(s, t)
  {
  }

  lemma AfterMatches(n: nat, s: Step<Json>, t: Step<Json>)
    requires Matches(s, t)
    ensures Matches(After(n, s), After(n, t))
  {
  }

  lemma {:induction false} TraversalSnap(c: Ctx, e: Expr, items: seq<Json>, env: Env)
    requires Ready(c, env) && WellFormedExpr(e) && e.Each? && WellFormedItems(items)
    ensures Matches(EvalEach(c, e.each, e.item, e.index, e.body, items, env),
                    EvalEach(NormalizeCtx(c), e.each, e.item, e.index, Snap(e.body), NormalizeItems(items), NormalizeEnv(env)))
    decreases e, 1
  {
    hide EvalMap, EvalFilter, EvalKeys, SortItems, NormalizeItems, WellFormedExpr, NormalizeEnv, Ready;
    match e.each
    case Map => MapSnap(c, e, items, 0, env, 2);
    case Filter => FilterSnap(c, e, items, 0, env);
    case Sort(descending) =>
      KeysSnap(c, e, items, 0, env, 2);
      var s := EvalKeys(c, e.item, e.index, e.body, items, 0, env, 2);
      if s.result.Ok? {
        SortSnap(s.result.value, descending, c.limits);
      }
  }

  lemma {:induction false} MapSnap(c: Ctx, e: Expr, items: seq<Json>, i: nat, env: Env, total: int)
    requires Ready(c, env) && WellFormedExpr(e) && e.Each? && WellFormedItems(items)
    ensures AllMatch(EvalMap(c, e.item, e.index, e.body, items, i, env, total),
                     EvalMap(NormalizeCtx(c), e.item, e.index, Snap(e.body), NormalizeItems(items), i, NormalizeEnv(env), total))
    decreases e, 0, |items|
  {
    hide Sem, Charge, Snap, WellFormed, Normalize, NormalizeEnv, WellFormedEnv, Nest;
    if items != [] {
      var d, denv := NormalizeCtx(c), NormalizeEnv(env);
      assert NormalizeItems(items)[0] == Normalize(items[0]) && NormalizeItems(items)[1..] == NormalizeItems(items[1..]);
      NestNormalizes(env, e.item, e.index, items[0], i);
      var nested := Nest(env, e.item, e.index, items[0], i);
      SemSnap(c, e.body, nested);
      var t, s := Comma(total, i == 0, c.limits), Sem(c, e.body, nested);
      if t.Ok? && s.result.Ok? {
        ChargeNormalizes(s.result.value, t.value, c.limits);
        var u := Charge(s.result.value, t.value, c.limits);
        if u.Ok? {
          MapSnap(c, e, items[1..], i + 1, env, u.value);
          ConsMatches(s, EvalMap(c, e.item, e.index, e.body, items[1..], i + 1, env, u.value),
                      EvalMap(d, e.item, e.index, Snap(e.body), NormalizeItems(items[1..]), i + 1, denv, u.value));
        }
      }
    }
  }

  lemma {:induction false} FilterSnap(c: Ctx, e: Expr, items: seq<Json>, i: nat, env: Env)
    requires Ready(c, env) && WellFormedExpr(e) && e.Each? && WellFormedItems(items)
    ensures AllMatch(EvalFilter(c, e.item, e.index, e.body, items, i, env),
                     EvalFilter(NormalizeCtx(c), e.item, e.index, Snap(e.body), NormalizeItems(items), i, NormalizeEnv(env)))
    decreases e, 0, |items|
  {
    hide Sem, Snap, WellFormed, NormalizeEnv, WellFormedEnv, Nest, SortByKey, NormalizeFields;
    if items != [] {
      var d, denv := NormalizeCtx(c), NormalizeEnv(env);
      assert NormalizeItems(items)[0] == Normalize(items[0]) && NormalizeItems(items)[1..] == NormalizeItems(items[1..]);
      NestNormalizes(env, e.item, e.index, items[0], i);
      var nested := Nest(env, e.item, e.index, items[0], i);
      SemSnap(c, e.body, nested);
      FilterSnap(c, e, items[1..], i + 1, env);
      var s := Sem(c, e.body, nested);
      if s.result.Ok? && s.result.value.Bool? {
        ConsMatches(Step(Ok(items[0]), s.ticks), EvalFilter(c, e.item, e.index, e.body, items[1..], i + 1, env),
                    EvalFilter(d, e.item, e.index, Snap(e.body), NormalizeItems(items[1..]), i + 1, denv));
      }
    }
  }

  // ----- sorting -----

  function NormalizeKeyed(ks: seq<Keyed>): (r: seq<Keyed>)
    ensures |r| == |ks|
  {
    if ks == [] then [] else [Keyed(ks[0].sortKey, Normalize(ks[0].item))] + NormalizeKeyed(ks[1..])
  }

  ghost predicate KeyedMatch(s: Step<seq<Keyed>>, t: Step<seq<Keyed>>) {
    && (s.result.Ok? <==> t.result.Ok?)
    && (s.result.Ok? ==>
          && WellFormedKeyed(s.result.value)
          && t.result.value == NormalizeKeyed(s.result.value)
          && t.ticks == s.ticks)
  }

  ghost predicate WellFormedKeyed(ks: seq<Keyed>) {
    forall i :: 0 <= i < |ks| ==> WellFormed(ks[i].item)
  }

  lemma ConsKeyedMatches(k: Keyed, ticks: nat, rest: Step<seq<Keyed>>, other: Step<seq<Keyed>>)
    requires WellFormed(k.item) && KeyedMatch(rest, other)
    ensures KeyedMatch(Prefix(k, ticks, rest), Prefix(Keyed(k.sortKey, Normalize(k.item)), ticks, other))
  {
    hide WellFormed, Normalize;
    if rest.result.Ok? {
      var ks := [k] + rest.result.value;
      assert ks[1..] == rest.result.value;
      assert NormalizeKeyed(ks)[1..] == NormalizeKeyed(rest.result.value);
    }
  }

  lemma KeyNormalizes(v: Json)
    ensures SortKeyOf(Normalize(v)) == SortKeyOf(v)
  {
  }

  lemma {:induction false} KeysSnap(c: Ctx, e: Expr, items: seq<Json>, i: nat, env: Env, total: int)
    requires Ready(c, env) && WellFormedExpr(e) && e.Each? && WellFormedItems(items)
    ensures KeyedMatch(EvalKeys(c, e.item, e.index, e.body, items, i, env, total),
                       EvalKeys(NormalizeCtx(c), e.item, e.index, Snap(e.body), NormalizeItems(items), i, NormalizeEnv(env), total))
    decreases e, 0, |items|
  {
    hide Sem, Charge, Snap, WellFormed, Normalize, NormalizeEnv, WellFormedEnv, Nest, SortKeyOf;
    if items != [] {
      var d, denv := NormalizeCtx(c), NormalizeEnv(env);
      assert NormalizeItems(items)[0] == Normalize(items[0]) && NormalizeItems(items)[1..] == NormalizeItems(items[1..]);
      NestNormalizes(env, e.item, e.index, items[0], i);
      var nested := Nest(env, e.item, e.index, items[0], i);
      SemSnap(c, e.body, nested);
      var t, s := Comma(total, i == 0, c.limits), Sem(c, e.body, nested);
      if t.Ok? && s.result.Ok? {
        ChargeNormalizes(s.result.value, t.value, c.limits);
        KeyNormalizes(s.result.value);
        var u, k := Charge(s.result.value, t.value, c.limits), SortKeyOf(s.result.value);
        if u.Ok? && k.Ok? {
          KeysSnap(c, e, items[1..], i + 1, env, u.value);
          ConsKeyedMatches(Keyed(k.value, items[0]), s.ticks,
                           EvalKeys(c, e.item, e.index, e.body, items[1..], i + 1, env, u.value),
                           EvalKeys(d, e.item, e.index, Snap(e.body), NormalizeItems(items[1..]), i + 1, denv, u.value));
        }
      }
    }
  }

  lemma {:induction false} InsertKeyedSnap(k: Keyed, ks: seq<Keyed>, descending: bool)
    requires WellFormed(k.item) && WellFormedKeyed(ks)
    ensures NormalizeKeyed(InsertKeyed(k, ks, descending))
            == InsertKeyed(Keyed(k.sortKey, Normalize(k.item)), NormalizeKeyed(ks), descending)
    ensures WellFormedKeyed(InsertKeyed(k, ks, descending))
  {
    hide WellFormed, Normalize, KeyBelow;
    if ks == [] || !Before(ks[0], k, descending) {
      assert ([k] + ks)[1..] == ks;
    } else {
      var rest := InsertKeyed(k, ks[1..], descending);
      InsertKeyedSnap(k, ks[1..], descending);
      assert ([ks[0]] + rest)[1..] == rest;
      assert NormalizeKeyed(ks)[1..] == NormalizeKeyed(ks[1..]);
    }
  }

  lemma {:induction false} StableSortSnap(ks: seq<Keyed>, descending: bool)
    requires WellFormedKeyed(ks)
    ensures StableSort(NormalizeKeyed(ks), descending) == NormalizeKeyed(StableSort(ks, descending))
    ensures WellFormedKeyed(StableSort(ks, descending))
  {
    hide WellFormed, Normalize, InsertKeyed;
    if ks != [] {
      StableSortSnap(ks[1..], descending);
      InsertKeyedSnap(ks[0], StableSort(ks[1..], descending), descending);
      assert NormalizeKeyed(ks)[1..] == NormalizeKeyed(ks[1..]);
    }
  }

  lemma {:induction false} ItemsOfSnap(ks: seq<Keyed>)
    requires WellFormedKeyed(ks)
    ensures ItemsOf(NormalizeKeyed(ks)) == NormalizeItems(ItemsOf(ks))
    ensures WellFormedItems(ItemsOf(ks))
  {
    hide WellFormed, Normalize;
    if ks != [] {
      ItemsOfSnap(ks[1..]);
      assert NormalizeKeyed(ks)[1..] == NormalizeKeyed(ks[1..]);
      assert ItemsOf(ks)[1..] == ItemsOf(ks[1..]);
      assert forall i :: 0 < i < |ks| ==> ItemsOf(ks)[i] == ItemsOf(ks)[1..][i - 1];
    }
  }

  lemma SortSnap(ks: seq<Keyed>, descending: bool, l: Limits)
    requires WellFormedKeyed(ks)
    ensures SortItems(NormalizeKeyed(ks), descending, l) == NormalizeResult(SortItems(ks, descending, l))
    ensures SortItems(ks, descending, l).Ok? ==> WellFormed(SortItems(ks, descending, l).value)
  {
    hide StableSort, ItemsOf, NormalizeKeyed, NormalizeItems;
    StableSortSnap(ks, descending);
    ItemsOfSnap(StableSort(ks, descending));
  }
}
