/**
 * Raising any resource limit leaves every outcome that was not a budget error
 * exactly as it was: the same value or error after the same evaluations.
 */
module Raising {
  import opened Texts
  import opened Json
  import opened Limits
  import opened Sizing
  import opened Ir
  import opened Operators
  import opened Semantics
  import TextOps
  import D = Denotation
  import R = Refinement

  /** The step under the lower limits is the step under the higher ones, or hit a limit. */
  predicate Kept<T(==)>(low: Step<T>, high: Step<T>) {
    low == high || (low.result.Err? && D.Budget(low.result.code))
  }

  lemma {:induction false} FitsRaised(v: Json, l: Limits, m: Limits, depth: nat)
    requires AtMost(l, m) && Fits(v, l, depth)
    ensures Fits(v, m, depth)
    decreases v, 0
  {
    match v
    case Arr(items) => ItemsFitRaised(items, l, m, depth + 1);
    case Obj(fields) => FieldsFitRaised(fields, l, m, depth + 1);
    case _ =>
  }

  lemma {:induction false} ItemsFitRaised(items: seq<Json>, l: Limits, m: Limits, depth: nat)
    requires AtMost(l, m) && ItemsFit(items, l, depth)
    ensures ItemsFit(items, m, depth)
    decreases items, 1
  {
    if items != [] {
      FitsRaised(items[0], l, m, depth);
      ItemsFitRaised(items[1..], l, m, depth);
    }
  }

  lemma {:induction false} FieldsFitRaised(fields: seq<Field<Json>>, l: Limits, m: Limits, depth: nat)
    requires AtMost(l, m) && FieldsFit(fields, l, depth)
    ensures FieldsFit(fields, m, depth)
    decreases fields, 1
  {
    if fields != [] {
      FitsRaised(fields[0].value, l, m, depth);
      FieldsFitRaised(fields[1..], l, m, depth);
    }
  }

  /** A value sized within a budget has the same size within any larger one. */
  lemma SizedRaised(v: Json, l: Limits, m: Limits, lowMax: int, highMax: int, code: Code, depth: nat)
    requires AtMost(l, m) && lowMax <= highMax && Sized(v, l, lowMax, code, depth).Ok?
    ensures Sized(v, m, highMax, code, depth) == Sized(v, l, lowMax, code, depth)
  {
    hide Sized, Fits, JsonSize;
    SizedExact(v, l, lowMax, code, depth);
    SizedExact(v, m, highMax, code, depth);
    FitsRaised(v, l, m, depth);
  }

  lemma ChargeRaised(v: Json, total: int, l: Limits, m: Limits)
    requires AtMost(l, m)
    ensures D.Agree(Charge(v, total, l), Charge(v, total, m))
  {
    hide Sized;
    R.ChargeBudget(v, total, l);
    if Charge(v, total, l).Ok? {
      SizedRaised(v, l, m, l.maxOutputBytes - total, m.maxOutputBytes - total, OutputLimit, 1);
    }
  }

  lemma FieldHeadRaised(key: Text, total: int, first: bool, l: Limits, m: Limits)
    requires AtMost(l, m)
    ensures D.Agree(FieldHead(key, total, first, l), FieldHead(key, total, first, m))
  {
    hide ScanContent;
    R.FieldHeadBudget(key, total, first, l);
  }

  lemma {:induction false} SumRaised(items: seq<Json>, total: int, l: Limits, m: Limits)
    requires AtMost(l, m)
    ensures D.Agree(SumFrom(items, total, l), SumFrom(items, total, m))
    decreases |items|
  {
    if items != [] && items[0].Int? {
      SumRaised(items[1..], total + items[0].number, l, m);
    }
  }

  // ----- operators -----

  lemma {:induction false} AddRaised(acc: int, ns: seq<int>, l: Limits, m: Limits)
    requires AtMost(l, m)
    ensures D.Agree(AddFrom(acc, ns, l), AddFrom(acc, ns, m))
    decreases |ns|
  {
    if ns != [] {
      AddRaised(acc + ns[0], ns[1..], l, m);
    }
  }

  lemma {:induction false} MultiplyRaised(acc: int, ns: seq<int>, l: Limits, m: Limits)
    requires AtMost(l, m)
    ensures D.Agree(MultiplyFrom(acc, ns, l), MultiplyFrom(acc, ns, m))
    decreases |ns|
  {
    if ns != [] {
      MultiplyRaised(acc * ns[0], ns[1..], l, m);
    }
  }

  lemma NumericRaised(op: Op, values: seq<Json>, l: Limits, m: Limits)
    requires IsNumeric(op) && AtMost(l, m)
    ensures D.Agree(Numeric(op, values, l), Numeric(op, values, m))
  {
    hide AsInts, AddFrom, MultiplyFrom, BitLength, Least, Greatest, Power, FloorMod;
    var r := AsInts(values);
    if r.Ok? && r.value != [] {
      AddRaised(r.value[0], r.value[1..], l, m);
      MultiplyRaised(r.value[0], r.value[1..], l, m);
    }
  }

  lemma {:induction false} PartsRaised(parts: seq<Text>, total: int, l: Limits, m: Limits)
    requires AtMost(l, m)
    ensures D.Agree(PartsBytes(parts, total, l), PartsBytes(parts, total, m))
    decreases |parts|
  {
    hide ScanContent;
    if parts != [] {
      D.PartsBytesBudget(parts, total, l);
      var size := ContentBytes(parts[0]);
      if size.Ok? {
        PartsRaised(parts[1..], total + size.value, l, m);
      }
    }
  }

  lemma PreflightRaised(parts: seq<Text>, separator: Option<Text>, l: Limits, m: Limits)
    requires AtMost(l, m)
    ensures D.Agree(PreflightParts(parts, separator, l), PreflightParts(parts, separator, m))
  {
    hide ScanContent, PartsBytes;
    PartsRaised(parts, 0, l, m);
    D.PreflightBudget(parts, separator, l);
  }

  lemma BoundedStringRaised(t: Text, l: Limits, m: Limits)
    requires AtMost(l, m)
    ensures D.Agree(BoundedString(t, l), BoundedString(t, m))
  {
    hide ScanContent, ContentSize;
    var low := if l.maxOutputBytes >= 2 then l.maxOutputBytes - 2 else 0;
    var high := if m.maxOutputBytes >= 2 then m.maxOutputBytes - 2 else 0;
    D.BoundedStringRefines(t, l);
    ScanContentExact(t, 0, Some(low));
    ScanContentExact(t, 0, Some(high));
  }

  lemma ReplaceRaised(values: seq<Json>, l: Limits, m: Limits)
    requires AtMost(l, m)
    ensures D.Agree(ReplaceOf(values, l), ReplaceOf(values, m))
  {
    hide ReplacePrediction, TextOps.Replace;
  }

  lemma SplitRaised(values: seq<Json>, l: Limits, m: Limits)
    requires AtMost(l, m)
    ensures D.Agree(SplitOf(values, l), SplitOf(values, m))
  {
    hide SplitPrediction, TextOps.Split, TextOps.Count, TextOps.Strings;
  }

  lemma JoinRaised(values: seq<Json>, l: Limits, m: Limits)
    requires AtMost(l, m)
    ensures D.Agree(JoinOf(values, l), JoinOf(values, m))
  {
    hide PreflightParts, AsTexts, TextOps.Join;
    if |values| >= 2 && values[0].Str? && values[1].Arr? {
      var parts := AsTexts(values[1].items);
      if parts.Ok? {
        PreflightRaised(parts.value, Some(values[0].text), l, m);
      }
    }
  }

  lemma SliceRaised(values: seq<Json>, l: Limits, m: Limits)
    requires AtMost(l, m)
    ensures D.Agree(SliceOf(values, l), SliceOf(values, m))
  {
    hide BoundedString, SliceSeq;
    if |values| >= 2 && values[0].Str? && values[1].Int? {
      var t, a := values[0].text, values[1].number;
      BoundedStringRaised(SliceSeq(t, a, None), l, m);
      if |values| == 3 && values[2].Int? {
        BoundedStringRaised(SliceSeq(t, a, Some(values[2].number)), l, m);
      }
    }
  }

  lemma CaseRaised(op: Op, values: seq<Json>, strings: Strings, l: Limits, m: Limits)
    requires AtMost(l, m)
    ensures D.Agree(CaseOf(op, values, strings, l), CaseOf(op, values, strings, m))
  {
    hide BoundedString;
    if values != [] && values[0].Str? {
      var t := values[0].text;
      BoundedStringRaised(if op.Lower? then strings.lower(t) else if op.Upper? then strings.upper(t) else strings.strip(t), l, m);
    }
  }

  lemma ApplyRaised(op: Op, values: seq<Json>, strings: Strings, l: Limits, m: Limits)
    requires AtMost(l, m)
    ensures D.Agree(ApplyOp(op, values, strings, l), ApplyOp(op, values, strings, m))
  {
    hide Numeric, ReplaceOf, SplitOf, JoinOf, SliceOf, CaseOf, PreflightParts, AsTexts, EqualityOf, NotOf;
    if IsNumeric(op) {
      NumericRaised(op, values, l, m);
    } else if op.Concat? {
      var parts := AsTexts(values);
      if parts.Ok? {
        PreflightRaised(parts.value, None, l, m);
      }
    } else if op.Replace? {
      ReplaceRaised(values, l, m);
    } else if op.Split? {
      SplitRaised(values, l, m);
    } else if op.Join? {
      JoinRaised(values, l, m);
    } else if op.Slice? {
      SliceRaised(values, l, m);
    } else {
      CaseRaised(op, values, strings, l, m);
    }
  }

  // ----- expressions -----


  /** The same run with other limits. */
  function With(c: Ctx, limits: Limits): Ctx {
    Ctx(limits, c.inputs, c.strings)
  }

  lemma {:induction false} SemRaised(c: Ctx, m: Limits, e: Expr, env: Env)
    requires AtMost(c.limits, m)
    ensures Kept(Sem(c, e, env), Sem(With(c, m), e, env))
    decreases e, 4
  {
    hide Eval;
    EvalRaised(c, m, e, env);
  }

  lemma {:induction false} EvalRaised(c: Ctx, m: Limits, e: Expr, env: Env)
    requires AtMost(c.limits, m)
    ensures Kept(Eval(c, e, env), Eval(With(c, m), e, env))
    decreases e, 3
  {
    hide Sem, EvalItems, EvalFields, EvalGet, EvalEach, ApplyOp, EvalAnd, EvalOr, EvalCoalesce, EvalIf, SumFrom;
    match e
    case Object(fields) => FieldsRaised(c, m, fields, env, 2, true);
    case Array(elements) => ItemsRaised(c, m, elements, env, 2, true);
    case Get(_, _, _) => GetRaised(c, m, e, env);
    case Lazy(op, args) => LazyRaised(c, m, op, args, env);
    case Each(_, _, _, _, _) => EachRaised(c, m, e, env);
    case Sum(collection) => SumOfRaised(c, m, e, env);
    case Apply(op, args) =>
      ItemsRaised(c, m, args, env, 2, true);
      var s := EvalItems(c, args, env, 2, true);
      if s.result.Ok? {
        ApplyRaised(op, s.result.value, c.strings, c.limits, m);
      }
    case _ =>
  }

  lemma {:induction false} ItemsRaised(c: Ctx, m: Limits, es: seq<Expr>, env: Env, total: int, first: bool)
    requires AtMost(c.limits, m)
    ensures Kept(EvalItems(c, es, env, total, first), EvalItems(With(c, m), es, env, total, first))
    decreases es, 0
  {
    hide Sem, Charge;
    if es != [] {
      SemRaised(c, m, es[0], env);
      var t, s := Comma(total, first, c.limits), Sem(c, es[0], env);
      if t.Ok? && s.result.Ok? {
        ChargeRaised(s.result.value, t.value, c.limits, m);
        var u := Charge(s.result.value, t.value, c.limits);
        if u.Ok? {
          ItemsRaised(c, m, es[1..], env, u.value, false);
        }
      }
    }
  }

  lemma {:induction false} FieldsRaised(c: Ctx, m: Limits, fields: seq<Field<Expr>>, env: Env, total: int, first: bool)
    requires AtMost(c.limits, m)
    ensures Kept(EvalFields(c, fields, env, total, first), EvalFields(With(c, m), fields, env, total, first))
    decreases fields, 0
  {
    hide Sem, Charge, FieldHead;
    if fields != [] {
      var f := fields[0];
      SemRaised(c, m, f.value, env);
      FieldHeadRaised(f.key, total, first, c.limits, m);
      var t, s := FieldHead(f.key, total, first, c.limits), Sem(c, f.value, env);
      if t.Ok? && s.result.Ok? {
        ChargeRaised(s.result.value, t.value, c.limits, m);
        var u := Charge(s.result.value, t.value, c.limits);
        if u.Ok? {
          FieldsRaised(c, m, fields[1..], env, u.value, false);
        }
      }
    }
  }

  lemma {:induction false} GetRaised(c: Ctx, m: Limits, e: Expr, env: Env)
    requires e.Get? && AtMost(c.limits, m)
    ensures Kept(EvalGet(c, e, env), EvalGet(With(c, m), e, env))
    decreases e, 2
  {
    hide Sem, GetOf;
    SemRaised(c, m, e.target, env);
    SemRaised(c, m, e.key, env);
    if e.fallback.Some? {
      SemRaised(c, m, e.fallback.value, env);
    }
  }

  function LazyStep(c: Ctx, op: LazyOp, args: seq<Expr>, env: Env): Step<Json> {
    match op
    case And => EvalAnd(c, args, env)
    case Or => EvalOr(c, args, env)
    case If => EvalIf(c, args, env)
    case Coalesce => EvalCoalesce(c, args, env)
  }

  lemma {:induction false} LazyRaised(c: Ctx, m: Limits, op: LazyOp, args: seq<Expr>, env: Env)
    requires AtMost(c.limits, m)
    ensures Kept(LazyStep(c, op, args, env), LazyStep(With(c, m), op, args, env))
    decreases args, 0
  {
    hide Sem;
    if args != [] {
      SemRaised(c, m, args[0], env);
      if op.If? {
        if |args| > 1 {
          SemRaised(c, m, args[1], env);
        }
        if |args| > 2 {
          SemRaised(c, m, args[2], env);
        }
      } else {
        LazyRaised(c, m, op, args[1..], env);
      }
    }
  }

  lemma {:induction false} SumOfRaised(c: Ctx, m: Limits, e: Expr, env: Env)
    requires e.Sum? && AtMost(c.limits, m)
    ensures Kept(Eval(c, e, env), Eval(With(c, m), e, env))
    decreases e, 2
  {
    hide Sem, SumFrom;
    SemRaised(c, m, e.collection, env);
    var s := Sem(c, e.collection, env);
    if s.result.Ok? && s.result.value.Arr? {
      SumRaised(s.result.value.items, 0, c.limits, m);
    }
  }

  lemma {:induction false} EachRaised(c: Ctx, m: Limits, e: Expr, env: Env)
    requires e.Each? && AtMost(c.limits, m)
    ensures Kept(Eval(c, e, env), Eval(With(c, m), e, env))
    decreases e, 2
  {
    hide Sem, EvalEach;
    SemRaised(c, m, e.collection, env);
    var s := Sem(c, e.collection, env);
    if s.result.Ok? && s.result.value.Arr? {
      TraversalRaised(c, m, e, s.result.value.items, env);
    }
  }

  lemma {:induction false} TraversalRaised(c: Ctx, m: Limits, e: Expr, items: seq<Json>, env: Env)
    requires e.Each? && AtMost(c.limits, m)
    ensures Kept(EvalEach(c, e.each, e.item, e.index, e.body, items, env),
                 EvalEach(With(c, m), e.each, e.item, e.index, e.body, items, env))
    decreases e, 1
  {
    hide EvalMap, EvalFilter, EvalKeys, ItemsOf, StableSort;
    match e.each
    case Map => MapRaised(c, m, e, items, 0, env, 2);
    case Filter => FilterRaised(c, m, e, items, 0, env);
    case Sort(_) => KeysRaised(c, m, e, items, 0, env, 2);
  }

  lemma {:induction false} MapRaised(c: Ctx, m: Limits, e: Expr, items: seq<Json>, i: nat, env: Env, total: int)
    requires e.Each? && AtMost(c.limits, m)
    ensures Kept(EvalMap(c, e.item, e.index, e.body, items, i, env, total),
                 EvalMap(With(c, m), e.item, e.index, e.body, items, i, env, total))
    decreases e, 0, |items|
  {
    hide Sem, Charge, Nest;
    if items != [] {
      var nested := Nest(env, e.item, e.index, items[0], i);
      SemRaised(c, m, e.body, nested);
      var t, s := Comma(total, i == 0, c.limits), Sem(c, e.body, nested);
      if t.Ok? && s.result.Ok? {
        ChargeRaised(s.result.value, t.value, c.limits, m);
        var u := Charge(s.result.value, t.value, c.limits);
        if u.Ok? {
          MapRaised(c, m, e, items[1..], i + 1, env, u.value);
        }
      }
    }
  }

  lemma {:induction false} FilterRaised(c: Ctx, m: Limits, e: Expr, items: seq<Json>, i: nat, env: Env)
    requires e.Each? && AtMost(c.limits, m)
    ensures Kept(EvalFilter(c, e.item, e.index, e.body, items, i, env),
                 EvalFilter(With(c, m), e.item, e.index, e.body, items, i, env))
    decreases e, 0, |items|
  {
    hide Sem, Nest;
    if items != [] {
      SemRaised(c, m, e.body, Nest(env, e.item, e.index, items[0], i));
      FilterRaised(c, m, e, items[1..], i + 1, env);
    }
  }

  lemma {:induction false} KeysRaised(c: Ctx, m: Limits, e: Expr, items: seq<Json>, i: nat, env: Env, total: int)
    requires e.Each? && AtMost(c.limits, m)
    ensures Kept(EvalKeys(c, e.item, e.index, e.body, items, i, env, total),
                 EvalKeys(With(c, m), e.item, e.index, e.body, items, i, env, total))
    decreases e, 0, |items|
  {
    hide Sem, Charge, Nest, SortKeyOf;
    if items != [] {
      var nested := Nest(env, e.item, e.index, items[0], i);
      SemRaised(c, m, e.body, nested);
      var t, s := Comma(total, i == 0, c.limits), Sem(c, e.body, nested);
      if t.Ok? && s.result.Ok? {
        ChargeRaised(s.result.value, t.value, c.limits, m);
        var u := Charge(s.result.value, t.value, c.limits);
        if u.Ok? {
          KeysRaised(c, m, e, items[1..], i + 1, env, u.value);
        }
      }
    }
  }
}
