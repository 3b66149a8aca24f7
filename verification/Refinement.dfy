/**
 * The metered evaluator refines the limit-free meaning: it yields the meaning's
 * value or error with the meaning's exact evaluation count, or a budget error
 * after no more evaluations than that.
 */
module Refinement {
  import opened Texts
  import opened Json
  import opened Limits
  import opened Sizing
  import opened Ir
  import opened Operators
  import opened Semantics
  import D = Denotation

  function WorldOf(c: Ctx): D.World {
    D.World(c.inputs, c.strings)
  }

  /** A sizing fails on a limit, on an unencodable string, or with the given code. */
  predicate SizeError(r: Result<int>, code: Code) {
    r.Err? ==> D.Budget(r.code) || r.code == code
  }

  lemma {:induction false} SizedBudget(v: Json, limits: Limits, max: int, code: Code, depth: nat)
    ensures SizeError(Sized(v, limits, max, code, depth), code)
    decreases v, 0
  {
    hide ScanContent, BitLength;
    match v
    case Str(t) => D.ScanContentBudget(t, 0, Some(StringMaximum(max)));
    case Arr(items) => SizedItemsBudget(items, limits, max, code, depth, 2, true);
    case Obj(fields) => SizedFieldsBudget(fields, limits, max, code, depth, 2, true);
    case _ =>
  }

  lemma {:induction false} SizedItemsBudget(items: seq<Json>, limits: Limits, max: int, code: Code, depth: nat, total: int, first: bool)
    ensures SizeError(SizedItems(items, limits, max, code, depth, total, first), code)
    decreases items, 1
  {
    hide Sized;
    if items != [] {
      var t1 := if first then total else total + 1;
      SizedBudget(items[0], limits, max - t1, code, depth + 1);
      var n := Sized(items[0], limits, max - t1, code, depth + 1);
      if n.Ok? {
        SizedItemsBudget(items[1..], limits, max, code, depth, t1 + n.value, false);
      }
    }
  }

  lemma {:induction false} SizedFieldsBudget(fields: seq<Field<Json>>, limits: Limits, max: int, code: Code, depth: nat, total: int, first: bool)
    ensures SizeError(SizedFields(fields, limits, max, code, depth, total, first), code)
    decreases fields, 1
  {
    hide Sized, ScanContent;
    if fields != [] {
      var f, t1 := fields[0], if first then total else total + 1;
      D.ScanContentBudget(f.key, 0, Some(StringMaximum(max - t1)));
      var k := ScanContent(f.key, 0, Some(StringMaximum(max - t1)));
      if k.Ok? {
        SizedBudget(f.value, limits, max - (t1 + k.value + 3), code, depth + 1);
      }
      var n := SizedField(f, limits, max, code, depth, t1);
      if n.Ok? {
        SizedFieldsBudget(fields[1..], limits, max, code, depth, n.value, false);
      }
    }
  }

  lemma ChargeBudget(v: Json, total: int, limits: Limits)
    ensures Charge(v, total, limits).Err? ==> D.Budget(Charge(v, total, limits).code)
  {
    hide Sized;
    SizedBudget(v, limits, limits.maxOutputBytes - total, OutputLimit, 1);
  }

  lemma FieldHeadBudget(key: Text, total: int, first: bool, limits: Limits)
    ensures FieldHead(key, total, first, limits).Err? ==> D.Budget(FieldHead(key, total, first, limits).code)
  {
    hide ScanContent;
    D.ScanContentBudget(key, 0, None);
  }

  lemma {:induction false} SumRefines(items: seq<Json>, total: int, limits: Limits)
    ensures D.Agree(SumFrom(items, total, limits),
                    var ns :- AsInts(items);
                    Ok(total + D.SumOf(ns)))
    decreases |items|
  {
    if items != [] && items[0].Int? {
      SumRefines(items[1..], total + items[0].number, limits);
      var rest := AsInts(items[1..]);
      if rest.Ok? {
        D.SumUnfold([items[0].number] + rest.value);
        assert ([items[0].number] + rest.value)[1..] == rest.value;
      }
    }
  }

  // ----- expressions -----

  lemma {:induction false} SemRefines(c: Ctx, e: Expr, env: Env)
    ensures D.Refines(Sem(c, e, env), D.Denote(WorldOf(c), e, env))
    decreases e, 4
  {
    hide Eval, D.Operation;
    EvalRefines(c, e, env);
  }

  lemma {:induction false} EvalRefines(c: Ctx, e: Expr, env: Env)
    ensures D.Refines(Eval(c, e, env), D.Operation(WorldOf(c), e, env))
    decreases e, 3
  {
    hide Sem, D.Denote, EvalItems, D.Values, EvalFields, D.FieldValues, EvalGet, D.Found, EvalEach, ApplyOp, D.Meaning;
    hide EvalAnd, EvalOr, EvalCoalesce, D.Scan, EvalIf, D.Chosen, SumFrom, AsInts, D.Bodies, D.Traversed;
    match e
    case Object(fields) => EvalFieldsRefines(c, fields, env, 2, true);
    case Array(elements) => EvalItemsRefines(c, elements, env, 2, true);
    case Get(_, _, _) => EvalGetRefines(c, e, env);
    case Lazy(op, args) =>
      if op.If? {
        EvalIfRefines(c, args, env);
      } else {
        ScanRefines(c, op, args, env);
      }
    case Each(each, collection, item, index, body) => EvalEachRefines(c, e, env);
    case Sum(collection) => EvalSumRefines(c, e, env);
    case Apply(op, args) =>
      EvalItemsRefines(c, args, env, 2, true);
      var s := EvalItems(c, args, env, 2, true);
      if s.result.Ok? {
        D.ApplyRefines(op, s.result.value, c.strings, c.limits);
      }
    case _ =>
  }

  lemma {:induction false} EvalItemsRefines(c: Ctx, es: seq<Expr>, env: Env, total: int, first: bool)
    ensures D.Refines(EvalItems(c, es, env, total, first), D.Values(WorldOf(c), es, env))
    decreases es, 0
  {
    hide Sem, D.Denote, Charge;
    if es != [] {
      SemRefines(c, es[0], env);
      var t, s := Comma(total, first, c.limits), Sem(c, es[0], env);
      if t.Ok? && s.result.Ok? {
        ChargeBudget(s.result.value, t.value, c.limits);
        var u := Charge(s.result.value, t.value, c.limits);
        if u.Ok? {
          EvalItemsRefines(c, es[1..], env, u.value, false);
        }
      }
    }
  }

  lemma {:induction false} EvalFieldsRefines(c: Ctx, fields: seq<Field<Expr>>, env: Env, total: int, first: bool)
    ensures D.Refines(EvalFields(c, fields, env, total, first), D.FieldValues(WorldOf(c), fields, env))
    decreases fields, 0
  {
    hide Sem, D.Denote, Charge, FieldHead;
    if fields != [] {
      var f := fields[0];
      SemRefines(c, f.value, env);
      FieldHeadBudget(f.key, total, first, c.limits);
      var t, s := FieldHead(f.key, total, first, c.limits), Sem(c, f.value, env);
      if t.Ok? && s.result.Ok? {
        ChargeBudget(s.result.value, t.value, c.limits);
        var u := Charge(s.result.value, t.value, c.limits);
        if u.Ok? {
          EvalFieldsRefines(c, fields[1..], env, u.value, false);
        }
      }
    }
  }

  lemma {:induction false} EvalGetRefines(c: Ctx, e: Expr, env: Env)
    requires e.Get?
    ensures D.Refines(EvalGet(c, e, env), D.Found(WorldOf(c), e, env))
    decreases e, 2
  {
    hide Sem, D.Denote, GetOf;
    SemRefines(c, e.target, env);
    SemRefines(c, e.key, env);
    if e.fallback.Some? {
      SemRefines(c, e.fallback.value, env);
    }
  }

  lemma {:induction false} ScanRefines(c: Ctx, op: LazyOp, args: seq<Expr>, env: Env)
    requires !op.If?
    ensures D.Refines(match op case And => EvalAnd(c, args, env) case Or => EvalOr(c, args, env)
                               case _ => EvalCoalesce(c, args, env),
                      D.Scan(WorldOf(c), op, args, env))
    decreases args, 0
  {
    hide Sem, D.Denote;
    if args != [] {
      SemRefines(c, args[0], env);
      ScanRefines(c, op, args[1..], env);
    }
  }

  lemma {:induction false} EvalIfRefines(c: Ctx, args: seq<Expr>, env: Env)
    ensures D.Refines(EvalIf(c, args, env), D.Chosen(WorldOf(c), args, env))
    decreases args, 0
  {
    hide Sem, D.Denote;
    if args != [] {
      SemRefines(c, args[0], env);
      if |args| > 1 {
        SemRefines(c, args[1], env);
      }
      if |args| > 2 {
        SemRefines(c, args[2], env);
      }
    }
  }

  lemma {:induction false} EvalSumRefines(c: Ctx, e: Expr, env: Env)
    requires e.Sum?
    ensures D.Refines(Eval(c, e, env), D.Operation(WorldOf(c), e, env))
    decreases e, 2
  {
    hide Sem, D.Denote, SumFrom, AsInts, D.SumOf;
    SemRefines(c, e.collection, env);
    var s := Sem(c, e.collection, env);
    if s.result.Ok? && s.result.value.Arr? {
      SumRefines(s.result.value.items, 0, c.limits);
    }
  }

  lemma {:induction false} EvalEachRefines(c: Ctx, e: Expr, env: Env)
    requires e.Each?
    ensures D.Refines(Eval(c, e, env), D.Operation(WorldOf(c), e, env))
    decreases e, 2
  {
    hide Sem, D.Denote, EvalEach, D.Bodies, D.Traversed;
    SemRefines(c, e.collection, env);
    var s := Sem(c, e.collection, env);
    if s.result.Ok? && s.result.value.Arr? {
      TraversalRefines(c, e, s.result.value.items, env);
    }
  }

  lemma {:induction false} TraversalRefines(c: Ctx, e: Expr, items: seq<Json>, env: Env)
    requires e.Each?
    ensures D.Refines(EvalEach(c, e.each, e.item, e.index, e.body, items, env),
                      D.Traversed(e.each, items, D.Bodies(WorldOf(c), e.item, e.index, e.body, items, 0, env, e.each)))
    decreases e, 1
  {
    hide EvalMap, EvalFilter, EvalKeys, D.Bodies, D.Kept, D.Decorated, ItemsOf, StableSort;
    match e.each
    case Map => MapRefines(c, e, items, 0, env, 2);
    case Filter => FilterRefines(c, e, items, 0, env);
    case Sort(descending) => KeysRefines(c, e, items, 0, env, 2);
  }

  lemma {:induction false} MapRefines(c: Ctx, e: Expr, items: seq<Json>, i: nat, env: Env, total: int)
    requires e.Each? && e.each.Map?
    ensures D.Refines(EvalMap(c, e.item, e.index, e.body, items, i, env, total),
                      D.Bodies(WorldOf(c), e.item, e.index, e.body, items, i, env, e.each))
    decreases e, 0, |items|
  {
    hide Sem, D.Denote, Charge, Nest;
    if items != [] {
      var nested := Nest(env, e.item, e.index, items[0], i);
      SemRefines(c, e.body, nested);
      var t, s := Comma(total, i == 0, c.limits), Sem(c, e.body, nested);
      if t.Ok? && s.result.Ok? {
        ChargeBudget(s.result.value, t.value, c.limits);
        var u := Charge(s.result.value, t.value, c.limits);
        if u.Ok? {
          MapRefines(c, e, items[1..], i + 1, env, u.value);
        }
      }
    }
  }

  ghost function KeptStep(items: seq<Json>, bodies: Step<seq<Json>>): Step<seq<Json>> {
    if bodies.result.Err? then bodies else Step(Ok(D.Kept(items, bodies.result.value)), bodies.ticks)
  }

  lemma {:induction false} FilterRefines(c: Ctx, e: Expr, items: seq<Json>, i: nat, env: Env)
    requires e.Each? && e.each.Filter?
    ensures D.Refines(EvalFilter(c, e.item, e.index, e.body, items, i, env),
                      KeptStep(items, D.Bodies(WorldOf(c), e.item, e.index, e.body, items, i, env, e.each)))
    decreases e, 0, |items|
  {
    hide Sem, D.Denote, Nest;
    if items != [] {
      SemRefines(c, e.body, Nest(env, e.item, e.index, items[0], i));
      FilterRefines(c, e, items[1..], i + 1, env);
      var rest := D.Bodies(WorldOf(c), e.item, e.index, e.body, items[1..], i + 1, env, e.each);
      var s := Sem(c, e.body, Nest(env, e.item, e.index, items[0], i));
      if s.result.Ok? && rest.result.Ok? {
        assert ([s.result.value] + rest.result.value)[1..] == rest.result.value;
        var kept := D.Kept(items[1..], rest.result.value);
        assert [] + kept == kept;
      }
    }
  }

  ghost function DecoratedStep(items: seq<Json>, bodies: Step<seq<Json>>): Step<seq<Keyed>> {
    if bodies.result.Err? then Fail(bodies.result.code, bodies.ticks)
    else Step(Ok(D.Decorated(items, bodies.result.value)), bodies.ticks)
  }

  lemma {:induction false} KeysRefines(c: Ctx, e: Expr, items: seq<Json>, i: nat, env: Env, total: int)
    requires e.Each? && e.each.Sort?
    ensures D.Refines(EvalKeys(c, e.item, e.index, e.body, items, i, env, total),
                      DecoratedStep(items, D.Bodies(WorldOf(c), e.item, e.index, e.body, items, i, env, e.each)))
    decreases e, 0, |items|
  {
    hide Sem, D.Denote, Charge, Nest;
    if items != [] {
      var nested := Nest(env, e.item, e.index, items[0], i);
      SemRefines(c, e.body, nested);
      var t, s := Comma(total, i == 0, c.limits), Sem(c, e.body, nested);
      if t.Ok? && s.result.Ok? {
        ChargeBudget(s.result.value, t.value, c.limits);
        var u := Charge(s.result.value, t.value, c.limits);
        if u.Ok? {
          KeysRefines(c, e, items[1..], i + 1, env, u.value);
          var rest := D.Bodies(WorldOf(c), e.item, e.index, e.body, items[1..], i + 1, env, e.each);
          if rest.result.Ok? {
            assert ([s.result.value] + rest.result.value)[1..] == rest.result.value;
          }
        }
      }
    }
  }

  /**
   * What the evaluator's counter shows: if an evaluation that starts with the
   * counter at `before` returns a value, the limit-free meaning is that value, and
   * the counter has risen by exactly the number of visits that meaning takes.
   */
  lemma EvaluationCountsVisits(c: Ctx, e: Expr, env: Env, before: nat)
    requires before <= c.limits.maxEvaluations
    ensures var s, limit := Sem(c, e, env), c.limits.maxEvaluations;
            var r, counter := Metered(s, before, limit, EvaluationLimit), Meter(s, before, limit);
            r.Ok? ==> counter >= before && D.Denote(WorldOf(c), e, env) == Step(r, counter - before)
  {
    hide Sem, D.Denote;
    SemRefines(c, e, env);
  }
}
