/**
 * The evaluator as it runs: one mutable evaluation counter, loops that append
 * to result lists and keep running byte totals, and the first error returned.
 */
module Runtimes {
  import opened Texts
  import opened Json
  import opened Limits
  import opened Sizing
  import opened Ir
  import opened Operators
  import TextOps
  import opened Semantics

  function Max(a: nat, b: nat): nat {
    if a < b then b else a
  }

  /** How deeply expressions nest, which is how deeply the evaluator recurses. */
  function Depth(e: Expr): nat
    decreases e, 0
  {
    match e
    case Object(fields) => 1 + FieldsDepth(fields)
    case Array(elements) => 1 + DepthOfAll(elements)
    case Get(target, key, fallback) =>
      1 + Max(Depth(target), Max(Depth(key), if fallback.Some? then Depth(fallback.value) else 0))
    case Lazy(_, args) => 1 + DepthOfAll(args)
    case Each(_, collection, _, _, body) => 1 + Max(Depth(collection), Depth(body))
    case Sum(collection) => 1 + Depth(collection)
    case Apply(_, args) => 1 + DepthOfAll(args)
    case _ => 1
  }

  function DepthOfAll(es: seq<Expr>): nat
    decreases es, 1
  {
    if es == [] then 0 else Max(Depth(es[0]), DepthOfAll(es[1..]))
  }

  function FieldsDepth(fields: seq<Field<Expr>>): nat
    decreases fields, 1
  {
    if fields == [] then 0 else Max(Depth(fields[0].value), FieldsDepth(fields[1..]))
  }

  lemma {:induction false} DepthAt(es: seq<Expr>, i: nat)
    requires i < |es|
    ensures Depth(es[i]) <= DepthOfAll(es)
  {
    if i > 0 {
      DepthAt(es[1..], i - 1);
    }
  }

  lemma {:induction false} FieldDepthAt(fields: seq<Field<Expr>>, i: nat)
    requires i < |fields|
    ensures Depth(fields[i].value) <= FieldsDepth(fields)
  {
    if i > 0 {
      FieldDepthAt(fields[1..], i - 1);
    }
  }

  /** `all` is what was built so far, followed by what the rest of the loop yields. */
  ghost predicate Continues<T>(all: Step<seq<T>>, built: seq<T>, ticks: nat, rest: Step<seq<T>>) {
    && all.ticks == ticks + rest.ticks
    && (all.result.Ok? <==> rest.result.Ok?)
    && (rest.result.Ok? ==> all.result.value == built + rest.result.value)
    && (rest.result.Err? ==> all.result.code == rest.result.code)
  }

  /** `_number_result` over a running sum. */
  method AddLoop(ns: seq<int>, limits: Limits) returns (r: Result<int>)
    requires ns != []
    ensures r == AddFrom(ns[0], ns[1..], limits)
  {
    var total := ns[0];
    for i := 1 to |ns|
      invariant AddFrom(ns[0], ns[1..], limits) == AddFrom(total, ns[i..], limits)
    {
      assert ns[i..][0] == ns[i] && ns[i..][1..] == ns[i + 1..];
      total :- NumberResult(total + ns[i], limits);
    }
    r := Ok(total);
  }

  method MultiplyLoop(ns: seq<int>, limits: Limits) returns (r: Result<int>)
    requires ns != []
    ensures r == MultiplyFrom(ns[0], ns[1..], limits)
  {
    var product := ns[0];
    for i := 1 to |ns|
      invariant MultiplyFrom(ns[0], ns[1..], limits) == MultiplyFrom(product, ns[i..], limits)
    {
      assert ns[i..][0] == ns[i] && ns[i..][1..] == ns[i + 1..];
      product :- NumberResult(product * ns[i], limits);
    }
    r := Ok(product);
  }

  /** The loop of the `sum` operator. */
  method SumLoop(items: seq<Json>, limits: Limits) returns (r: Result<int>)
    ensures r == SumFrom(items, 0, limits)
  {
    var total := 0;
    for i := 0 to |items|
      invariant SumFrom(items, 0, limits) == SumFrom(items[i..], total, limits)
    {
      assert items[i..][0] == items[i] && items[i..][1..] == items[i + 1..];
      var n :- AsInt(items[i]);
      total :- NumberResult(total + n, limits);
    }
    r := Ok(total);
  }

  /** `_preflight_string_parts`. */
  method Preflight(parts: seq<Text>, separator: Option<Text>, limits: Limits) returns (r: Result<int>)
    ensures r == PreflightParts(parts, separator, limits)
  {
    var total := 0;
    for i := 0 to |parts|
      invariant PartsBytes(parts, 0, limits) == PartsBytes(parts[i..], total, limits)
    {
      assert parts[i..][0] == parts[i] && parts[i..][1..] == parts[i + 1..];
      var size :- StringContentBytes(parts[i], None);
      total :- EnsureContent(total + size, limits);
    }
    if separator.Some? && |parts| > 1 {
      var size :- StringContentBytes(separator.value, None);
      total :- EnsureContent(total + size * (|parts| - 1), limits);
    }
    r := Ok(total);
  }

  class Runtime {
    const c: Ctx
    var evaluations: nat

    constructor (c: Ctx)
      ensures this.c == c && evaluations == 0
    {
      this.c := c;
      evaluations := 0;
    }

    /** The method returned what the step says, and the counter moved as the step says. */
    ghost predicate Followed<T>(s: Step<T>, before: nat, r: Result<T>)
      reads this
    {
      r == Metered(s, before, c.limits.maxEvaluations, EvaluationLimit)
      && evaluations == Meter(s, before, c.limits.maxEvaluations)
    }

    ghost predicate Running()
      reads this
    {
      evaluations <= c.limits.maxEvaluations
    }

    /** `_eval`, never more than `frames` calls deep. */
    method Eval(e: Expr, env: Env, ghost frames: nat) returns (r: Result<Json>)
      requires Running() && Depth(e) <= frames
      modifies this
      ensures Followed(Sem(c, e, env), old(evaluations), r)
      decreases frames, 3
    {
      hide Semantics.Eval;
      evaluations := evaluations + 1;
      if evaluations > c.limits.maxEvaluations {
        return Err(EvaluationLimit);
      }
      r := Operation(e, env, frames);
    }

    method Operation(e: Expr, env: Env, ghost frames: nat) returns (r: Result<Json>)
      requires Running() && Depth(e) <= frames
      modifies this
      ensures Followed(Semantics.Eval(c, e, env), old(evaluations), r)
      decreases frames, 2
    {
      hide Sem, EvalItems, EvalFields, EvalGet, EvalAnd, EvalOr, EvalIf, EvalCoalesce, InputOf, ApplyOp;
      match e
      case Literal(v) =>
        r := Ok(v);
      case Input(name) =>
        r := InputOf(c.inputs, name);
      case Var(name) =>
        r := if name in env then Ok(env[name]) else Err(UnboundVariable);
      case Object(fields) =>
        var built := FieldLoop(fields, env, frames - 1);
        r := if built.Err? then Err(built.code) else Ok(Obj(built.value));
      case Array(elements) =>
        var built := ValueLoop(elements, env, frames - 1);
        r := if built.Err? then Err(built.code) else Ok(Arr(built.value));
      case Get(_, _, _) =>
        r := GetBranch(e, env, frames);
      case Lazy(op, args) =>
        r := LazyBranch(op, args, env, frames - 1);
      case Each(_, _, _, _, _) =>
        r := EachBranch(e, env, frames);
      case Sum(_) =>
        r := SumBranch(e, env, frames);
      case Apply(_, _) =>
        r := ApplyBranch(e, env, frames);
    }

    lemma ItemsUnfold(es: seq<Expr>, i: nat, env: Env, total: int)
      requires i < |es|
      ensures EvalItems(c, es[i..], env, total, i == 0)
           == var t := Comma(total, i == 0, c.limits);
              if t.Err? then Fail(t.code, 0)
              else
                var s := Sem(c, es[i], env);
                if s.result.Err? then Fail(s.result.code, s.ticks)
                else
                  var u := Charge(s.result.value, t.value, c.limits);
                  if u.Err? then Fail(u.code, s.ticks)
                  else Prefix(s.result.value, s.ticks, EvalItems(c, es[i + 1..], env, u.value, false))
    {
      assert es[i..][0] == es[i] && es[i..][1..] == es[i + 1..];
    }

    lemma NoItems(env: Env, total: int, first: bool)
      ensures EvalItems(c, [], env, total, first) == Pass(Ok([]))
    {
    }

    /** `_values`, and the loop of the `array` operator. */
    method ValueLoop(es: seq<Expr>, env: Env, ghost frames: nat) returns (r: Result<seq<Json>>)
      requires Running() && DepthOfAll(es) <= frames
      modifies this
      ensures Followed(EvalItems(c, es, env, 2, true), old(evaluations), r)
      decreases frames, 4
    {
      hide Sem, Charge, Comma, EvalItems, Depth;
      ghost var before, all := evaluations, EvalItems(c, es, env, 2, true);
      ghost var done: nat := 0;
      var values: seq<Json>, total := [], 2;
      for i := 0 to |es|
        invariant es[0..] == es
        invariant evaluations == before + done <= c.limits.maxEvaluations
        invariant Continues(all, values, done, EvalItems(c, es[i..], env, total, i == 0))
      {
        ItemsUnfold(es, i, env, total);
        DepthAt(es, i);
        var withComma :- Comma(total, i == 0, c.limits);
        var value :- Eval(es[i], env, frames);
        done := done + Sem(c, es[i], env).ticks;
        total :- Charge(value, withComma, c.limits);
        values := values + [value];
      }
      assert es[|es|..] == [] && values + [] == values;
      NoItems(env, total, |es| == 0);
      r := Ok(values);
    }

    lemma FieldsUnfold(fields: seq<Field<Expr>>, i: nat, env: Env, total: int)
      requires i < |fields|
      ensures EvalFields(c, fields[i..], env, total, i == 0)
           == var t := FieldHead(fields[i].key, total, i == 0, c.limits);
              if t.Err? then Fail(t.code, 0)
              else
                var s := Sem(c, fields[i].value, env);
                if s.result.Err? then Fail(s.result.code, s.ticks)
                else
                  var u := Charge(s.result.value, t.value, c.limits);
                  if u.Err? then Fail(u.code, s.ticks)
                  else Prefix(Field(fields[i].key, s.result.value), s.ticks,
                              EvalFields(c, fields[i + 1..], env, u.value, false))
    {
      assert fields[i..][0] == fields[i] && fields[i..][1..] == fields[i + 1..];
    }

    lemma NoFields(env: Env, total: int, first: bool)
      ensures EvalFields(c, [], env, total, first) == Pass(Ok([]))
    {
    }

    /** The loop of the `object` operator. */
    method FieldLoop(fields: seq<Field<Expr>>, env: Env, ghost frames: nat) returns (r: Result<seq<Field<Json>>>)
      requires Running() && FieldsDepth(fields) <= frames
      modifies this
      ensures Followed(EvalFields(c, fields, env, 2, true), old(evaluations), r)
      decreases frames, 4
    {
      hide Sem, Charge, FieldHead, EvalFields;
      ghost var before, all := evaluations, EvalFields(c, fields, env, 2, true);
      ghost var done: nat := 0;
      var built: seq<Field<Json>>, total := [], 2;
      for i := 0 to |fields|
        invariant fields[0..] == fields
        invariant evaluations == before + done <= c.limits.maxEvaluations
        invariant Continues(all, built, done, EvalFields(c, fields[i..], env, total, i == 0))
      {
        FieldsUnfold(fields, i, env, total);
        FieldDepthAt(fields, i);
        var withKey :- FieldHead(fields[i].key, total, i == 0, c.limits);
        var value :- Eval(fields[i].value, env, frames);
        done := done + Sem(c, fields[i].value, env).ticks;
        total :- Charge(value, withKey, c.limits);
        built := built + [Field(fields[i].key, value)];
      }
      assert fields[|fields|..] == [] && built + [] == built;
      NoFields(env, total, |fields| == 0);
      r := Ok(built);
    }

    method GetBranch(e: Expr, env: Env, ghost frames: nat) returns (r: Result<Json>)
      requires Running() && e.Get? && Depth(e) <= frames
      modifies this
      ensures Followed(EvalGet(c, e, env), old(evaluations), r)
      decreases frames, 1
    {
      hide Sem, GetOf;
      var target :- Eval(e.target, env, frames - 1);
      var key :- Eval(e.key, env, frames - 1);
      var found :- GetOf(target, key);
      if found.Some? {
        return Ok(found.value);
      }
      if e.fallback.Some? {
        r := Eval(e.fallback.value, env, frames - 1);
      } else {
        r := Err(MissingKey);
      }
    }

    method LazyBranch(op: LazyOp, args: seq<Expr>, env: Env, ghost frames: nat) returns (r: Result<Json>)
      requires Running() && DepthOfAll(args) <= frames
      modifies this
      ensures Followed(match op
                       case And => EvalAnd(c, args, env)
                       case Or => EvalOr(c, args, env)
                       case If => EvalIf(c, args, env)
                       case Coalesce => EvalCoalesce(c, args, env), old(evaluations), r)
      decreases frames, 5
    {
      hide EvalAnd, EvalOr, EvalIf, EvalCoalesce;
      match op
      case And => r := AndLoop(args, env, frames);
      case Or => r := OrLoop(args, env, frames);
      case If => r := IfBranch(args, env, frames);
      case Coalesce => r := CoalesceLoop(args, env, frames);
    }

    method AndLoop(args: seq<Expr>, env: Env, ghost frames: nat) returns (r: Result<Json>)
      requires Running() && DepthOfAll(args) <= frames
      modifies this
      ensures Followed(EvalAnd(c, args, env), old(evaluations), r)
      decreases frames, 4
    {
      hide Sem;
      ghost var before, all := evaluations, EvalAnd(c, args, env);
      ghost var done: nat := 0;
      for i := 0 to |args|
        invariant evaluations == before + done <= c.limits.maxEvaluations
        invariant all == After(done, EvalAnd(c, args[i..], env))
      {
        assert args[i..][0] == args[i] && args[i..][1..] == args[i + 1..];
        DepthAt(args, i);
        var value :- Eval(args[i], env, frames);
        done := done + Sem(c, args[i], env).ticks;
        var holds :- AsBool(value);
        if !holds {
          return Ok(Bool(false));
        }
      }
      r := Ok(Bool(true));
    }

    method OrLoop(args: seq<Expr>, env: Env, ghost frames: nat) returns (r: Result<Json>)
      requires Running() && DepthOfAll(args) <= frames
      modifies this
      ensures Followed(EvalOr(c, args, env), old(evaluations), r)
      decreases frames, 4
    {
      hide Sem;
      ghost var before, all := evaluations, EvalOr(c, args, env);
      ghost var done: nat := 0;
      for i := 0 to |args|
        invariant evaluations == before + done <= c.limits.maxEvaluations
        invariant all == After(done, EvalOr(c, args[i..], env))
      {
        assert args[i..][0] == args[i] && args[i..][1..] == args[i + 1..];
        DepthAt(args, i);
        var value :- Eval(args[i], env, frames);
        done := done + Sem(c, args[i], env).ticks;
        var holds :- AsBool(value);
        if holds {
          return Ok(Bool(true));
        }
      }
      r := Ok(Bool(false));
    }

    method IfBranch(args: seq<Expr>, env: Env, ghost frames: nat) returns (r: Result<Json>)
      requires Running() && DepthOfAll(args) <= frames
      modifies this
      ensures Followed(EvalIf(c, args, env), old(evaluations), r)
      decreases frames, 4
    {
      hide Sem;
      if |args| == 0 {
        return Err(Crash);
      }
      DepthAt(args, 0);
      var condition :- Eval(args[0], env, frames);
      var holds :- AsBool(condition);
      var branch := if holds then 1 else 2;
      if branch >= |args| {
        return Err(Crash);
      }
      DepthAt(args, branch);
      r := Eval(args[branch], env, frames);
    }

    method CoalesceLoop(args: seq<Expr>, env: Env, ghost frames: nat) returns (r: Result<Json>)
      requires Running() && DepthOfAll(args) <= frames
      modifies this
      ensures Followed(EvalCoalesce(c, args, env), old(evaluations), r)
      decreases frames, 4
    {
      hide Sem;
      ghost var before, all := evaluations, EvalCoalesce(c, args, env);
      ghost var done: nat := 0;
      for i := 0 to |args|
        invariant evaluations == before + done <= c.limits.maxEvaluations
        invariant all == After(done, EvalCoalesce(c, args[i..], env))
      {
        assert args[i..][0] == args[i] && args[i..][1..] == args[i + 1..];
        DepthAt(args, i);
        var value :- Eval(args[i], env, frames);
        done := done + Sem(c, args[i], env).ticks;
        if !value.Null? {
          return Ok(value);
        }
      }
      r := Ok(Null);
    }

    method EachBranch(e: Expr, env: Env, ghost frames: nat) returns (r: Result<Json>)
      requires Running() && e.Each? && Depth(e) <= frames
      modifies this
      ensures Followed(Semantics.Eval(c, e, env), old(evaluations), r)
      decreases frames, 1
    {
      hide Sem, EvalMap, EvalFilter, EvalKeys, SortItems, AsArray, DepthOfAll, FieldsDepth;
      var collection :- Eval(e.collection, env, frames - 1);
      var items :- AsArray(collection, c.limits);
      match e.each
      case Map =>
        var mapped :- MapLoop(e, items, env, frames - 1);
        r := Ok(Arr(mapped));
      case Filter =>
        var filtered :- FilterLoop(e, items, env, frames - 1);
        r := if |filtered| > c.limits.maxItems then Err(CollectionLimit) else Ok(Arr(filtered));
      case Sort(descending) =>
        var decorated :- KeyLoop(e, items, env, frames - 1);
        r := SortItems(decorated, descending, c.limits);
    }

    lemma MapUnfold(e: Expr, items: seq<Json>, i: nat, env: Env, total: int)
      requires e.Each? && i < |items|
      ensures EvalMap(c, e.item, e.index, e.body, items[i..], i, env, total)
           == var t := Comma(total, i == 0, c.limits);
              if t.Err? then Fail(t.code, 0)
              else
                var s := Sem(c, e.body, Nest(env, e.item, e.index, items[i], i));
                if s.result.Err? then Fail(s.result.code, s.ticks)
                else
                  var u := Charge(s.result.value, t.value, c.limits);
                  if u.Err? then Fail(u.code, s.ticks)
                  else Prefix(s.result.value, s.ticks, EvalMap(c, e.item, e.index, e.body, items[i + 1..], i + 1, env, u.value))
    {
      assert items[i..][0] == items[i] && items[i..][1..] == items[i + 1..];
    }

    lemma NothingMapped(e: Expr, i: nat, env: Env, total: int)
      requires e.Each?
      ensures EvalMap(c, e.item, e.index, e.body, [], i, env, total) == Pass(Ok([]))
    {
    }

    method MapLoop(e: Expr, items: seq<Json>, env: Env, ghost frames: nat) returns (r: Result<seq<Json>>)
      requires Running() && e.Each? && Depth(e.body) <= frames
      modifies this
      ensures Followed(EvalMap(c, e.item, e.index, e.body, items, 0, env, 2), old(evaluations), r)
      decreases frames, 4
    {
      hide Sem, Charge, Comma, Nest, EvalMap, Depth;
      ghost var before, all := evaluations, EvalMap(c, e.item, e.index, e.body, items, 0, env, 2);
      ghost var done: nat := 0;
      var mapped: seq<Json>, total := [], 2;
      for i := 0 to |items|
        invariant items[0..] == items
        invariant evaluations == before + done <= c.limits.maxEvaluations
        invariant Continues(all, mapped, done, EvalMap(c, e.item, e.index, e.body, items[i..], i, env, total))
      {
        MapUnfold(e, items, i, env, total);
        var withComma :- Comma(total, i == 0, c.limits);
        var nested := Nest(env, e.item, e.index, items[i], i);
        var value :- Eval(e.body, nested, frames);
        done := done + Sem(c, e.body, nested).ticks;
        total :- Charge(value, withComma, c.limits);
        mapped := mapped + [value];
      }
      assert items[|items|..] == [] && mapped + [] == mapped;
      NothingMapped(e, |items|, env, total);
      r := Ok(mapped);
    }

    method FilterLoop(e: Expr, items: seq<Json>, env: Env, ghost frames: nat) returns (r: Result<seq<Json>>)
      requires Running() && e.Each? && Depth(e.body) <= frames
      modifies this
      ensures Followed(EvalFilter(c, e.item, e.index, e.body, items, 0, env), old(evaluations), r)
      decreases frames, 4
    {
      hide Sem, Nest, Depth;
      ghost var before, all := evaluations, EvalFilter(c, e.item, e.index, e.body, items, 0, env);
      ghost var done: nat := 0;
      var filtered: seq<Json> := [];
      for i := 0 to |items|
        invariant evaluations == before + done <= c.limits.maxEvaluations
        invariant Continues(all, filtered, done, EvalFilter(c, e.item, e.index, e.body, items[i..], i, env))
      {
        assert items[i..][0] == items[i] && items[i..][1..] == items[i + 1..];
        var nested := Nest(env, e.item, e.index, items[i], i);
        var keep :- Eval(e.body, nested, frames);
        done := done + Sem(c, e.body, nested).ticks;
        var kept :- AsBool(keep);
        if kept {
          filtered := filtered + [items[i]];
        }
      }
      assert items[|items|..] == [] && filtered + [] == filtered;
      r := Ok(filtered);
    }

    lemma KeysUnfold(e: Expr, items: seq<Json>, i: nat, env: Env, total: int)
      requires e.Each? && i < |items|
      ensures EvalKeys(c, e.item, e.index, e.body, items[i..], i, env, total)
           == var t := Comma(total, i == 0, c.limits);
              if t.Err? then Fail(t.code, 0)
              else
                var s := Sem(c, e.body, Nest(env, e.item, e.index, items[i], i));
                if s.result.Err? then Fail(s.result.code, s.ticks)
                else
                  var u := Charge(s.result.value, t.value, c.limits);
                  if u.Err? then Fail(u.code, s.ticks)
                  else
                    var k := SortKeyOf(s.result.value);
                    if k.Err? then Fail(k.code, s.ticks)
                    else Prefix(Keyed(k.value, items[i]), s.ticks,
                                EvalKeys(c, e.item, e.index, e.body, items[i + 1..], i + 1, env, u.value))
    {
      assert items[i..][0] == items[i] && items[i..][1..] == items[i + 1..];
    }

    /** The loop that decorates items with their sort keys. */
    method KeyLoop(e: Expr, items: seq<Json>, env: Env, ghost frames: nat) returns (r: Result<seq<Keyed>>)
      requires Running() && e.Each? && Depth(e.body) <= frames
      modifies this
      ensures Followed(EvalKeys(c, e.item, e.index, e.body, items, 0, env, 2), old(evaluations), r)
      decreases frames, 4
    {
      hide Sem, Charge, Comma, Nest, SortKeyOf, EvalKeys;
      ghost var before, all := evaluations, EvalKeys(c, e.item, e.index, e.body, items, 0, env, 2);
      ghost var done: nat := 0;
      var decorated: seq<Keyed>, total := [], 2;
      for i := 0 to |items|
        invariant items[0..] == items
        invariant evaluations == before + done <= c.limits.maxEvaluations
        invariant Continues(all, decorated, done, EvalKeys(c, e.item, e.index, e.body, items[i..], i, env, total))
      {
        KeysUnfold(e, items, i, env, total);
        var withComma :- Comma(total, i == 0, c.limits);
        var nested := Nest(env, e.item, e.index, items[i], i);
        var key :- Eval(e.body, nested, frames);
        done := done + Sem(c, e.body, nested).ticks;
        total :- Charge(key, withComma, c.limits);
        var sortKey :- SortKeyOf(key);
        decorated := decorated + [Keyed(sortKey, items[i])];
      }
      assert items[|items|..] == [] && decorated + [] == decorated;
      NoKeys(e, |items|, env, total);
      r := Ok(decorated);
    }

    lemma NoKeys(e: Expr, i: nat, env: Env, total: int)
      requires e.Each?
      ensures EvalKeys(c, e.item, e.index, e.body, [], i, env, total) == Pass(Ok([]))
    {
    }

    method SumBranch(e: Expr, env: Env, ghost frames: nat) returns (r: Result<Json>)
      requires Running() && e.Sum? && Depth(e) <= frames
      modifies this
      ensures Followed(Semantics.Eval(c, e, env), old(evaluations), r)
      decreases frames, 1
    {
      hide Sem, SumFrom;
      var collection :- Eval(e.collection, env, frames - 1);
      var items :- AsArray(collection, c.limits);
      var total :- SumLoop(items, c.limits);
      r := Ok(Int(total));
    }

    method ApplyBranch(e: Expr, env: Env, ghost frames: nat) returns (r: Result<Json>)
      requires Running() && e.Apply? && Depth(e) <= frames
      modifies this
      ensures Followed(Semantics.Eval(c, e, env), old(evaluations), r)
      decreases frames, 1
    {
      hide Sem, EvalItems, ApplyOp;
      var values :- ValueLoop(e.args, env, frames - 1);
      r := ApplyOperator(e.op, values, c.strings, c.limits);
    }
  }

  /** The dispatch on evaluated arguments; the operators that loop do so here. */
  method ApplyOperator(op: Op, values: seq<Json>, strings: Strings, limits: Limits) returns (r: Result<Json>)
    ensures r == ApplyOp(op, values, strings, limits)
  {
    hide AddFrom, MultiplyFrom, PreflightParts;
    if op.Add? || op.Mul? {
      var ns :- AsInts(values);
      if ns == [] {
        return Err(Crash);
      }
      var n: int;
      if op.Add? {
        n :- AddLoop(ns, limits);
      } else {
        n :- MultiplyLoop(ns, limits);
      }
      r := Ok(Int(n));
    } else if op.Concat? {
      var parts :- AsTexts(values);
      var size :- Preflight(parts, None, limits);
      r := Ok(Str(TextOps.Join([], parts)));
    } else if op.Join? {
      var first :- Argument(values, 0);
      var separator :- AsText(first);
      var second :- Argument(values, 1);
      var collection :- AsArray(second, limits);
      var parts :- AsTexts(collection);
      var size :- Preflight(parts, Some(separator), limits);
      r := Ok(Str(TextOps.Join(separator, parts)));
    } else {
      r := ApplyOp(op, values, strings, limits);
    }
  }
}
