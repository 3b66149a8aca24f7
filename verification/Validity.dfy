/**
 * What the validator accepts, stated without its counter, and what acceptance
 * guarantees about every later evaluation.
 */
module Validity {
  import opened Texts
  import opened Json
  import opened Limits
  import opened Sizing
  import opened Ir
  import opened Operators
  import opened Semantics
  import opened Runtimes
  import TextOps
  import D = Denotation
  import R = Refinement

  // ----- acceptance without a counter -----

  predicate Valid(e: Expr, limits: Limits, depth: nat, scope: set<Text>)
    decreases e, 1
  {
    depth <= limits.maxDepth &&
    match e
    case Literal(v) => Fits(v, limits, 1) && JsonSize(v) <= limits.maxOutputBytes
    case Input(_) => true
    case Var(name) => ValidName(name) && name in scope
    case Object(fields) => |fields| <= limits.maxItems && FieldsValid(fields, limits, depth + 1, scope)
    case Array(elements) => |elements| <= limits.maxItems && AllValid(elements, limits, depth + 1, scope)
    case Get(target, key, fallback) =>
      Valid(target, limits, depth + 1, scope) && Valid(key, limits, depth + 1, scope)
      && (fallback.Some? ==> Valid(fallback.value, limits, depth + 1, scope))
    case Lazy(op, args) =>
      LazyArityOk(op, |args|) && |args| <= limits.maxItems && AllValid(args, limits, depth + 1, scope)
    case Apply(op, args) =>
      ArityOk(op, |args|) && |args| <= limits.maxItems && AllValid(args, limits, depth + 1, scope)
    case Each(_, collection, item, index, body) =>
      ValidName(item) && (index.Some? ==> ValidName(index.value) && index.value != item)
      && Valid(collection, limits, depth + 1, scope)
      && Valid(body, limits, depth + 1, BodyScope(scope, item, index))
    case Sum(collection) => Valid(collection, limits, depth + 1, scope)
  }

  predicate AllValid(es: seq<Expr>, limits: Limits, depth: nat, scope: set<Text>)
    decreases es, 0
  {
    es == [] || (Valid(es[0], limits, depth, scope) && AllValid(es[1..], limits, depth, scope))
  }

  lemma {:induction false} AllValidAt(es: seq<Expr>, i: nat, limits: Limits, depth: nat, scope: set<Text>)
    requires AllValid(es, limits, depth, scope) && i < |es|
    ensures Valid(es[i], limits, depth, scope)
    decreases i
  {
    if i > 0 {
      AllValidAt(es[1..], i - 1, limits, depth, scope);
    }
  }

  predicate FieldsValid(fields: seq<Field<Expr>>, limits: Limits, depth: nat, scope: set<Text>)
    decreases fields, 0
  {
    fields == [] || (Valid(fields[0].value, limits, depth, scope) && FieldsValid(fields[1..], limits, depth, scope))
  }

  /** How many nodes the expression has. */
  function NodeCount(e: Expr): nat
    decreases e, 1
  {
    match e
    case Object(fields) => 1 + FieldsCount(fields)
    case Array(elements) => 1 + CountAll(elements)
    case Get(target, key, fallback) =>
      1 + NodeCount(target) + NodeCount(key) + (if fallback.Some? then NodeCount(fallback.value) else 0)
    case Lazy(_, args) => 1 + CountAll(args)
    case Apply(_, args) => 1 + CountAll(args)
    case Each(_, collection, _, _, body) => 1 + NodeCount(collection) + NodeCount(body)
    case Sum(collection) => 1 + NodeCount(collection)
    case _ => 1
  }

  function CountAll(es: seq<Expr>): nat
    decreases es, 0
  {
    if es == [] then 0 else NodeCount(es[0]) + CountAll(es[1..])
  }

  function FieldsCount(fields: seq<Field<Expr>>): nat
    decreases fields, 0
  {
    if fields == [] then 0 else NodeCount(fields[0].value) + FieldsCount(fields[1..])
  }

  /** The tally accepts exactly the valid ones, and then it has counted every node. */
  predicate Tallies(t: Tally, valid: bool, nodes: nat) {
    (t.verdict.Accept? <==> valid) && (t.verdict.Accept? ==> t.nodes == nodes)
  }

  lemma {:induction false} CheckExact(e: Expr, limits: Limits, depth: nat, scope: set<Text>)
    ensures Tallies(Check(e, limits, depth, scope), Valid(e, limits, depth, scope), NodeCount(e))
    decreases e, 1
  {
    hide Check, AllValid, FieldsValid, CheckAll, CheckFields, Sized, Fits, JsonSize, ValidName, CountAll, FieldsCount;
    hide SizerContract, BodyScope, ArityOk, LazyArityOk;
    CheckUnfold(e, limits, depth, scope);
    if depth <= limits.maxDepth {
      match e
      case Literal(v) => LiteralExact(v, limits);
      case Object(fields) => CheckFieldsExact(fields, limits, depth + 1, scope);
      case Array(elements) => CheckAllExact(elements, limits, depth + 1, scope);
      case Get(target, key, fallback) =>
        CheckExact(target, limits, depth + 1, scope);
        CheckExact(key, limits, depth + 1, scope);
        if fallback.Some? {
          CheckExact(fallback.value, limits, depth + 1, scope);
        }
      case Lazy(op, args) => CheckAllExact(args, limits, depth + 1, scope);
      case Apply(op, args) => CheckAllExact(args, limits, depth + 1, scope);
      case Each(_, collection, item, index, body) => CheckEachExact(e, limits, depth, scope);
      case Sum(collection) => CheckExact(collection, limits, depth + 1, scope);
      case _ =>
    }
  }

  lemma LiteralExact(v: Json, limits: Limits)
    ensures Sized(v, limits, limits.maxOutputBytes, OutputLimit, 1).Ok?
            <==> Fits(v, limits, 1) && JsonSize(v) <= limits.maxOutputBytes
  {
    hide Sized, Fits, JsonSize;
    SizedExact(v, limits, limits.maxOutputBytes, OutputLimit, 1);
  }

  lemma {:induction false} CheckEachExact(e: Expr, limits: Limits, depth: nat, scope: set<Text>)
    requires e.Each? && depth <= limits.maxDepth
    ensures Tallies(Then(Tally(Accept, 1), CheckOperands(e, limits, depth, scope)),
                    Valid(e, limits, depth, scope), NodeCount(e))
    decreases e, 0
  {
    hide Check, ValidName, BodyScope, CheckAll, CheckFields, CheckArgs, Sized, AllValid, FieldsValid, Fits, JsonSize;
    hide ArityOk, LazyArityOk, CountAll, FieldsCount;
    CheckExact(e.collection, limits, depth + 1, scope);
    CheckExact(e.body, limits, depth + 1, BodyScope(scope, e.item, e.index));
  }

  lemma CheckUnfold(e: Expr, limits: Limits, depth: nat, scope: set<Text>)
    ensures Check(e, limits, depth, scope)
         == if depth > limits.maxDepth then Tally(Refuse(DepthLimit), 0)
            else Then(Tally(Accept, 1), CheckOperands(e, limits, depth, scope))
  {
  }

  lemma {:induction false} CheckAllExact(es: seq<Expr>, limits: Limits, depth: nat, scope: set<Text>)
    ensures Tallies(CheckAll(es, limits, depth, scope), AllValid(es, limits, depth, scope), CountAll(es))
    decreases es, 0
  {
    hide Check, Valid, NodeCount;
    if es != [] {
      CheckExact(es[0], limits, depth, scope);
      CheckAllExact(es[1..], limits, depth, scope);
    }
  }

  lemma {:induction false} CheckFieldsExact(fields: seq<Field<Expr>>, limits: Limits, depth: nat, scope: set<Text>)
    ensures Tallies(CheckFields(fields, limits, depth, scope), FieldsValid(fields, limits, depth, scope), FieldsCount(fields))
    decreases fields, 0
  {
    hide Check, Valid, NodeCount;
    if fields != [] {
      CheckExact(fields[0].value, limits, depth, scope);
      CheckFieldsExact(fields[1..], limits, depth, scope);
    }
  }

  lemma {:induction false} AcceptedExactly(e: Expr, limits: Limits, scope: set<Text>)
    ensures Accepted(e, limits, scope) <==> Valid(e, limits, 1, scope) && NodeCount(e) <= limits.maxNodes
  {
    CheckExact(e, limits, 1, scope);
  }

  // ----- what acceptance guarantees: recursion depth -----

  lemma {:induction false} ValidDepth(e: Expr, limits: Limits, depth: nat, scope: set<Text>)
    requires Valid(e, limits, depth, scope)
    ensures depth + Depth(e) <= limits.maxDepth + 1
    decreases e, 1
  {
    hide AllValid, FieldsValid, Fits, JsonSize, ValidName, DepthOfAll, FieldsDepth;
    match e
    case Object(fields) => FieldsValidDepth(fields, limits, depth + 1, scope);
    case Array(elements) => AllValidDepth(elements, limits, depth + 1, scope);
    case Get(target, key, fallback) =>
      ValidDepth(target, limits, depth + 1, scope);
      ValidDepth(key, limits, depth + 1, scope);
      if fallback.Some? {
        ValidDepth(fallback.value, limits, depth + 1, scope);
      }
    case Lazy(op, args) => AllValidDepth(args, limits, depth + 1, scope);
    case Apply(op, args) => AllValidDepth(args, limits, depth + 1, scope);
    case Each(_, collection, item, index, body) =>
      ValidDepth(collection, limits, depth + 1, scope);
      ValidDepth(body, limits, depth + 1, BodyScope(scope, item, index));
    case Sum(collection) => ValidDepth(collection, limits, depth + 1, scope);
    case _ =>
  }

  lemma {:induction false} AllValidDepth(es: seq<Expr>, limits: Limits, depth: nat, scope: set<Text>)
    requires AllValid(es, limits, depth, scope) && depth <= limits.maxDepth + 1
    ensures depth + DepthOfAll(es) <= limits.maxDepth + 1
    decreases es, 0
  {
    hide Valid, Depth;
    if es != [] {
      ValidDepth(es[0], limits, depth, scope);
      AllValidDepth(es[1..], limits, depth, scope);
    }
  }

  lemma {:induction false} FieldsValidDepth(fields: seq<Field<Expr>>, limits: Limits, depth: nat, scope: set<Text>)
    requires FieldsValid(fields, limits, depth, scope) && depth <= limits.maxDepth + 1
    ensures depth + FieldsDepth(fields) <= limits.maxDepth + 1
    decreases fields, 0
  {
    hide Valid, Depth;
    if fields != [] {
      ValidDepth(fields[0].value, limits, depth, scope);
      FieldsValidDepth(fields[1..], limits, depth, scope);
    }
  }

  // ----- what acceptance guarantees: no stuck evaluation -----

  /** An outcome that acceptance rules out: an unbound variable or a Python crash. */
  predicate Stuck(code: Code) {
    code.UnboundVariable? || code.Crash?
  }

  predicate Unstuck<T>(r: Result<T>) {
    r.Err? ==> !Stuck(r.code)
  }

  ghost predicate AgreeOn(scope: set<Text>, a: Env, b: Env) {
    forall x :: x in scope ==> x in a && x in b && a[x] == b[x]
  }

  /** The same outcome in both environments, and not a stuck one. */
  predicate Sound<T(==)>(s: Step<T>, t: Step<T>) {
    s == t && Unstuck(s.result)
  }

  lemma {:induction false} AsIntsLength(values: seq<Json>)
    ensures AsInts(values).Ok? ==> |AsInts(values).value| == |values|
    ensures AsInts(values).Err? ==> AsInts(values).code == TypeMismatch
  {
    if values != [] {
      AsIntsLength(values[1..]);
    }
  }

  lemma {:induction false} AsTextsUnstuck(values: seq<Json>)
    ensures AsTexts(values).Err? ==> AsTexts(values).code == TypeMismatch
  {
    if values != [] {
      AsTextsUnstuck(values[1..]);
    }
  }

  /** With the right number of arguments no operator reaches for a missing one. */
  lemma MeaningUnstuck(op: Op, values: seq<Json>, strings: Strings)
    requires ArityOk(op, |values|)
    ensures Unstuck(D.Meaning(op, values, strings))
  {
    hide AsInts, AsTexts, D.SumOf, D.ProductOf, Power, Least, Greatest, TextOps.Join, TextOps.Replace, TextOps.Split;
    hide Equal, Below, SliceSeq;
    AsIntsLength(values);
    if op.Concat? {
      AsTextsUnstuck(values);
    } else if op.Join? && values[1].Arr? {
      AsTextsUnstuck(values[1].items);
    }
  }

  lemma ApplyUnstuck(op: Op, values: seq<Json>, strings: Strings, limits: Limits)
    requires ArityOk(op, |values|)
    ensures Unstuck(ApplyOp(op, values, strings, limits))
  {
    hide ApplyOp, D.Meaning;
    MeaningUnstuck(op, values, strings);
    D.ApplyRefines(op, values, strings, limits);
  }

  lemma ChargeUnstuck(v: Json, total: int, limits: Limits)
    ensures Unstuck(Charge(v, total, limits))
  {
    hide Charge;
    R.ChargeBudget(v, total, limits);
  }

  lemma {:induction false} SumUnstuck(items: seq<Json>, total: int, limits: Limits)
    ensures Unstuck(SumFrom(items, total, limits))
    decreases |items|
  {
    if items != [] && items[0].Int? {
      SumUnstuck(items[1..], total + items[0].number, limits);
    }
  }

  lemma {:induction false} ItemsCount(c: Ctx, es: seq<Expr>, env: Env, total: int, first: bool)
    ensures EvalItems(c, es, env, total, first).result.Ok? ==> |EvalItems(c, es, env, total, first).result.value| == |es|
    decreases |es|
  {
    hide Sem, Charge;
    if es != [] {
      var t, s := Comma(total, first, c.limits), Sem(c, es[0], env);
      if t.Ok? && s.result.Ok? {
        var u := Charge(s.result.value, t.value, c.limits);
        if u.Ok? {
          ItemsCount(c, es[1..], env, u.value, false);
        }
      }
    }
  }

  /**
   * Acceptance is sound: in every environment that binds the variables in scope,
   * evaluation is never stuck, and what it yields depends on those variables only.
   */
  lemma {:induction false} SemSound(c: Ctx, e: Expr, a: Env, b: Env, limits: Limits, depth: nat, scope: set<Text>)
    requires Valid(e, limits, depth, scope) && AgreeOn(scope, a, b)
    ensures Sound(Sem(c, e, a), Sem(c, e, b))
    decreases e, 4
  {
    hide Eval, Valid;
    EvalSound(c, e, a, b, limits, depth, scope);
  }

  lemma {:induction false} EvalSound(c: Ctx, e: Expr, a: Env, b: Env, limits: Limits, depth: nat, scope: set<Text>)
    requires Valid(e, limits, depth, scope) && AgreeOn(scope, a, b)
    ensures Sound(Eval(c, e, a), Eval(c, e, b))
    decreases e, 3
  {
    hide Sem, EvalItems, EvalFields, EvalGet, EvalEach, ApplyOp, EvalAnd, EvalOr, EvalCoalesce, EvalIf, SumFrom;
    hide AllValid, FieldsValid, Fits, JsonSize, ValidName, ArityOk;
    match e
    case Object(fields) => FieldsSound(c, fields, a, b, limits, depth + 1, scope, 2, true);
    case Array(elements) => ItemsSound(c, elements, a, b, limits, depth + 1, scope, 2, true);
    case Get(_, _, _) => GetSound(c, e, a, b, limits, depth, scope);
    case Lazy(op, args) => LazySound(c, op, args, a, b, limits, depth + 1, scope);
    case Each(_, _, _, _, _) => EachSound(c, e, a, b, limits, depth, scope);
    case Sum(collection) => SumSound(c, e, a, b, limits, depth, scope);
    case Apply(op, args) =>
      ItemsSound(c, args, a, b, limits, depth + 1, scope, 2, true);
      ItemsCount(c, args, a, 2, true);
      var s := EvalItems(c, args, a, 2, true);
      if s.result.Ok? {
        ApplyUnstuck(op, s.result.value, c.strings, c.limits);
      }
    case _ =>
  }

  lemma {:induction false} ItemsSound(c: Ctx, es: seq<Expr>, a: Env, b: Env, limits: Limits, depth: nat, scope: set<Text>,
                                      total: int, first: bool)
    requires AllValid(es, limits, depth, scope) && AgreeOn(scope, a, b)
    ensures Sound(EvalItems(c, es, a, total, first), EvalItems(c, es, b, total, first))
    decreases es, 0
  {
    hide Sem, Charge, Valid;
    if es != [] {
      SemSound(c, es[0], a, b, limits, depth, scope);
      var t, s := Comma(total, first, c.limits), Sem(c, es[0], a);
      if t.Ok? && s.result.Ok? {
        ChargeUnstuck(s.result.value, t.value, c.limits);
        var u := Charge(s.result.value, t.value, c.limits);
        if u.Ok? {
          ItemsSound(c, es[1..], a, b, limits, depth, scope, u.value, false);
        }
      }
    }
  }

  lemma {:induction false} FieldsSound(c: Ctx, fields: seq<Field<Expr>>, a: Env, b: Env, limits: Limits, depth: nat,
                                       scope: set<Text>, total: int, first: bool)
    requires FieldsValid(fields, limits, depth, scope) && AgreeOn(scope, a, b)
    ensures Sound(EvalFields(c, fields, a, total, first), EvalFields(c, fields, b, total, first))
    decreases fields, 0
  {
    hide Sem, Charge, Valid, FieldHead;
    if fields != [] {
      var f := fields[0];
      SemSound(c, f.value, a, b, limits, depth, scope);
      R.FieldHeadBudget(f.key, total, first, c.limits);
      var t, s := FieldHead(f.key, total, first, c.limits), Sem(c, f.value, a);
      if t.Ok? && s.result.Ok? {
        ChargeUnstuck(s.result.value, t.value, c.limits);
        var u := Charge(s.result.value, t.value, c.limits);
        if u.Ok? {
          FieldsSound(c, fields[1..], a, b, limits, depth, scope, u.value, false);
        }
      }
    }
  }

  lemma {:induction false} GetSound(c: Ctx, e: Expr, a: Env, b: Env, limits: Limits, depth: nat, scope: set<Text>)
    requires e.Get? && Valid(e, limits, depth, scope) && AgreeOn(scope, a, b)
    ensures Sound(EvalGet(c, e, a), EvalGet(c, e, b))
    decreases e, 2
  {
    hide Sem, AllValid, FieldsValid, Fits, JsonSize, ValidName, IndexOf, Lookup;
    SemSound(c, e.target, a, b, limits, depth + 1, scope);
    SemSound(c, e.key, a, b, limits, depth + 1, scope);
    if e.fallback.Some? {
      SemSound(c, e.fallback.value, a, b, limits, depth + 1, scope);
    }
  }

  function LazyStep(c: Ctx, op: LazyOp, args: seq<Expr>, env: Env): Step<Json> {
    match op
    case And => EvalAnd(c, args, env)
    case Or => EvalOr(c, args, env)
    case If => EvalIf(c, args, env)
    case Coalesce => EvalCoalesce(c, args, env)
  }

  lemma {:induction false} LazySound(c: Ctx, op: LazyOp, args: seq<Expr>, a: Env, b: Env, limits: Limits, depth: nat,
                                     scope: set<Text>)
    requires AllValid(args, limits, depth, scope) && (op.If? ==> |args| == 3) && AgreeOn(scope, a, b)
    ensures Sound(LazyStep(c, op, args, a), LazyStep(c, op, args, b))
    decreases args, 0
  {
    hide Sem, Valid;
    if args != [] {
      SemSound(c, args[0], a, b, limits, depth, scope);
      if op.If? {
        AllValidAt(args, 1, limits, depth, scope);
        AllValidAt(args, 2, limits, depth, scope);
        SemSound(c, args[1], a, b, limits, depth, scope);
        SemSound(c, args[2], a, b, limits, depth, scope);
      } else {
        LazySound(c, op, args[1..], a, b, limits, depth, scope);
      }
    }
  }

  lemma {:induction false} SumSound(c: Ctx, e: Expr, a: Env, b: Env, limits: Limits, depth: nat, scope: set<Text>)
    requires e.Sum? && Valid(e, limits, depth, scope) && AgreeOn(scope, a, b)
    ensures Sound(Eval(c, e, a), Eval(c, e, b))
    decreases e, 2
  {
    hide Sem, SumFrom, AllValid, FieldsValid, Fits, JsonSize, ValidName;
    SemSound(c, e.collection, a, b, limits, depth + 1, scope);
    var s := Sem(c, e.collection, a);
    if s.result.Ok? && s.result.value.Arr? {
      SumUnstuck(s.result.value.items, 0, c.limits);
    }
  }

  lemma NestAgrees(scope: set<Text>, a: Env, b: Env, item: Text, index: Option<Text>, v: Json, i: nat)
    requires AgreeOn(scope, a, b)
    ensures AgreeOn(BodyScope(scope, item, index), Nest(a, item, index, v, i), Nest(b, item, index, v, i))
  {
  }

  lemma {:induction false} EachSound(c: Ctx, e: Expr, a: Env, b: Env, limits: Limits, depth: nat, scope: set<Text>)
    requires e.Each? && Valid(e, limits, depth, scope) && AgreeOn(scope, a, b)
    ensures Sound(Eval(c, e, a), Eval(c, e, b))
    decreases e, 2
  {
    hide Sem, EvalMap, EvalFilter, EvalKeys, SortItems, ItemsOf, StableSort;
    hide AllValid, FieldsValid, Fits, JsonSize, ValidName, BodyScope;
    SemSound(c, e.collection, a, b, limits, depth + 1, scope);
    var s := Sem(c, e.collection, a);
    if s.result.Ok? && s.result.value.Arr? {
      var items := s.result.value.items;
      match e.each
      case Map => MapSound(c, e, items, 0, a, b, limits, depth + 1, scope, 2);
      case Filter => FilterSound(c, e, items, 0, a, b, limits, depth + 1, scope);
      case Sort(descending) =>
        KeysSound(c, e, items, 0, a, b, limits, depth + 1, scope, 2);
        SortItemsUnstuck(c, e, items, a, descending);
    }
  }

  lemma SortItemsUnstuck(c: Ctx, e: Expr, items: seq<Json>, a: Env, descending: bool)
    requires e.Each?
    ensures var s := EvalKeys(c, e.item, e.index, e.body, items, 0, a, 2);
            s.result.Ok? ==> Unstuck(SortItems(s.result.value, descending, c.limits))
  {
    hide EvalKeys, ItemsOf, StableSort;
  }

  lemma {:induction false} MapSound(c: Ctx, e: Expr, items: seq<Json>, i: nat, a: Env, b: Env, limits: Limits, depth: nat,
                                    scope: set<Text>, total: int)
    requires e.Each? && Valid(e.body, limits, depth, BodyScope(scope, e.item, e.index)) && AgreeOn(scope, a, b)
    ensures Sound(EvalMap(c, e.item, e.index, e.body, items, i, a, total),
                  EvalMap(c, e.item, e.index, e.body, items, i, b, total))
    decreases e, 0, |items|
  {
    hide Sem, Charge, Nest, Valid, BodyScope;
    if items != [] {
      NestAgrees(scope, a, b, e.item, e.index, items[0], i);
      var nested := Nest(a, e.item, e.index, items[0], i);
      SemSound(c, e.body, nested, Nest(b, e.item, e.index, items[0], i), limits, depth, BodyScope(scope, e.item, e.index));
      var t, s := Comma(total, i == 0, c.limits), Sem(c, e.body, nested);
      if t.Ok? && s.result.Ok? {
        ChargeUnstuck(s.result.value, t.value, c.limits);
        var u := Charge(s.result.value, t.value, c.limits);
        if u.Ok? {
          MapSound(c, e, items[1..], i + 1, a, b, limits, depth, scope, u.value);
        }
      }
    }
  }

  lemma {:induction false} FilterSound(c: Ctx, e: Expr, items: seq<Json>, i: nat, a: Env, b: Env, limits: Limits, depth: nat,
                                       scope: set<Text>)
    requires e.Each? && Valid(e.body, limits, depth, BodyScope(scope, e.item, e.index)) && AgreeOn(scope, a, b)
    ensures Sound(EvalFilter(c, e.item, e.index, e.body, items, i, a),
                  EvalFilter(c, e.item, e.index, e.body, items, i, b))
    decreases e, 0, |items|
  {
    hide Sem, Nest, Valid, BodyScope;
    if items != [] {
      NestAgrees(scope, a, b, e.item, e.index, items[0], i);
      SemSound(c, e.body, Nest(a, e.item, e.index, items[0], i), Nest(b, e.item, e.index, items[0], i),
               limits, depth, BodyScope(scope, e.item, e.index));
      FilterSound(c, e, items[1..], i + 1, a, b, limits, depth, scope);
    }
  }

  lemma {:induction false} KeysSound(c: Ctx, e: Expr, items: seq<Json>, i: nat, a: Env, b: Env, limits: Limits, depth: nat,
                                     scope: set<Text>, total: int)
    requires e.Each? && Valid(e.body, limits, depth, BodyScope(scope, e.item, e.index)) && AgreeOn(scope, a, b)
    ensures Sound(EvalKeys(c, e.item, e.index, e.body, items, i, a, total),
                  EvalKeys(c, e.item, e.index, e.body, items, i, b, total))
    decreases e, 0, |items|
  {
    hide Sem, Charge, Nest, Valid, BodyScope;
    if items != [] {
      NestAgrees(scope, a, b, e.item, e.index, items[0], i);
      var nested := Nest(a, e.item, e.index, items[0], i);
      SemSound(c, e.body, nested, Nest(b, e.item, e.index, items[0], i), limits, depth, BodyScope(scope, e.item, e.index));
      var t, s := Comma(total, i == 0, c.limits), Sem(c, e.body, nested);
      if t.Ok? && s.result.Ok? {
        ChargeUnstuck(s.result.value, t.value, c.limits);
        var u := Charge(s.result.value, t.value, c.limits);
        if u.Ok? {
          KeysSound(c, e, items[1..], i + 1, a, b, limits, depth, scope, u.value);
        }
      }
    }
  }
}
