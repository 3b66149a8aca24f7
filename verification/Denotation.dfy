/**
 * The meaning of an expression with no resource limit in sight, and the proof
 * that the metered evaluator computes exactly that meaning unless it stops with
 * a budget error.
 */
module Denotation {
  import opened Texts
  import opened Json
  import opened Limits
  import opened Sizing
  import opened Ir
  import opened Operators
  import opened Semantics
  import Canonical
  import TextOps

  /** What the meaning depends on besides the expression and its variables. */
  datatype World = World(inputs: Json, strings: Strings)

  // ----- operators without limits -----

  function SumOf(ns: seq<int>): int {
    if ns == [] then 0 else ns[0] + SumOf(ns[1..])
  }

  function ProductOf(ns: seq<int>): int {
    if ns == [] then 1 else ns[0] * ProductOf(ns[1..])
  }

  function RoundMeaning(ns: seq<int>): Result<int> {
    if ns == [] then Err(Crash)
    else if |ns| == 1 || ns[1] >= 0 then Ok(ns[0])
    else
      TenPositive(-ns[1]);
      Ok(RoundToMultiple(ns[0], Power(10, -ns[1])))
  }

  function PowerMeaning(base: int, exponent: int): Result<int> {
    if exponent >= 0 then Ok(Power(base, exponent)) else if base == 0 then Err(DivisionByZero) else Err(FloatResult)
  }

  function NumericMeaning(op: Op, ns: seq<int>): Result<int> {
    if op.Min? then (if ns == [] then Err(InvalidNumber) else Ok(Least(ns)))
    else if op.Max? then (if ns == [] then Err(InvalidNumber) else Ok(Greatest(ns)))
    else if op.Round? then RoundMeaning(ns)
    else if ns == [] then Err(Crash)
    else if op.Add? then Ok(SumOf(ns))
    else if op.Mul? then Ok(ProductOf(ns))
    else if op.Abs? then Ok(Operators.Abs(ns[0]))
    else if |ns| == 1 then Err(Crash)
    else if op.Sub? then Ok(ns[0] - ns[1])
    else if op.Pow? then PowerMeaning(ns[0], ns[1])
    else if ns[1] == 0 then Err(DivisionByZero)
    else if op.Mod? then Ok(FloorMod(ns[0], ns[1]))
    else Err(FloatResult)
  }

  function TextArgument(values: seq<Json>, i: nat): Result<Text> {
    if i >= |values| then Err(Crash) else if values[i].Str? then Ok(values[i].text) else Err(TypeMismatch)
  }

  function ReplaceMeaning(values: seq<Json>): Result<Json> {
    var source :- TextArgument(values, 0);
    var target :- TextArgument(values, 1);
    var fill :- TextArgument(values, 2);
    Ok(Str(TextOps.Replace(source, target, fill)))
  }

  function SplitMeaning(values: seq<Json>): Result<Json> {
    var source :- TextArgument(values, 0);
    var separator :- TextArgument(values, 1);
    if separator == [] then Err(InvalidSeparator)
    else Ok(Arr(TextOps.Strings(TextOps.Split(source, separator))))
  }

  function JoinMeaning(values: seq<Json>): Result<Json> {
    var first :- Argument(values, 0);
    var separator :- AsText(first);
    var second :- Argument(values, 1);
    if !second.Arr? then Err(TypeMismatch)
    else
      var parts :- AsTexts(second.items);
      Ok(Str(TextOps.Join(separator, parts)))
  }

  function SliceMeaning(values: seq<Json>): Result<Json> {
    var target :- Argument(values, 0);
    if !target.Str? && !target.Arr? then Err(TypeMismatch)
    else
      var v1 :- Argument(values, 1);
      var start :- AsInt(v1);
      var end :- if |values| == 3 then SliceEnd(values[2]) else Ok(None);
      Ok(if target.Str? then Str(SliceSeq(target.text, start, end)) else Arr(SliceSeq(target.items, start, end)))
  }

  function LengthMeaning(values: seq<Json>): Result<Json> {
    var v :- Argument(values, 0);
    match v
    case Str(t) => Ok(Int(|t|))
    case Arr(items) => Ok(Int(|items|))
    case Obj(fields) => Ok(Int(|fields|))
    case _ => Err(TypeMismatch)
  }

  function TextMeaning(op: Op, values: seq<Json>, strings: Strings): Result<Json> {
    if op.Concat? then
      var parts :- AsTexts(values);
      Ok(Str(TextOps.Join([], parts)))
    else if op.Replace? then ReplaceMeaning(values)
    else if op.Split? then SplitMeaning(values)
    else
      var v :- Argument(values, 0);
      var t :- AsText(v);
      Ok(Str(if op.Lower? then strings.lower(t) else if op.Upper? then strings.upper(t) else strings.strip(t)))
  }

  function Meaning(op: Op, values: seq<Json>, strings: Strings): Result<Json> {
    if IsNumeric(op) then
      var ns :- AsInts(values);
      var n :- NumericMeaning(op, ns);
      Ok(Int(n))
    else
      match op
      case Join => JoinMeaning(values)
      case Length => LengthMeaning(values)
      case Slice => SliceMeaning(values)
      case Not => NotOf(values)
      case _ =>
        if op.Concat? || op.Replace? || op.Split? || op.Lower? || op.Upper? || op.Strip?
        then TextMeaning(op, values, strings)
        else EqualityOf(op, values)
  }

  // ----- expressions without limits -----

  function Denote(w: World, e: Expr, env: Env): Step<Json>
    decreases e, 2
  {
    After(1, Operation(w, e, env))
  }

  function Operation(w: World, e: Expr, env: Env): Step<Json>
    decreases e, 1
  {
    match e
    case Literal(v) => Pass(Ok(v))
    case Input(name) => Pass(InputOf(w.inputs, name))
    case Var(name) => Pass(if name in env then Ok(env[name]) else Err(UnboundVariable))
    case Object(fields) => Built(FieldValues(w, fields, env))
    case Array(elements) => Listed(Values(w, elements, env))
    case Get(_, _, _) => Found(w, e, env)
    case Lazy(op, args) => if op.If? then Chosen(w, args, env) else Scan(w, op, args, env)
    case Each(each, collection, item, index, body) =>
      var s := Denote(w, collection, env);
      if s.result.Err? then s
      else if !s.result.value.Arr? then Fail(TypeMismatch, s.ticks)
      else After(s.ticks, Traversed(each, s.result.value.items, Bodies(w, item, index, body, s.result.value.items, 0, env, each)))
    case Sum(collection) =>
      var s := Denote(w, collection, env);
      if s.result.Err? then s
      else if !s.result.value.Arr? then Fail(TypeMismatch, s.ticks)
      else
        var ns := AsInts(s.result.value.items);
        Step(if ns.Err? then Err(ns.code) else Ok(Int(SumOf(ns.value))), s.ticks)
    case Apply(op, args) =>
      var s := Values(w, args, env);
      if s.result.Err? then Fail(s.result.code, s.ticks) else Step(Meaning(op, s.result.value, w.strings), s.ticks)
  }

  function Built(s: Step<seq<Field<Json>>>): Step<Json> {
    if s.result.Err? then Fail(s.result.code, s.ticks) else Step(Ok(Obj(s.result.value)), s.ticks)
  }

  function Listed(s: Step<seq<Json>>): Step<Json> {
    if s.result.Err? then Fail(s.result.code, s.ticks) else Step(Ok(Arr(s.result.value)), s.ticks)
  }

  function Values(w: World, es: seq<Expr>, env: Env): Step<seq<Json>>
    decreases es, 0
  {
    if es == [] then Pass(Ok([]))
    else
      var s := Denote(w, es[0], env);
      if s.result.Err? then Fail(s.result.code, s.ticks)
      else Prefix(s.result.value, s.ticks, Values(w, es[1..], env))
  }

  function FieldValues(w: World, fields: seq<Field<Expr>>, env: Env): Step<seq<Field<Json>>>
    decreases fields, 0
  {
    if fields == [] then Pass(Ok([]))
    else
      var s := Denote(w, fields[0].value, env);
      if s.result.Err? then Fail(s.result.code, s.ticks)
      else Prefix(Field(fields[0].key, s.result.value), s.ticks, FieldValues(w, fields[1..], env))
  }

  function Found(w: World, e: Expr, env: Env): Step<Json>
    requires e.Get?
    decreases e, 0
  {
    var t := Denote(w, e.target, env);
    if t.result.Err? then t
    else
      var k := Denote(w, e.key, env);
      if k.result.Err? then After(t.ticks, k)
      else
        var found := GetOf(t.result.value, k.result.value);
        if found.Err? then Fail(found.code, t.ticks + k.ticks)
        else if found.value.Some? then Step(Ok(found.value.value), t.ticks + k.ticks)
        else if e.fallback.Some? then After(t.ticks + k.ticks, Denote(w, e.fallback.value, env))
        else Fail(MissingKey, t.ticks + k.ticks)
  }

  /** `and`, `or` and `coalesce`: the first argument that settles the outcome. */
  function Scan(w: World, op: LazyOp, args: seq<Expr>, env: Env): Step<Json>
    decreases args, 0
  {
    if args == [] then Pass(Ok(if op.And? then Bool(true) else if op.Or? then Bool(false) else Null))
    else
      var s := Denote(w, args[0], env);
      if s.result.Err? then s
      else if !op.Coalesce? && !s.result.value.Bool? then Fail(TypeMismatch, s.ticks)
      else if Settles(op, s.result.value) then s
      else After(s.ticks, Scan(w, op, args[1..], env))
  }

  predicate Settles(op: LazyOp, v: Json) {
    v != (if op.And? then Bool(true) else if op.Or? then Bool(false) else Null)
  }

  function Chosen(w: World, args: seq<Expr>, env: Env): Step<Json>
    decreases args, 0
  {
    if args == [] then Fail(Crash, 0)
    else
      var s := Denote(w, args[0], env);
      if s.result.Err? then s
      else if !s.result.value.Bool? then Fail(TypeMismatch, s.ticks)
      else
        var branch := if s.result.value.flag then 1 else 2;
        if branch < |args| then After(s.ticks, Denote(w, args[branch], env)) else Fail(Crash, s.ticks)
  }

  /** The body's value for each item; a value the traversal cannot use is an error at once. */
  function Bodies(w: World, item: Text, index: Option<Text>, body: Expr, items: seq<Json>, i: nat, env: Env, each: EachOp)
    : Step<seq<Json>>
    decreases body, |items| + 3
  {
    if items == [] then Pass(Ok([]))
    else
      var s := Denote(w, body, Nest(env, item, index, items[0], i));
      if s.result.Err? then Fail(s.result.code, s.ticks)
      else if each.Filter? && !s.result.value.Bool? then Fail(TypeMismatch, s.ticks)
      else if each.Sort? && SortKeyOf(s.result.value).Err? then Fail(InvalidSortKey, s.ticks)
      else Prefix(s.result.value, s.ticks, Bodies(w, item, index, body, items[1..], i + 1, env, each))
  }

  /** What a traversal makes of its items and of the body's value for each of them. */
  function Traversed(each: EachOp, items: seq<Json>, bodies: Step<seq<Json>>): Step<Json> {
    if bodies.result.Err? then Fail(bodies.result.code, bodies.ticks)
    else
      var values := bodies.result.value;
      Step(Ok(Arr(match each
                  case Map => values
                  case Filter => Kept(items, values)
                  case Sort(descending) => ItemsOf(StableSort(Decorated(items, values), descending)))), bodies.ticks)
  }

  /** The items whose value is true. */
  function Kept(items: seq<Json>, values: seq<Json>): seq<Json>
    decreases |items|
  {
    if items == [] || values == [] then []
    else (if values[0] == Bool(true) then [items[0]] else []) + Kept(items[1..], values[1..])
  }

  /** The items with the sort keys of their values. */
  function Decorated(items: seq<Json>, values: seq<Json>): seq<Keyed>
    decreases |items|
  {
    if items == [] || values == [] then []
    else
      (match SortKeyOf(values[0])
       case Ok(k) => [Keyed(k, items[0])]
       case Err(_) => [])
      + Decorated(items[1..], values[1..])
  }

  // ----- the refinement -----

  /** The codes with which a resource limit, or an unencodable string, stops a run. */
  predicate Budget(code: Code) {
    code.IntegerLimit? || code.CollectionLimit? || code.OutputLimit? || code.ValueDepthLimit?
    || code.PowerLimit? || code.RoundLimit? || code.InvalidString?
  }

  predicate Agree<T(==)>(r: Result<T>, m: Result<T>) {
    r == m || (r.Err? && Budget(r.code))
  }

  /** The metered step is the meaning, or it stopped early on a budget. */
  predicate Refines<T(==)>(s: Step<T>, d: Step<T>) {
    s == d || (s.result.Err? && Budget(s.result.code) && s.ticks <= d.ticks)
  }

  lemma {:induction false} AddRefines(acc: int, ns: seq<int>, limits: Limits)
    ensures Agree(AddFrom(acc, ns, limits), Ok(acc + SumOf(ns)))
    decreases |ns|
  {
    if ns != [] {
      AddRefines(acc + ns[0], ns[1..], limits);
    }
  }

  lemma {:induction false} MultiplyRefines(acc: int, ns: seq<int>, limits: Limits)
    ensures Agree(MultiplyFrom(acc, ns, limits), Ok(acc * ProductOf(ns)))
    decreases |ns|
  {
    if ns != [] {
      MultiplyRefines(acc * ns[0], ns[1..], limits);
      assert acc * (ns[0] * ProductOf(ns[1..])) == acc * ns[0] * ProductOf(ns[1..]);
    }
  }

  lemma NumericRefines(op: Op, values: seq<Json>, limits: Limits)
    requires IsNumeric(op)
    ensures Agree(Numeric(op, values, limits),
                  var ns :- AsInts(values);
                  NumericMeaning(op, ns))
  {
    hide AsInts, AddFrom, MultiplyFrom, BitLength, Least, Greatest, SumOf, ProductOf, Power;
    var r := AsInts(values);
    if r.Ok? && r.value != [] {
      var ns := r.value;
      if op.Add? {
        AddRefines(ns[0], ns[1..], limits);
        SumUnfold(ns);
      } else if op.Mul? {
        MultiplyRefines(ns[0], ns[1..], limits);
        SumUnfold(ns);
      }
    }
  }

  lemma SumUnfold(ns: seq<int>)
    requires ns != []
    ensures SumOf(ns) == ns[0] + SumOf(ns[1..])
    ensures ProductOf(ns) == ns[0] * ProductOf(ns[1..])
  {
  }

  lemma {:induction false} ScanContentBudget(t: Text, size: int, maximum: Option<nat>)
    ensures ScanContent(t, size, maximum).Err? ==> ScanContent(t, size, maximum).code == InvalidString
    decreases |t|
  {
    if t != [] && !Surrogate(t[0]) {
      ScanContentBudget(t[1..], size + Utf8Length(Canonical.EscapeOne(t[0])), maximum);
    }
  }

  lemma {:induction false} PartsBytesBudget(parts: seq<Text>, total: int, limits: Limits)
    ensures PartsBytes(parts, total, limits).Err? ==> Budget(PartsBytes(parts, total, limits).code)
    decreases |parts|
  {
    if parts != [] {
      ScanContentBudget(parts[0], 0, None);
      var size := ContentBytes(parts[0]);
      if size.Ok? && EnsureContent(total + size.value, limits).Ok? {
        PartsBytesBudget(parts[1..], total + size.value, limits);
      }
    }
  }

  lemma PreflightBudget(parts: seq<Text>, separator: Option<Text>, limits: Limits)
    ensures PreflightParts(parts, separator, limits).Err? ==> Budget(PreflightParts(parts, separator, limits).code)
  {
    PartsBytesBudget(parts, 0, limits);
    if separator.Some? {
      ScanContentBudget(separator.value, 0, None);
    }
  }

  lemma BoundedStringRefines(t: Text, limits: Limits)
    ensures Agree(BoundedString(t, limits), Ok(Str(t)))
  {
    ScanContentBudget(t, 0, Some(if limits.maxOutputBytes >= 2 then limits.maxOutputBytes - 2 else 0));
  }

  lemma ReplaceRefines(values: seq<Json>, limits: Limits)
    ensures Agree(ReplaceOf(values, limits), ReplaceMeaning(values))
  {
    hide TextOps.Replace, TextOps.Count, ScanContent;
    if |values| >= 3 && values[0].Str? && values[1].Str? && values[2].Str? {
      ScanContentBudget(values[0].text, 0, None);
      ScanContentBudget(values[1].text, 0, None);
      ScanContentBudget(values[2].text, 0, None);
    }
  }

  lemma SplitRefines(values: seq<Json>, limits: Limits)
    ensures Agree(SplitOf(values, limits), SplitMeaning(values))
  {
    hide TextOps.Split, TextOps.Count, ScanContent;
    if |values| >= 2 && values[0].Str? && values[1].Str? {
      ScanContentBudget(values[0].text, 0, None);
      ScanContentBudget(values[1].text, 0, None);
    }
  }

  lemma JoinRefines(values: seq<Json>, limits: Limits)
    ensures Agree(JoinOf(values, limits), JoinMeaning(values))
  {
    hide PreflightParts, AsTexts;
    if |values| >= 2 && values[0].Str? && values[1].Arr? {
      var parts := AsTexts(values[1].items);
      if parts.Ok? {
        PreflightBudget(parts.value, Some(values[0].text), limits);
      }
    }
  }

  lemma SliceRefines(values: seq<Json>, limits: Limits)
    ensures Agree(SliceOf(values, limits), SliceMeaning(values))
  {
    hide BoundedString;
    if |values| >= 2 && values[0].Str? && values[1].Int? {
      var t, a := values[0].text, values[1].number;
      BoundedStringRefines(SliceSeq(t, a, None), limits);
      if |values| == 3 && values[2].Int? {
        BoundedStringRefines(SliceSeq(t, a, Some(values[2].number)), limits);
      }
    }
  }

  lemma CaseRefines(op: Op, values: seq<Json>, strings: Strings, limits: Limits)
    requires op.Lower? || op.Upper? || op.Strip?
    ensures Agree(CaseOf(op, values, strings, limits), TextMeaning(op, values, strings))
  {
    hide BoundedString;
    if values != [] && values[0].Str? {
      var t := values[0].text;
      BoundedStringRefines(if op.Lower? then strings.lower(t) else if op.Upper? then strings.upper(t) else strings.strip(t),
                           limits);
    }
  }

  lemma ConcatRefines(values: seq<Json>, strings: Strings, limits: Limits)
    ensures Agree(ConcatOf(values, limits), TextMeaning(Concat, values, strings))
  {
    hide PreflightParts, AsTexts;
    var parts := AsTexts(values);
    if parts.Ok? {
      PreflightBudget(parts.value, None, limits);
    }
  }

  /** Every eager operator computes its meaning or hits a limit. */
  lemma ApplyRefines(op: Op, values: seq<Json>, strings: Strings, limits: Limits)
    ensures Agree(ApplyOp(op, values, strings, limits), Meaning(op, values, strings))
  {
    if IsNumeric(op) {
      hide Numeric, NumericMeaning, AsInts;
      NumericRefines(op, values, limits);
    } else {
      hide ConcatOf, ReplaceOf, SplitOf, JoinOf, SliceOf, CaseOf, ReplaceMeaning, SplitMeaning, JoinMeaning, SliceMeaning;
      if op.Concat? {
        ConcatRefines(values, strings, limits);
      } else if op.Replace? {
        ReplaceRefines(values, limits);
      } else if op.Split? {
        SplitRefines(values, limits);
      } else if op.Join? {
        JoinRefines(values, limits);
      } else if op.Slice? {
        SliceRefines(values, limits);
      } else if op.Lower? || op.Upper? || op.Strip? {
        CaseRefines(op, values, strings, limits);
      }
    }
  }
}
