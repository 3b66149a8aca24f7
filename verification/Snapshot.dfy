/**
 * The stored form of an expression, with its object fields and literals sorted
 * by key, and the parts of evaluation that do not see key order: the size
 * checks and the eager operators.
 */
module Snapshot {
  import opened Texts
  import opened Json
  import opened Limits
  import opened Sizing
  import opened Ir
  import opened Operators
  import opened Semantics
  import TextOps

  // ----- the stored form of an expression -----

  function Snap(e: Expr): Expr
    decreases e, 1
  {
    match e
    case Literal(v) => Literal(Normalize(v))
    case Input(_) => e
    case Var(_) => e
    case Object(fields) => Object(SortByKey(SnapFields(fields)))
    case Array(elements) => Array(SnapAll(elements))
    case Get(target, key, fallback) =>
      Get(Snap(target), Snap(key), if fallback.Some? then Some(Snap(fallback.value)) else None)
    case Lazy(op, args) => Lazy(op, SnapAll(args))
    case Each(each, collection, item, index, body) => Each(each, Snap(collection), item, index, Snap(body))
    case Sum(collection) => Sum(Snap(collection))
    case Apply(op, args) => Apply(op, SnapAll(args))
  }

  function SnapAll(es: seq<Expr>): (r: seq<Expr>)
    ensures |r| == |es|
    decreases es, 0
  {
    if es == [] then [] else [Snap(es[0])] + SnapAll(es[1..])
  }

  function SnapFields(fields: seq<Field<Expr>>): (r: seq<Field<Expr>>)
    ensures |r| == |fields|
    decreases fields, 0
  {
    if fields == [] then [] else [Field(fields[0].key, Snap(fields[0].value))] + SnapFields(fields[1..])
  }

  /** The expression came from JSON: literals are well formed and field names are unique. */
  predicate WellFormedExpr(e: Expr)
    decreases e, 1
  {
    match e
    case Literal(v) => WellFormed(v)
    case Object(fields) => UniqueKeys(fields) && FieldsWellFormed(fields)
    case Array(elements) => AllWellFormed(elements)
    case Get(target, key, fallback) =>
      WellFormedExpr(target) && WellFormedExpr(key) && (fallback.Some? ==> WellFormedExpr(fallback.value))
    case Lazy(_, args) => AllWellFormed(args)
    case Each(_, collection, _, _, body) => WellFormedExpr(collection) && WellFormedExpr(body)
    case Sum(collection) => WellFormedExpr(collection)
    case Apply(_, args) => AllWellFormed(args)
    case _ => true
  }

  predicate AllWellFormed(es: seq<Expr>)
    decreases es, 0
  {
    es == [] || (WellFormedExpr(es[0]) && AllWellFormed(es[1..]))
  }

  predicate FieldsWellFormed(fields: seq<Field<Expr>>)
    decreases fields, 0
  {
    fields == [] || (WellFormedExpr(fields[0].value) && FieldsWellFormed(fields[1..]))
  }

  function NormalizeEnv(env: Env): Env {
    map x | x in env :: Normalize(env[x])
  }

  function NormalizeCtx(c: Ctx): Ctx {
    Ctx(c.limits, Normalize(c.inputs), c.strings)
  }

  ghost predicate WellFormedEnv(env: Env) {
    forall x :: x in env ==> WellFormed(env[x])
  }

  ghost predicate WellFormedItems(items: seq<Json>) {
    forall i :: 0 <= i < |items| ==> WellFormed(items[i])
  }

  // ----- size checks do not see key order -----

  lemma {:induction false} InsertFits(f: Field<Json>, fields: seq<Field<Json>>, l: Limits, depth: nat)
    ensures FieldsFit(Insert(f, fields), l, depth)
            <==> Encodable(f.key) && Fits(f.value, l, depth) && FieldsFit(fields, l, depth)
  {
    hide Fits, Encodable, Below;
    if fields == [] || Below(f.key, fields[0].key) {
      assert ([f] + fields)[1..] == fields;
    } else {
      InsertFits(f, fields[1..], l, depth);
      assert Insert(f, fields)[1..] == Insert(f, fields[1..]);
    }
  }

  lemma {:induction false} SortFits(fields: seq<Field<Json>>, l: Limits, depth: nat)
    ensures FieldsFit(SortByKey(fields), l, depth) <==> FieldsFit(fields, l, depth)
  {
    hide Fits, Encodable;
    if fields != [] {
      SortFits(fields[1..], l, depth);
      InsertFits(fields[0], SortByKey(fields[1..]), l, depth);
    }
  }

  lemma {:induction false} FitsNormalizes(v: Json, l: Limits, depth: nat)
    ensures Fits(Normalize(v), l, depth) <==> Fits(v, l, depth)
    decreases v, 0
  {
    match v
    case Arr(items) => ItemsFitNormalize(items, l, depth + 1);
    case Obj(fields) =>
      FieldsFitNormalize(fields, l, depth + 1);
      SortFits(NormalizeFields(fields), l, depth + 1);
    case _ =>
  }

  lemma {:induction false} ItemsFitNormalize(items: seq<Json>, l: Limits, depth: nat)
    ensures ItemsFit(NormalizeItems(items), l, depth) <==> ItemsFit(items, l, depth)
    decreases items, 1
  {
    hide Fits;
    if items != [] {
      FitsNormalizes(items[0], l, depth);
      ItemsFitNormalize(items[1..], l, depth);
      assert NormalizeItems(items)[1..] == NormalizeItems(items[1..]);
    }
  }

  lemma {:induction false} FieldsFitNormalize(fields: seq<Field<Json>>, l: Limits, depth: nat)
    ensures FieldsFit(NormalizeFields(fields), l, depth) <==> FieldsFit(fields, l, depth)
    decreases fields, 1
  {
    hide Fits, Encodable;
    if fields != [] {
      FitsNormalizes(fields[0].value, l, depth);
      FieldsFitNormalize(fields[1..], l, depth);
      assert NormalizeFields(fields)[1..] == NormalizeFields(fields[1..]);
    }
  }

  lemma SizedNormalizes(v: Json, l: Limits, max: int, code: Code, depth: nat)
    requires WellFormed(v)
    ensures Sized(Normalize(v), l, max, code, depth).Ok? <==> Sized(v, l, max, code, depth).Ok?
    ensures Sized(v, l, max, code, depth).Ok? ==> Sized(Normalize(v), l, max, code, depth) == Sized(v, l, max, code, depth)
  {
    hide Sized, Fits, JsonSize, Normalize;
    SizedExact(v, l, max, code, depth);
    SizedExact(Normalize(v), l, max, code, depth);
    FitsNormalizes(v, l, depth);
    SizeNormalizes(v);
  }

  /** Both succeed with the same total, or both fail. */
  predicate SameTotal(r: Result<int>, s: Result<int>) {
    (r.Ok? <==> s.Ok?) && (r.Ok? ==> r == s)
  }

  lemma ChargeNormalizes(v: Json, total: int, l: Limits)
    requires WellFormed(v)
    ensures SameTotal(Charge(v, total, l), Charge(Normalize(v), total, l))
  {
    hide Sized, Normalize;
    SizedNormalizes(v, l, l.maxOutputBytes - total, OutputLimit, 1);
  }

  // ----- operators do not see key order -----

  function NormalizeResult(r: Result<Json>): Result<Json> {
    if r.Ok? then Ok(Normalize(r.value)) else r
  }

  lemma {:induction false} AsIntsNormalizes(values: seq<Json>)
    ensures AsInts(NormalizeItems(values)) == AsInts(values)
    ensures AsTexts(NormalizeItems(values)) == AsTexts(values)
  {
    if values != [] {
      AsIntsNormalizes(values[1..]);
      assert NormalizeItems(values)[1..] == NormalizeItems(values[1..]);
    }
  }

  lemma {:induction false} SumNormalizes(items: seq<Json>, total: int, l: Limits)
    ensures SumFrom(NormalizeItems(items), total, l) == SumFrom(items, total, l)
    decreases |items|
  {
    if items != [] {
      assert NormalizeItems(items)[1..] == NormalizeItems(items[1..]);
      if items[0].Int? {
        SumNormalizes(items[1..], total + items[0].number, l);
      }
    }
  }

  lemma {:induction false} NormalizeSlice(items: seq<Json>, a: nat, b: nat)
    requires a <= b <= |items|
    ensures NormalizeItems(items[a..b]) == NormalizeItems(items)[a..b]
  {
    forall i | 0 <= i < b - a ensures NormalizeItems(items[a..b])[i] == NormalizeItems(items)[a..b][i] {
      NormalizeItemsAt(items[a..b], i);
      NormalizeItemsAt(items, a + i);
    }
  }

  lemma {:induction false} NormalizeStrings(parts: seq<Text>)
    ensures NormalizeItems(TextOps.Strings(parts)) == TextOps.Strings(parts)
    ensures WellFormedItems(TextOps.Strings(parts))
  {
    if parts != [] {
      NormalizeStrings(parts[1..]);
      var r := TextOps.Strings(parts);
      assert r[1..] == TextOps.Strings(parts[1..]);
      assert forall i :: 0 < i < |r| ==> r[i] == r[1..][i - 1];
    }
  }

  /** A normalized argument list, seen one argument at a time. */
  lemma ArgumentsNormalize(values: seq<Json>, i: nat)
    requires i < |values|
    ensures NormalizeItems(values)[i] == Normalize(values[i])
  {
    NormalizeItemsAt(values, i);
  }

  /** Equality of two values is equality of their normal forms. */
  lemma EqualNormalizes(a: Json, b: Json)
    requires WellFormed(a) && WellFormed(b)
    ensures Equal(Normalize(a), Normalize(b)) <==> Equal(a, b)
  {
    hide Equal, Normalize, WellFormed;
    NormalizeWellFormed(a);
    NormalizeWellFormed(b);
    EqualIsSameNormalForm(a, b);
    EqualIsSameNormalForm(Normalize(a), Normalize(b));
    NormalizeIdempotent(a);
    NormalizeIdempotent(b);
  }

  lemma EqualityNormalizes(op: Op, values: seq<Json>)
    requires WellFormedItems(values)
    ensures EqualityOf(op, NormalizeItems(values)) == NormalizeResult(EqualityOf(op, values))
  {
    hide Equal, NormalizeItems, WellFormed, Below, SortByKey, NormalizeFields;
    if |values| >= 1 {
      ArgumentsNormalize(values, 0);
    }
    if |values| >= 2 {
      ArgumentsNormalize(values, 1);
      EqualNormalizes(values[0], values[1]);
    }
  }

  lemma JoinNormalizes(values: seq<Json>, l: Limits)
    ensures JoinOf(NormalizeItems(values), l) == NormalizeResult(JoinOf(values, l))
  {
    hide PreflightParts, AsTexts, NormalizeItems, TextOps.Join;
    if |values| >= 1 {
      ArgumentsNormalize(values, 0);
    }
    if |values| >= 2 {
      ArgumentsNormalize(values, 1);
      if values[1].Arr? {
        AsIntsNormalizes(values[1].items);
      }
    }
  }

  lemma SliceNormalizes(values: seq<Json>, l: Limits)
    ensures SliceOf(NormalizeItems(values), l) == NormalizeResult(SliceOf(values, l))
  {
    hide BoundedString, NormalizeItems, SliceBound;
    if |values| >= 1 {
      ArgumentsNormalize(values, 0);
    }
    if |values| >= 2 {
      ArgumentsNormalize(values, 1);
    }
    if |values| == 3 {
      ArgumentsNormalize(values, 2);
    }
    if |values| >= 2 && values[0].Arr? && values[1].Int? && (|values| == 3 ==> values[2].Int?) {
      var items := values[0].items;
      var a := SliceBound(values[1].number, |items|);
      var b := if |values| == 3 then SliceBound(values[2].number, |items|) else |items|;
      NormalizeSlice(items, a, if a <= b then b else a);
      assert items[a..a] == [] && NormalizeItems(items)[a..a] == [];
    } else if |values| >= 2 && values[0].Str? {
      BoundedStringIsText(values, l);
    }
  }

  lemma BoundedStringIsText(values: seq<Json>, l: Limits)
    ensures SliceOf(values, l).Ok? && values[0].Str? ==> SliceOf(values, l).value.Str?
  {
  }

  lemma TextArgumentsNormalize(op: Op, values: seq<Json>, strings: Strings, l: Limits)
    requires op.Replace? || op.Split? || op.Lower? || op.Upper? || op.Strip?
    ensures ApplyOp(op, NormalizeItems(values), strings, l) == ApplyOp(op, values, strings, l)
  {
    hide ReplacePrediction, SplitPrediction, BoundedString, NormalizeItems, TextOps.Replace, TextOps.Split, TextOps.Count,
      TextOps.Strings, EnsureContent, SortByKey, NormalizeFields;
    if |values| >= 1 {
      ArgumentsNormalize(values, 0);
    }
    if |values| >= 2 {
      ArgumentsNormalize(values, 1);
    }
    if |values| >= 3 {
      ArgumentsNormalize(values, 2);
    }
  }

  lemma TextResultIsNormal(op: Op, values: seq<Json>, strings: Strings, l: Limits)
    requires op.Replace? || op.Split? || op.Lower? || op.Upper? || op.Strip?
    ensures NormalizeResult(ApplyOp(op, values, strings, l)) == ApplyOp(op, values, strings, l)
  {
    hide ReplacePrediction, SplitPrediction, ScanContent, TextOps.Replace, TextOps.Split, TextOps.Count, TextOps.Strings;
    if op.Split? && SplitOf(values, l).Ok? {
      NormalizeStrings(TextOps.Split(values[0].text, values[1].text));
    }
  }

  lemma UnaryNormalizes(op: Op, values: seq<Json>, strings: Strings, l: Limits)
    requires op.Length? || op.Not? || op.Concat?
    ensures ApplyOp(op, NormalizeItems(values), strings, l) == NormalizeResult(ApplyOp(op, values, strings, l))
  {
    hide NormalizeItems, PreflightParts, AsTexts, TextOps.Join, SortByKey, NormalizeFields;
    AsIntsNormalizes(values);
    if values != [] {
      ArgumentsNormalize(values, 0);
    }
  }

  lemma ValueOperatorNormalizes(op: Op, values: seq<Json>, strings: Strings, l: Limits)
    requires WellFormedItems(values)
    requires IsNumeric(op) || op.Join? || op.Slice? || op.Eq? || op.Ne? || op.Lt? || op.Lte? || op.Gt? || op.Gte?
    ensures ApplyOp(op, NormalizeItems(values), strings, l) == NormalizeResult(ApplyOp(op, values, strings, l))
  {
    hide Numeric, JoinOf, SliceOf, EqualityOf, NormalizeItems, WellFormedItems;
    if IsNumeric(op) {
      NumericNormalizes(op, values, l);
    } else if op.Join? {
      JoinNormalizes(values, l);
    } else if op.Slice? {
      SliceNormalizes(values, l);
    } else {
      EqualityNormalizes(op, values);
    }
  }

  /** Each eager operator commutes with sorting keys. */
  lemma ApplyNormalizes(op: Op, values: seq<Json>, strings: Strings, l: Limits)
    requires WellFormedItems(values)
    ensures ApplyOp(op, NormalizeItems(values), strings, l) == NormalizeResult(ApplyOp(op, values, strings, l))
  {
    hide ApplyOp, WellFormedItems, NormalizeItems;
    if op.Replace? || op.Split? || op.Lower? || op.Upper? || op.Strip? {
      TextArgumentsNormalize(op, values, strings, l);
      TextResultIsNormal(op, values, strings, l);
    } else if op.Length? || op.Not? || op.Concat? {
      UnaryNormalizes(op, values, strings, l);
    } else {
      ValueOperatorNormalizes(op, values, strings, l);
    }
  }

  lemma NumericNormalizes(op: Op, values: seq<Json>, l: Limits)
    ensures Numeric(op, NormalizeItems(values), l) == Numeric(op, values, l)
  {
    hide AsInts, NormalizeItems;
    AsIntsNormalizes(values);
  }

  lemma ApplyWellFormed(op: Op, values: seq<Json>, strings: Strings, l: Limits)
    requires WellFormedItems(values) && ApplyOp(op, values, strings, l).Ok?
    ensures WellFormed(ApplyOp(op, values, strings, l).value)
  {
    hide Numeric, AsTexts, PreflightParts, ScanContent, ReplacePrediction, SplitPrediction, TextOps.Strings, Equal,
      TextOps.Replace, TextOps.Split, TextOps.Count, TextOps.Join, Below, EnsureContent;
    if op.Split? {
      NormalizeStrings(TextOps.Split(values[0].text, values[1].text));
    } else if op.Slice? && values[0].Arr? {
      var items := values[0].items;
      var end := if |values| == 3 then Some(values[2].number) else None;
      assert WellFormed(values[0]);
      assert WellFormedItems(SliceSeq(items, values[1].number, end));
    }
  }
}
