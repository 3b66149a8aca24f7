/**
 * No intermediate value outgrows the byte limits: every string, array and
 * object that any evaluation step returns is bounded, and so is the number of
 * items of every collection inside it.
 */
module Bounded {
  import opened Texts
  import opened Json
  import opened Limits
  import opened Sizing
  import opened Ir
  import opened Operators
  import opened Semantics
  import opened Validity
  import TextOps
  import P = Preflight

  /** Every collection, at every depth, has at most `n` items. */
  predicate Counted(v: Json, n: nat)
    decreases v, 0
  {
    match v
    case Arr(items) => |items| <= n && AllCounted(items, n)
    case Obj(fields) => |fields| <= n && FieldsCounted(fields, n)
    case _ => true
  }

  predicate AllCounted(items: seq<Json>, n: nat)
    decreases items, 1
  {
    items == [] || (Counted(items[0], n) && AllCounted(items[1..], n))
  }

  predicate FieldsCounted(fields: seq<Field<Json>>, n: nat)
    decreases fields, 1
  {
    fields == [] || (Counted(fields[0].value, n) && FieldsCounted(fields[1..], n))
  }

  /** The larger of the input and the output limit. */
  function Bound(l: Limits): nat {
    if l.maxInputBytes < l.maxOutputBytes then l.maxOutputBytes else l.maxInputBytes
  }

  predicate Within(v: Json, l: Limits) {
    Counted(v, l.maxItems) && (v.Str? || v.Arr? || v.Obj? ==> JsonSize(v) <= Bound(l))
  }

  // ----- parts of bounded values -----

  lemma {:induction false} FitsCounted(v: Json, l: Limits, depth: nat)
    requires Fits(v, l, depth)
    ensures Counted(v, l.maxItems)
    decreases v, 0
  {
    match v
    case Arr(items) => ItemsFitCounted(items, l, depth + 1);
    case Obj(fields) => FieldsFitCounted(fields, l, depth + 1);
    case _ =>
  }

  lemma {:induction false} ItemsFitCounted(items: seq<Json>, l: Limits, depth: nat)
    requires ItemsFit(items, l, depth)
    ensures AllCounted(items, l.maxItems)
    decreases items, 1
  {
    if items != [] {
      FitsCounted(items[0], l, depth);
      ItemsFitCounted(items[1..], l, depth);
    }
  }

  lemma {:induction false} FieldsFitCounted(fields: seq<Field<Json>>, l: Limits, depth: nat)
    requires FieldsFit(fields, l, depth)
    ensures FieldsCounted(fields, l.maxItems)
    decreases fields, 1
  {
    if fields != [] {
      FitsCounted(fields[0].value, l, depth);
      FieldsFitCounted(fields[1..], l, depth);
    }
  }

  /** Bytes of the items, with one comma each. */
  function Weight(items: seq<Json>): nat {
    ItemsSize(items, false)
  }

  lemma ArraySize(items: seq<Json>)
    ensures JsonSize(Arr(items)) == if items == [] then 2 else Weight(items) + 1
  {
  }

  lemma {:induction false} ItemWithin(items: seq<Json>, i: nat, n: nat)
    requires i < |items|
    ensures JsonSize(items[i]) + 1 <= Weight(items)
    ensures AllCounted(items, n) ==> Counted(items[i], n)
  {
    hide JsonSize, Counted;
    if i > 0 {
      ItemWithin(items[1..], i - 1, n);
    }
  }

  lemma {:induction false} FieldWithin(fields: seq<Field<Json>>, key: Text, n: nat, first: bool)
    requires HasKey(fields, key)
    ensures JsonSize(Lookup(fields, key).value) <= FieldsSize(fields, first)
    ensures FieldsCounted(fields, n) ==> Counted(Lookup(fields, key).value, n)
  {
    hide JsonSize, Counted;
    if fields[0].key != key {
      FieldWithin(fields[1..], key, n, false);
    }
  }

  lemma {:induction false} CharWithin(t: Text, i: nat)
    requires i < |t|
    ensures ContentSize([t[i]]) <= ContentSize(t)
  {
    hide ContentSize;
    TextOps.ContentSizeConcat(t[..i], [t[i]]);
    TextOps.ContentSizeConcat(t[..i] + [t[i]], t[i + 1..]);
    assert t == t[..i] + [t[i]] + t[i + 1..];
  }

  lemma {:induction false} WeightConcat(a: seq<Json>, b: seq<Json>)
    ensures Weight(a + b) == Weight(a) + Weight(b)
  {
    hide JsonSize;
    if a == [] {
      assert a + b == b;
    } else {
      assert (a + b)[1..] == a[1..] + b;
      WeightConcat(a[1..], b);
    }
  }

  lemma {:induction false} CountedConcat(a: seq<Json>, b: seq<Json>, n: nat)
    ensures AllCounted(a + b, n) <==> AllCounted(a, n) && AllCounted(b, n)
  {
    hide Counted;
    if a == [] {
      assert a + b == b;
    } else {
      assert (a + b)[1..] == a[1..] + b;
      CountedConcat(a[1..], b, n);
    }
  }

  /** A slice of a bounded array is bounded. */
  lemma SliceWithin(items: seq<Json>, a: nat, b: nat, l: Limits)
    requires a <= b <= |items| && Within(Arr(items), l) && Bound(l) >= 2
    ensures Within(Arr(items[a..b]), l)
  {
    hide Weight, AllCounted;
    var left, mid, right := items[..a], items[a..b], items[b..];
    assert items == left + mid + right;
    WeightConcat(left, mid);
    WeightConcat(left + mid, right);
    CountedConcat(left, mid, l.maxItems);
    CountedConcat(left + mid, right, l.maxItems);
    ArraySize(items);
    ArraySize(mid);
  }

  // ----- what a passed size check gives -----

  lemma ChargeBounds(v: Json, total: int, l: Limits)
    requires Charge(v, total, l).Ok?
    ensures Fits(v, l, 1) && Charge(v, total, l).value == total + JsonSize(v) <= l.maxOutputBytes
  {
    hide Sized, Fits, JsonSize;
    SizedExact(v, l, l.maxOutputBytes - total, OutputLimit, 1);
  }

  lemma {:induction false} ItemsBounded(c: Ctx, es: seq<Expr>, env: Env, total: int, first: bool)
    requires total <= c.limits.maxOutputBytes
    ensures var s := EvalItems(c, es, env, total, first);
            s.result.Ok? ==> |s.result.value| == |es| && ItemsFit(s.result.value, c.limits, 1)
                             && total + ItemsSize(s.result.value, first) <= c.limits.maxOutputBytes
    decreases |es|
  {
    hide Sem, Charge, Fits, JsonSize;
    if es != [] {
      var t, s := Comma(total, first, c.limits), Sem(c, es[0], env);
      if t.Ok? && s.result.Ok? {
        var u := Charge(s.result.value, t.value, c.limits);
        if u.Ok? {
          ChargeBounds(s.result.value, t.value, c.limits);
          ItemsBounded(c, es[1..], env, u.value, false);
          var rest := EvalItems(c, es[1..], env, u.value, false).result;
          if rest.Ok? {
            assert ([s.result.value] + rest.value)[1..] == rest.value;
          }
        }
      }
    }
  }

  lemma {:induction false} FieldsBounded(c: Ctx, fields: seq<Field<Expr>>, env: Env, total: int, first: bool)
    requires total <= c.limits.maxOutputBytes
    ensures var s := EvalFields(c, fields, env, total, first);
            s.result.Ok? ==> |s.result.value| == |fields| && FieldsFit(s.result.value, c.limits, 1)
                             && total + FieldsSize(s.result.value, first) <= c.limits.maxOutputBytes
    decreases |fields|
  {
    hide Sem, Charge, Fits, JsonSize, ContentSize, ContentBytes;
    if fields != [] {
      var f := fields[0];
      P.ContentBytesExact(f.key);
      var t, s := FieldHead(f.key, total, first, c.limits), Sem(c, f.value, env);
      if t.Ok? && s.result.Ok? {
        var u := Charge(s.result.value, t.value, c.limits);
        if u.Ok? {
          ChargeBounds(s.result.value, t.value, c.limits);
          FieldsBounded(c, fields[1..], env, u.value, false);
          var rest := EvalFields(c, fields[1..], env, u.value, false).result;
          if rest.Ok? {
            assert ([Field(f.key, s.result.value)] + rest.value)[1..] == rest.value;
          }
        }
      }
    }
  }

  lemma {:induction false} MapBounded(c: Ctx, e: Expr, items: seq<Json>, i: nat, env: Env, total: int)
    requires e.Each? && total <= c.limits.maxOutputBytes
    ensures var s := EvalMap(c, e.item, e.index, e.body, items, i, env, total);
            s.result.Ok? ==> |s.result.value| == |items| && ItemsFit(s.result.value, c.limits, 1)
                             && total + ItemsSize(s.result.value, i == 0) <= c.limits.maxOutputBytes
    decreases |items|
  {
    hide Sem, Charge, Fits, JsonSize, Nest;
    if items != [] {
      var t, s := Comma(total, i == 0, c.limits), Sem(c, e.body, Nest(env, e.item, e.index, items[0], i));
      if t.Ok? && s.result.Ok? {
        var u := Charge(s.result.value, t.value, c.limits);
        if u.Ok? {
          ChargeBounds(s.result.value, t.value, c.limits);
          MapBounded(c, e, items[1..], i + 1, env, u.value);
          var rest := EvalMap(c, e.item, e.index, e.body, items[1..], i + 1, env, u.value).result;
          if rest.Ok? {
            assert ([s.result.value] + rest.value)[1..] == rest.value;
          }
        }
      }
    }
  }

  lemma {:induction false} FilterBounded(c: Ctx, e: Expr, items: seq<Json>, i: nat, env: Env)
    requires e.Each?
    ensures var s := EvalFilter(c, e.item, e.index, e.body, items, i, env);
            s.result.Ok? ==> |s.result.value| <= |items| && Weight(s.result.value) <= Weight(items)
                             && (AllCounted(items, c.limits.maxItems) ==> AllCounted(s.result.value, c.limits.maxItems))
    decreases |items|
  {
    hide Sem, JsonSize, Nest, Counted;
    if items != [] {
      FilterBounded(c, e, items[1..], i + 1, env);
      var s := Sem(c, e.body, Nest(env, e.item, e.index, items[0], i));
      var rest := EvalFilter(c, e.item, e.index, e.body, items[1..], i + 1, env).result;
      if s.result.Ok? && rest.Ok? {
        assert ([items[0]] + rest.value)[1..] == rest.value;
      }
    }
  }

  lemma {:induction false} KeysKeepItems(c: Ctx, e: Expr, items: seq<Json>, i: nat, env: Env, total: int)
    requires e.Each?
    ensures var s := EvalKeys(c, e.item, e.index, e.body, items, i, env, total);
            s.result.Ok? ==> ItemsOf(s.result.value) == items
    decreases |items|
  {
    hide Sem, Charge, Nest, SortKeyOf;
    if items != [] {
      var t, s := Comma(total, i == 0, c.limits), Sem(c, e.body, Nest(env, e.item, e.index, items[0], i));
      if t.Ok? && s.result.Ok? {
        var u := Charge(s.result.value, t.value, c.limits);
        if u.Ok? {
          KeysKeepItems(c, e, items[1..], i + 1, env, u.value);
          var k, rest := SortKeyOf(s.result.value), EvalKeys(c, e.item, e.index, e.body, items[1..], i + 1, env, u.value).result;
          if k.Ok? && rest.Ok? {
            assert ([Keyed(k.value, items[0])] + rest.value)[1..] == rest.value;
            assert [items[0]] + items[1..] == items;
          }
        }
      }
    }
  }

  lemma {:induction false} InsertWeight(k: Keyed, ks: seq<Keyed>, descending: bool, n: nat)
    ensures Weight(ItemsOf(InsertKeyed(k, ks, descending))) == JsonSize(k.item) + 1 + Weight(ItemsOf(ks))
    ensures Counted(k.item, n) && AllCounted(ItemsOf(ks), n) ==> AllCounted(ItemsOf(InsertKeyed(k, ks, descending)), n)
  {
    hide JsonSize, Counted, Before;
    if ks == [] || !Before(ks[0], k, descending) {
      assert ([k] + ks)[1..] == ks;
      assert ItemsOf([k] + ks)[1..] == ItemsOf(ks);
    } else {
      var rest := InsertKeyed(k, ks[1..], descending);
      InsertWeight(k, ks[1..], descending, n);
      assert ([ks[0]] + rest)[1..] == rest;
      assert ItemsOf([ks[0]] + rest)[1..] == ItemsOf(rest);
      assert ItemsOf(ks)[1..] == ItemsOf(ks[1..]);
    }
  }

  lemma {:induction false} SortWeight(ks: seq<Keyed>, descending: bool, n: nat)
    ensures Weight(ItemsOf(StableSort(ks, descending))) == Weight(ItemsOf(ks))
    ensures AllCounted(ItemsOf(ks), n) ==> AllCounted(ItemsOf(StableSort(ks, descending)), n)
  {
    hide JsonSize, Counted;
    if ks != [] {
      SortWeight(ks[1..], descending, n);
      InsertWeight(ks[0], StableSort(ks[1..], descending), descending, n);
      assert ItemsOf(ks)[1..] == ItemsOf(ks[1..]);
    }
  }

  // ----- operators -----

  lemma BoundedStringBounds(t: Text, l: Limits)
    requires BoundedString(t, l).Ok?
    ensures BoundedString(t, l).value == Str(t) && ContentSize(t) + 2 <= l.maxOutputBytes
  {
    hide ScanContent, ContentSize;
    ScanContentExact(t, 0, Some(if l.maxOutputBytes >= 2 then l.maxOutputBytes - 2 else 0));
  }

  lemma {:induction false} PartsBytesEncodable(parts: seq<Text>, total: int, l: Limits)
    requires PartsBytes(parts, total, l).Ok?
    ensures P.AllEncodable(parts)
    decreases |parts|
  {
    hide ContentBytes;
    if parts != [] {
      P.ContentBytesExact(parts[0]);
      var size := ContentBytes(parts[0]);
      PartsBytesEncodable(parts[1..], total + size.value, l);
      assert forall i :: 0 < i < |parts| ==> parts[i] == parts[1..][i - 1];
    }
  }

  lemma {:induction false} PartsBytesTotal(parts: seq<Text>, total: int, l: Limits)
    requires PartsBytes(parts, total, l).Ok?
    ensures PartsBytes(parts, total, l).value == total + TextOps.PartsSize(parts)
    ensures parts != [] ==> total + TextOps.PartsSize(parts) + 2 <= l.maxOutputBytes
  {
    hide ContentSize, PartsBytes;
    PartsBytesEncodable(parts, total, l);
    P.PartsBytesExact(parts, total, l);
  }

  lemma JoinedBounds(parts: seq<Text>, separator: Option<Text>, l: Limits)
    requires PreflightParts(parts, separator, l).Ok? && l.maxOutputBytes >= 2
    ensures JsonSize(Str(TextOps.Join(if separator.Some? then separator.value else [], parts))) <= l.maxOutputBytes
  {
    hide ContentSize, ContentBytes, PartsBytes, TextOps.Join;
    var sep := if separator.Some? then separator.value else [];
    PartsBytesTotal(parts, 0, l);
    P.ContentBytesExact(sep);
    TextOps.JoinSize(sep, parts);
    TextOps.EmptyContent();
    P.ProductNonNegative(ContentSize(sep), if parts == [] then 0 else |parts| - 1);
  }

  lemma {:induction false} StringsCounted(parts: seq<Text>, n: nat)
    ensures AllCounted(TextOps.Strings(parts), n)
  {
    if parts != [] {
      StringsCounted(parts[1..], n);
      assert TextOps.Strings(parts)[1..] == TextOps.Strings(parts[1..]);
    }
  }

  lemma SplitBounds(values: seq<Json>, l: Limits)
    requires SplitOf(values, l).Ok?
    ensures Within(SplitOf(values, l).value, l)
  {
    hide SplitPrediction, JsonSize, TextOps.Split, TextOps.Count, AllCounted;
    var source, separator := values[0].text, values[1].text;
    P.SplitPredictsSize(source, separator);
    TextOps.SplitHasCountPlusOne(source, separator);
    StringsCounted(TextOps.Split(source, separator), l.maxItems);
  }

  lemma SliceBounds(values: seq<Json>, l: Limits)
    requires SliceOf(values, l).Ok? && l.maxOutputBytes >= 2
    requires forall v :: v in values ==> Within(v, l)
    ensures Within(SliceOf(values, l).value, l)
  {
    hide BoundedString, ContentSize, AllCounted, Weight;
    var target, start := values[0], values[1].number;
    var end := if |values| == 3 then Some(values[2].number) else None;
    if target.Str? {
      BoundedStringBounds(SliceSeq(target.text, start, end), l);
    } else {
      var items := target.items;
      var a := SliceBound(start, |items|);
      var b := if end.None? then |items| else SliceBound(end.value, |items|);
      SliceWithin(items, a, if a <= b then b else a, l);
      assert items[a..a] == [];
    }
  }

  lemma ApplyBounded(op: Op, values: seq<Json>, strings: Strings, l: Limits)
    requires ApplyOp(op, values, strings, l).Ok? && l.maxOutputBytes >= 2
    requires forall v :: v in values ==> Within(v, l)
    ensures Within(ApplyOp(op, values, strings, l).value, l)
  {
    hide Numeric, SplitOf, SliceOf, BoundedString, PreflightParts, AsTexts, ReplacePrediction, Within;
    if op.Split? {
      SplitBounds(values, l);
    } else if op.Slice? {
      SliceBounds(values, l);
    } else if op.Concat? {
      JoinedBounds(AsTexts(values).value, None, l);
      StringWithin(TextOps.Join([], AsTexts(values).value), l);
    } else if op.Join? {
      JoinedBounds(AsTexts(values[1].items).value, Some(values[0].text), l);
      StringWithin(TextOps.Join(values[0].text, AsTexts(values[1].items).value), l);
    } else if op.Replace? {
      P.ReplacePredictsSize(values[0].text, values[1].text, values[2].text);
      StringWithin(TextOps.Replace(values[0].text, values[1].text, values[2].text), l);
    } else if op.Lower? || op.Upper? || op.Strip? {
      var t := values[0].text;
      var u := if op.Lower? then strings.lower(t) else if op.Upper? then strings.upper(t) else strings.strip(t);
      BoundedStringBounds(u, l);
      StringWithin(u, l);
    } else {
      ScalarWithin(ApplyOp(op, values, strings, l).value, l);
    }
  }

  lemma StringWithin(t: Text, l: Limits)
    requires ContentSize(t) + 2 <= l.maxOutputBytes
    ensures Within(Str(t), l)
  {
  }

  lemma ScalarWithin(v: Json, l: Limits)
    requires v.Int? || v.Bool?
    ensures Within(v, l)
  {
  }

  // ----- expressions -----

  /** The environment and the inputs are bounded, and an empty collection fits. */
  ghost predicate Prepared(c: Ctx, env: Env) {
    && c.limits.maxInputBytes >= 2 && c.limits.maxOutputBytes >= 2
    && Within(c.inputs, c.limits)
    && forall x :: x in env ==> Within(env[x], c.limits)
  }

  predicate StepWithin(s: Step<Json>, l: Limits) {
    s.result.Ok? ==> Within(s.result.value, l)
  }

  lemma ItemsWithin(items: seq<Json>, l: Limits)
    requires |items| <= l.maxItems && ItemsFit(items, l, 1) && 2 + ItemsSize(items, true) <= l.maxOutputBytes
    ensures Within(Arr(items), l)
  {
    ItemsFitCounted(items, l, 1);
  }

  lemma {:induction false} EachItemWithin(items: seq<Json>, l: Limits)
    requires ItemsFit(items, l, 1) && 2 + ItemsSize(items, true) <= l.maxOutputBytes
    ensures forall v :: v in items ==> Within(v, l)
  {
    hide JsonSize, Counted, Fits;
    ItemsFitCounted(items, l, 1);
    ArraySize(items);
    forall v | v in items ensures Within(v, l) {
      var i :| 0 <= i < |items| && items[i] == v;
      ItemWithin(items, i, l.maxItems);
    }
  }

  /** What an accepted expression evaluates to in a bounded environment is bounded by the byte and collection limits. */
  lemma {:induction false} SemBounded(c: Ctx, e: Expr, env: Env, depth: nat, scope: set<Text>)
    requires Valid(e, c.limits, depth, scope) && Prepared(c, env)
    ensures StepWithin(Sem(c, e, env), c.limits)
    decreases e, 4
  {
    hide Eval, Valid, Prepared, Within;
    EvalBounded(c, e, env, depth, scope);
  }

  lemma {:induction false} EvalBounded(c: Ctx, e: Expr, env: Env, depth: nat, scope: set<Text>)
    requires Valid(e, c.limits, depth, scope) && Prepared(c, env)
    ensures StepWithin(Eval(c, e, env), c.limits)
    decreases e, 3
  {
    hide Sem, EvalItems, EvalFields, EvalGet, EvalEach, ApplyOp, EvalAnd, EvalOr, EvalCoalesce, EvalIf, SumFrom;
    hide AllValid, FieldsValid, Fits, ValidName, ArityOk, Within, Counted, JsonSize;
    match e
    case Literal(v) => LiteralWithin(v, c.limits);
    case Input(name) => InputWithin(c, name);
    case Object(fields) =>
      FieldsBounded(c, fields, env, 2, true);
      var s := EvalFields(c, fields, env, 2, true);
      if s.result.Ok? {
        ObjectWithin(s.result.value, c.limits);
      }
    case Array(elements) =>
      ItemsBounded(c, elements, env, 2, true);
      var s := EvalItems(c, elements, env, 2, true);
      if s.result.Ok? {
        ItemsWithin(s.result.value, c.limits);
      }
    case Get(_, _, _) => GetBounded(c, e, env, depth, scope);
    case Lazy(op, args) => LazyBounded(c, op, args, env, depth + 1, scope);
    case Each(_, _, _, _, _) => EachBounded(c, e, env, depth, scope);
    case Sum(_) => SumScalar(c, e, env);
    case Apply(op, args) =>
      ItemsBounded(c, args, env, 2, true);
      var s := EvalItems(c, args, env, 2, true);
      if s.result.Ok? && ApplyOp(op, s.result.value, c.strings, c.limits).Ok? {
        EachItemWithin(s.result.value, c.limits);
        ApplyBounded(op, s.result.value, c.strings, c.limits);
      }
    case _ =>
  }

  lemma LiteralWithin(v: Json, l: Limits)
    requires Fits(v, l, 1) && JsonSize(v) <= l.maxOutputBytes
    ensures Within(v, l)
  {
    FitsCounted(v, l, 1);
  }

  lemma ObjectWithin(fields: seq<Field<Json>>, l: Limits)
    requires |fields| <= l.maxItems && FieldsFit(fields, l, 1) && 2 + FieldsSize(fields, true) <= l.maxOutputBytes
    ensures Within(Obj(fields), l)
  {
    FieldsFitCounted(fields, l, 1);
  }

  lemma InputWithin(c: Ctx, name: Option<Text>)
    requires Within(c.inputs, c.limits)
    ensures InputOf(c.inputs, name).Ok? ==> Within(InputOf(c.inputs, name).value, c.limits)
  {
    if name.Some? && c.inputs.Obj? && HasKey(c.inputs.fields, name.value) {
      FieldWithin(c.inputs.fields, name.value, c.limits.maxItems, true);
    }
  }

  lemma SumScalar(c: Ctx, e: Expr, env: Env)
    requires e.Sum?
    ensures StepWithin(Eval(c, e, env), c.limits)
  {
    hide Sem, SumFrom;
    var s := Sem(c, e.collection, env);
    if s.result.Ok? && Eval(c, e, env).result.Ok? {
      assert Eval(c, e, env).result.value.Int?;
    }
  }

  lemma FoundWithin(target: Json, key: Json, l: Limits)
    requires Within(target, l)
    ensures var found := GetOf(target, key); found.Ok? && found.value.Some? ==> Within(found.value.value, l)
  {
    hide ContentSize;
    match target
    case Obj(fields) =>
      if key.Str? && HasKey(fields, key.text) {
        FieldWithin(fields, key.text, l.maxItems, true);
      }
    case Arr(items) =>
      if key.Int? && IndexOf(items, key.number).Some? {
        var i := if key.number < 0 then |items| + key.number else key.number;
        ItemWithin(items, i, l.maxItems);
        ArraySize(items);
      }
    case Str(t) =>
      if key.Int? && IndexOf(t, key.number).Some? {
        CharWithin(t, if key.number < 0 then |t| + key.number else key.number);
      }
    case _ =>
  }

  lemma {:induction false} GetBounded(c: Ctx, e: Expr, env: Env, depth: nat, scope: set<Text>)
    requires e.Get? && Valid(e, c.limits, depth, scope) && Prepared(c, env)
    ensures StepWithin(EvalGet(c, e, env), c.limits)
    decreases e, 2
  {
    hide Sem, AllValid, FieldsValid, Fits, ValidName, GetOf, Within, Prepared, JsonSize;
    SemBounded(c, e.target, env, depth + 1, scope);
    var t, k := Sem(c, e.target, env), Sem(c, e.key, env);
    if t.result.Ok? && k.result.Ok? {
      FoundWithin(t.result.value, k.result.value, c.limits);
    }
    if e.fallback.Some? {
      SemBounded(c, e.fallback.value, env, depth + 1, scope);
    }
  }

  lemma {:induction false} LazyBounded(c: Ctx, op: LazyOp, args: seq<Expr>, env: Env, depth: nat, scope: set<Text>)
    requires AllValid(args, c.limits, depth, scope) && Prepared(c, env)
    ensures StepWithin(LazyStep(c, op, args, env), c.limits)
    decreases args, 0
  {
    hide Sem, Valid, Prepared, JsonSize;
    if args != [] {
      SemBounded(c, args[0], env, depth, scope);
      if op.If? {
        if |args| > 1 {
          AllValidAt(args, 1, c.limits, depth, scope);
          SemBounded(c, args[1], env, depth, scope);
        }
        if |args| > 2 {
          AllValidAt(args, 2, c.limits, depth, scope);
          SemBounded(c, args[2], env, depth, scope);
        }
      } else {
        LazyBounded(c, op, args[1..], env, depth, scope);
      }
    }
  }

  lemma {:induction false} EachBounded(c: Ctx, e: Expr, env: Env, depth: nat, scope: set<Text>)
    requires e.Each? && Valid(e, c.limits, depth, scope) && Prepared(c, env)
    ensures StepWithin(Eval(c, e, env), c.limits)
    decreases e, 2
  {
    hide Sem, EvalEach, AllValid, FieldsValid, Fits, ValidName, BodyScope, Within, JsonSize;
    SemBounded(c, e.collection, env, depth + 1, scope);
    var s := Sem(c, e.collection, env);
    if s.result.Ok? && s.result.value.Arr? && |s.result.value.items| <= c.limits.maxItems {
      TraversalBounded(c, e, s.result.value.items, env);
    }
  }

  /** The bodies of a traversal run in bounded environments too. */
  lemma NestPrepared(c: Ctx, e: Expr, items: seq<Json>, i: nat, env: Env)
    requires e.Each? && Prepared(c, env) && Within(Arr(items), c.limits) && i < |items|
    ensures Prepared(c, Nest(env, e.item, e.index, items[i], i))
  {
    hide JsonSize, Weight;
    ItemWithin(items, i, c.limits.maxItems);
    ArraySize(items);
    assert Within(items[i], c.limits);
  }

  lemma TraversalBounded(c: Ctx, e: Expr, items: seq<Json>, env: Env)
    requires e.Each? && Within(Arr(items), c.limits) && c.limits.maxOutputBytes >= 2
    ensures StepWithin(EvalEach(c, e.each, e.item, e.index, e.body, items, env), c.limits)
  {
    hide EvalMap, EvalFilter, EvalKeys, ItemsOf, StableSort, Weight, AllCounted, ItemsFit, ItemsSize;
    ArraySize(items);
    match e.each
    case Map =>
      MapBounded(c, e, items, 0, env, 2);
      var s := EvalMap(c, e.item, e.index, e.body, items, 0, env, 2);
      if s.result.Ok? {
        ItemsWithin(s.result.value, c.limits);
      }
    case Filter =>
      FilterBounded(c, e, items, 0, env);
      var s := EvalFilter(c, e.item, e.index, e.body, items, 0, env);
      if s.result.Ok? {
        ArraySize(s.result.value);
      }
    case Sort(descending) =>
      KeysKeepItems(c, e, items, 0, env, 2);
      var s := EvalKeys(c, e.item, e.index, e.body, items, 0, env, 2);
      if s.result.Ok? {
        SortWeight(s.result.value, descending, c.limits.maxItems);
        ArraySize(ItemsOf(StableSort(s.result.value, descending)));
      }
  }

  // ----- every call of a run -----

  /** One call of the evaluator. */
  datatype Call = Call(expr: Expr, env: Env)

  /**
   * The calls that evaluating `e` in `env` may make itself: one for each operand,
   * taken or not, and for a traversal one for each item of the collection it
   * got, with the item and its index bound.
   */
  ghost predicate Makes(c: Ctx, caller: Call, callee: Call) {
    var Call(e, env) := caller;
    match e
    case Literal(_) => false
    case Input(_) => false
    case Var(_) => false
    case Object(fields) => callee.env == env && exists i :: 0 <= i < |fields| && fields[i].value == callee.expr
    case Array(elements) => callee.env == env && callee.expr in elements
    case Lazy(_, args) => callee.env == env && callee.expr in args
    case Apply(_, args) => callee.env == env && callee.expr in args
    case Sum(collection) => callee == Call(collection, env)
    case Get(target, key, fallback) =>
      callee.env == env && (callee.expr == target || callee.expr == key || fallback == Some(callee.expr))
    case Each(_, collection, item, index, body) =>
      callee == Call(collection, env) || (callee.expr == body && BodyRuns(c, collection, item, index, env, callee.env))
  }

  /** The environment is that of the body for some item of the collection. */
  ghost predicate BodyRuns(c: Ctx, collection: Expr, item: Text, index: Option<Text>, env: Env, inner: Env) {
    var s := Sem(c, collection, env).result;
    s.Ok? && s.value.Arr? && exists i: nat :: i < |s.value.items| && inner == Nest(env, item, index, s.value.items[i], i)
  }

  /** A stack of calls, each made by the one before. */
  ghost predicate CallStack(c: Ctx, calls: seq<Call>) {
    calls != [] && forall i :: 0 <= i < |calls| - 1 ==> Makes(c, calls[i], calls[i + 1])
  }

  /** What the bound on a call asks for. */
  ghost predicate Ready(c: Ctx, call: Call) {
    Prepared(c, call.env) && exists depth: nat, scope: set<Text> :: Valid(call.expr, c.limits, depth, scope)
  }

  /** A call that is ready makes only calls that are, the bodies of traversals included. */
  lemma MadeIsReady(c: Ctx, caller: Call, callee: Call)
    requires Ready(c, caller) && Makes(c, caller, callee)
    ensures Ready(c, callee)
  {
    hide Sem, Within, Fits, ValidName, ArityOk, LazyArityOk, JsonSize, BodyScope;
    var depth: nat, scope: set<Text> :| Valid(caller.expr, c.limits, depth, scope);
    match caller.expr
    case Object(fields) =>
      var i :| 0 <= i < |fields| && fields[i].value == callee.expr;
      FieldValidAt(fields, i, c.limits, depth + 1, scope);
    case Array(elements) => OperandIsValid(elements, callee.expr, c.limits, depth + 1, scope);
    case Lazy(_, args) => OperandIsValid(args, callee.expr, c.limits, depth + 1, scope);
    case Apply(_, args) => OperandIsValid(args, callee.expr, c.limits, depth + 1, scope);
    case Each(_, collection, item, index, body) =>
      assert Valid(collection, c.limits, depth + 1, scope);
      assert Valid(body, c.limits, depth + 1, BodyScope(scope, item, index));
      if callee != Call(collection, caller.env) {
        BodyIsPrepared(c, caller.expr, caller.env, callee.env, depth, scope);
      }
    case Get(target, key, fallback) =>
      assert Valid(target, c.limits, depth + 1, scope) && Valid(key, c.limits, depth + 1, scope);
      assert fallback.Some? ==> Valid(fallback.value, c.limits, depth + 1, scope);
    case Sum(collection) => assert Valid(collection, c.limits, depth + 1, scope);
    case _ =>
  }

  lemma OperandIsValid(es: seq<Expr>, e: Expr, limits: Limits, depth: nat, scope: set<Text>)
    requires AllValid(es, limits, depth, scope) && e in es
    ensures Valid(e, limits, depth, scope)
  {
    var i :| 0 <= i < |es| && es[i] == e;
    AllValidAt(es, i, limits, depth, scope);
  }

  lemma {:induction false} FieldValidAt(fields: seq<Field<Expr>>, i: nat, limits: Limits, depth: nat, scope: set<Text>)
    requires FieldsValid(fields, limits, depth, scope) && i < |fields|
    ensures Valid(fields[i].value, limits, depth, scope)
  {
    hide Valid;
    if i > 0 {
      FieldValidAt(fields[1..], i - 1, limits, depth, scope);
    }
  }

  lemma BodyIsPrepared(c: Ctx, e: Expr, env: Env, inner: Env, depth: nat, scope: set<Text>)
    requires e.Each? && Valid(e, c.limits, depth, scope) && Prepared(c, env)
    requires BodyRuns(c, e.collection, e.item, e.index, env, inner)
    ensures Prepared(c, inner)
  {
    hide Sem, Within, Prepared, Nest;
    SemBounded(c, e.collection, env, depth + 1, scope);
    var items := Sem(c, e.collection, env).result.value.items;
    var i: nat :| i < |items| && inner == Nest(env, e.item, e.index, items[i], i);
    NestPrepared(c, e, items, i, env);
  }

  /**
   * Every call of a run is bounded: whatever is on the stack of calls that an
   * accepted expression starts in a bounded environment, its value is within the
   * byte and collection limits.
   */
  lemma {:induction false} CallsBounded(c: Ctx, calls: seq<Call>)
    requires CallStack(c, calls) && Ready(c, calls[0])
    ensures forall i :: 0 <= i < |calls| ==> Ready(c, calls[i]) && StepWithin(Sem(c, calls[i].expr, calls[i].env), c.limits)
    decreases |calls|
  {
    hide Sem, Ready, Makes, Within;
    ReadyIsBounded(c, calls[0]);
    if |calls| > 1 {
      assert Makes(c, calls[0], calls[1]);
      MadeIsReady(c, calls[0], calls[1]);
      var rest := calls[1..];
      assert forall i :: 0 <= i < |rest| - 1 ==> rest[i] == calls[i + 1] && Makes(c, calls[i + 1], calls[i + 2]);
      CallsBounded(c, rest);
      assert forall i :: 0 < i < |calls| ==> calls[i] == rest[i - 1];
    }
  }

  lemma ReadyIsBounded(c: Ctx, call: Call)
    requires Ready(c, call)
    ensures StepWithin(Sem(c, call.expr, call.env), c.limits)
  {
    hide Sem, Within, Valid, Prepared;
    var depth: nat, scope: set<Text> :| Valid(call.expr, c.limits, depth, scope);
    SemBounded(c, call.expr, call.env, depth, scope);
  }
}
