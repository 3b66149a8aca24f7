/**
 * What evaluating an expression yields under all resource limits except the
 * evaluation counter: the value or error, and how many evaluations happened up
 * to that point.  The counter itself only caps that number, so the evaluator's
 * outcome is a function of this step and of where the counter stood.
 */
module Semantics {
  import opened Texts
  import opened Json
  import opened Limits
  import opened Sizing
  import opened Ir
  import opened Operators

  type Env = map<Text, Json>

  /** What stays fixed during one run. */
  datatype Ctx = Ctx(limits: Limits, inputs: Json, strings: Strings)

  // ----- sorting -----

  /** `_sort_key`: null, then Booleans, then numbers, then strings. */
  datatype SortKey = SortKey(rank: int, number: int, text: Text)

  datatype Keyed = Keyed(sortKey: SortKey, item: Json)

  function SortKeyOf(v: Json): Result<SortKey> {
    match v
    case Null => Ok(SortKey(0, 0, []))
    case Bool(b) => Ok(SortKey(1, if b then 1 else 0, []))
    case Int(n) => Ok(SortKey(2, n, []))
    case Str(t) => Ok(SortKey(3, 0, t))
    case _ => Err(InvalidSortKey)
  }

  /** Tuple order on sort keys. */
  predicate KeyBelow(a: SortKey, b: SortKey) {
    a.rank < b.rank ||
    (a.rank == b.rank && (a.number < b.number || (a.number == b.number && Below(a.text, b.text))))
  }

  /** `a` may not stand after `b`. */
  predicate Before(a: Keyed, b: Keyed, descending: bool) {
    if descending then KeyBelow(b.sortKey, a.sortKey) else KeyBelow(a.sortKey, b.sortKey)
  }

  /** A stable insertion: in front of the first entry that must not stand before `k`. */
  function InsertKeyed(k: Keyed, ks: seq<Keyed>, descending: bool): (r: seq<Keyed>)
    ensures |r| == |ks| + 1
  {
    if ks == [] || !Before(ks[0], k, descending) then [k] + ks
    else [ks[0]] + InsertKeyed(k, ks[1..], descending)
  }

  /** `decorated.sort(key=..., reverse=descending)`. */
  function StableSort(ks: seq<Keyed>, descending: bool): (r: seq<Keyed>)
    ensures |r| == |ks|
  {
    if ks == [] then [] else InsertKeyed(ks[0], StableSort(ks[1..], descending), descending)
  }

  function ItemsOf(ks: seq<Keyed>): (r: seq<Json>)
    ensures |r| == |ks|
  {
    if ks == [] then [] else [ks[0].item] + ItemsOf(ks[1..])
  }

  // ----- byte totals of intermediate values -----

  /** `_intermediate_total` after one more byte for a comma. */
  function Comma(total: int, first: bool, limits: Limits): Result<int> {
    if first then Ok(total) else if total + 1 > limits.maxOutputBytes then Err(OutputLimit) else Ok(total + 1)
  }

  /** The total once a value has been sized against what is left. */
  function Charge(v: Json, total: int, limits: Limits): Result<int> {
    var size :- Sized(v, limits, limits.maxOutputBytes - total, OutputLimit, 1);
    if total + size > limits.maxOutputBytes then Err(OutputLimit) else Ok(total + size)
  }

  /** The total once a quoted key and its colon have been counted. */
  function ChargeKey(key: Text, total: int, limits: Limits): Result<int> {
    var size :- ContentBytes(key);
    if total + size + 3 > limits.maxOutputBytes then Err(OutputLimit) else Ok(total + size + 3)
  }

  // ----- lookups -----

  function InputOf(inputs: Json, name: Option<Text>): Result<Json> {
    if name.None? then Ok(inputs)
    else if !inputs.Obj? then Err(TypeMismatch)
    else
      match Lookup(inputs.fields, name.value)
      case None => Err(MissingInput)
      case Some(v) => Ok(v)
  }

  /** The `get` lookup: a field, an item or a code point, counting from either end. */
  function GetOf(target: Json, key: Json): Result<Option<Json>> {
    match target
    case Obj(fields) => if key.Str? then Ok(Lookup(fields, key.text)) else Err(TypeMismatch)
    case Arr(items) => if key.Int? then Ok(IndexOf(items, key.number)) else Err(TypeMismatch)
    case Str(t) =>
      if !key.Int? then Err(TypeMismatch)
      else
        (match IndexOf(t, key.number)
         case None => Ok(None)
         case Some(c) => Ok(Some(Str([c]))))
    case _ => Err(TypeMismatch)
  }

  function IndexOf<T>(s: seq<T>, i: int): Option<T> {
    if 0 <= i < |s| then Some(s[i]) else if -|s| <= i < 0 then Some(s[|s| + i]) else None
  }

  function Nest(env: Env, item: Text, index: Option<Text>, v: Json, i: nat): Env {
    var inner := env[item := v];
    if index.None? then inner else inner[index.value := Int(i)]
  }

  // ----- combining steps -----

  function Pass<T>(r: Result<T>): Step<T> {
    Step(r, 0)
  }

  function Prefix<T>(head: T, ticks: nat, rest: Step<seq<T>>): Step<seq<T>> {
    Step(if rest.result.Ok? then Ok([head] + rest.result.value) else rest.result, ticks + rest.ticks)
  }

  function After<T>(ticks: nat, s: Step<T>): Step<T> {
    Step(s.result, ticks + s.ticks)
  }

  function SortItems(ks: seq<Keyed>, descending: bool, limits: Limits): Result<Json> {
    var items := ItemsOf(StableSort(ks, descending));
    if |items| > limits.maxItems then Err(CollectionLimit) else Ok(Arr(items))
  }

  /** The running sum of an array of numbers. */
  function SumFrom(items: seq<Json>, total: int, limits: Limits): Result<int>
    decreases |items|
  {
    if items == [] then Ok(total)
    else
      var n :- AsInt(items[0]);
      var next :- NumberResult(total + n, limits);
      SumFrom(items[1..], next, limits)
  }

  // ----- evaluation -----

  /** `_eval`, apart from the counter. */
  function Sem(c: Ctx, e: Expr, env: Env): Step<Json>
    decreases e, 2
  {
    After(1, Eval(c, e, env))
  }

  /** The evaluation of one operation, after it has been counted. */
  function Eval(c: Ctx, e: Expr, env: Env): Step<Json>
    decreases e, 1
  {
    match e
    case Literal(v) => Pass(Ok(v))
    case Input(name) => Pass(InputOf(c.inputs, name))
    case Var(name) => Pass(if name in env then Ok(env[name]) else Err(UnboundVariable))
    case Object(fields) =>
      var s := EvalFields(c, fields, env, 2, true);
      if s.result.Err? then Fail(s.result.code, s.ticks) else Step(Ok(Obj(s.result.value)), s.ticks)
    case Array(elements) =>
      var s := EvalItems(c, elements, env, 2, true);
      if s.result.Err? then Fail(s.result.code, s.ticks) else Step(Ok(Arr(s.result.value)), s.ticks)
    case Get(_, _, _) => EvalGet(c, e, env)
    case Lazy(op, args) =>
      (match op
       case And => EvalAnd(c, args, env)
       case Or => EvalOr(c, args, env)
       case If => EvalIf(c, args, env)
       case Coalesce => EvalCoalesce(c, args, env))
    case Each(kind, collection, item, index, body) =>
      var s := Sem(c, collection, env);
      if s.result.Err? then s
      else
        var items := AsArray(s.result.value, c.limits);
        if items.Err? then Fail(items.code, s.ticks)
        else After(s.ticks, EvalEach(c, kind, item, index, body, items.value, env))
    case Sum(collection) =>
      var s := Sem(c, collection, env);
      if s.result.Err? then s
      else
        var items := AsArray(s.result.value, c.limits);
        if items.Err? then Fail(items.code, s.ticks)
        else
          var total := SumFrom(items.value, 0, c.limits);
          Step(if total.Err? then Err(total.code) else Ok(Int(total.value)), s.ticks)
    case Apply(op, args) =>
      var s := EvalItems(c, args, env, 2, true);
      if s.result.Err? then Fail(s.result.code, s.ticks)
      else Step(ApplyOp(op, s.result.value, c.strings, c.limits), s.ticks)
  }

  /** Array elements or eager arguments, left to right, under one running byte total. */
  function EvalItems(c: Ctx, es: seq<Expr>, env: Env, total: int, first: bool): Step<seq<Json>>
    decreases es, 0
  {
    if es == [] then Pass(Ok([]))
    else
      var t := Comma(total, first, c.limits);
      if t.Err? then Fail(t.code, 0)
      else
        var s := Sem(c, es[0], env);
        if s.result.Err? then Fail(s.result.code, s.ticks)
        else
          var u := Charge(s.result.value, t.value, c.limits);
          if u.Err? then Fail(u.code, s.ticks)
          else Prefix(s.result.value, s.ticks, EvalItems(c, es[1..], env, u.value, false))
  }

  function EvalFields(c: Ctx, fields: seq<Field<Expr>>, env: Env, total: int, first: bool): Step<seq<Field<Json>>>
    decreases fields, 0
  {
    if fields == [] then Pass(Ok([]))
    else
      var t := FieldHead(fields[0].key, total, first, c.limits);
      if t.Err? then Fail(t.code, 0)
      else
        var s := Sem(c, fields[0].value, env);
        if s.result.Err? then Fail(s.result.code, s.ticks)
        else
          var u := Charge(s.result.value, t.value, c.limits);
          if u.Err? then Fail(u.code, s.ticks)
          else Prefix(Field(fields[0].key, s.result.value), s.ticks, EvalFields(c, fields[1..], env, u.value, false))
  }

  /** The comma and the key in front of a field's value. */
  function FieldHead(key: Text, total: int, first: bool, limits: Limits): Result<int> {
    var t :- Comma(total, first, limits);
    ChargeKey(key, t, limits)
  }

  function EvalGet(c: Ctx, e: Expr, env: Env): Step<Json>
    requires e.Get?
    decreases e, 0
  {
    var t := Sem(c, e.target, env);
    if t.result.Err? then t
    else
      var k := Sem(c, e.key, env);
      if k.result.Err? then After(t.ticks, k)
      else
        var found := GetOf(t.result.value, k.result.value);
        if found.Err? then Fail(found.code, t.ticks + k.ticks)
        else if found.value.Some? then Step(Ok(found.value.value), t.ticks + k.ticks)
        else if e.fallback.Some? then After(t.ticks + k.ticks, Sem(c, e.fallback.value, env))
        else Fail(MissingKey, t.ticks + k.ticks)
  }

  function EvalAnd(c: Ctx, args: seq<Expr>, env: Env): Step<Json>
    decreases args, 0
  {
    if args == [] then Pass(Ok(Bool(true)))
    else
      var s := Sem(c, args[0], env);
      if s.result.Err? then s
      else if !s.result.value.Bool? then Fail(TypeMismatch, s.ticks)
      else if !s.result.value.flag then Step(Ok(Bool(false)), s.ticks)
      else After(s.ticks, EvalAnd(c, args[1..], env))
  }

  function EvalOr(c: Ctx, args: seq<Expr>, env: Env): Step<Json>
    decreases args, 0
  {
    if args == [] then Pass(Ok(Bool(false)))
    else
      var s := Sem(c, args[0], env);
      if s.result.Err? then s
      else if !s.result.value.Bool? then Fail(TypeMismatch, s.ticks)
      else if s.result.value.flag then Step(Ok(Bool(true)), s.ticks)
      else After(s.ticks, EvalOr(c, args[1..], env))
  }

  function EvalIf(c: Ctx, args: seq<Expr>, env: Env): Step<Json>
    decreases args, 0
  {
    if args == [] then Fail(Crash, 0)
    else
      var s := Sem(c, args[0], env);
      if s.result.Err? then s
      else if !s.result.value.Bool? then Fail(TypeMismatch, s.ticks)
      else
        var branch := if s.result.value.flag then 1 else 2;
        if branch < |args| then After(s.ticks, Sem(c, args[branch], env)) else Fail(Crash, s.ticks)
  }

  function EvalCoalesce(c: Ctx, args: seq<Expr>, env: Env): Step<Json>
    decreases args, 0
  {
    if args == [] then Pass(Ok(Null))
    else
      var s := Sem(c, args[0], env);
      if s.result.Err? || !s.result.value.Null? then s
      else After(s.ticks, EvalCoalesce(c, args[1..], env))
  }

  function EvalEach(c: Ctx, kind: EachOp, item: Text, index: Option<Text>, body: Expr, items: seq<Json>, env: Env)
    : Step<Json>
    decreases body, |items| + 4
  {
    match kind
    case Map =>
      var s := EvalMap(c, item, index, body, items, 0, env, 2);
      if s.result.Err? then Fail(s.result.code, s.ticks) else Step(Ok(Arr(s.result.value)), s.ticks)
    case Filter =>
      var s := EvalFilter(c, item, index, body, items, 0, env);
      if s.result.Err? then Fail(s.result.code, s.ticks)
      else if |s.result.value| > c.limits.maxItems then Fail(CollectionLimit, s.ticks)
      else Step(Ok(Arr(s.result.value)), s.ticks)
    case Sort(descending) =>
      var s := EvalKeys(c, item, index, body, items, 0, env, 2);
      if s.result.Err? then Fail(s.result.code, s.ticks)
      else Step(SortItems(s.result.value, descending, c.limits), s.ticks)
  }

  /** `map` from item number `i` on. */
  function EvalMap(c: Ctx, item: Text, index: Option<Text>, body: Expr, items: seq<Json>, i: nat, env: Env, total: int)
    : Step<seq<Json>>
    decreases body, |items| + 3
  {
    if items == [] then Pass(Ok([]))
    else
      var t := Comma(total, i == 0, c.limits);
      if t.Err? then Fail(t.code, 0)
      else
        var s := Sem(c, body, Nest(env, item, index, items[0], i));
        if s.result.Err? then Fail(s.result.code, s.ticks)
        else
          var u := Charge(s.result.value, t.value, c.limits);
          if u.Err? then Fail(u.code, s.ticks)
          else Prefix(s.result.value, s.ticks, EvalMap(c, item, index, body, items[1..], i + 1, env, u.value))
  }

  function EvalFilter(c: Ctx, item: Text, index: Option<Text>, body: Expr, items: seq<Json>, i: nat, env: Env)
    : Step<seq<Json>>
    decreases body, |items| + 3
  {
    if items == [] then Pass(Ok([]))
    else
      var s := Sem(c, body, Nest(env, item, index, items[0], i));
      if s.result.Err? then Fail(s.result.code, s.ticks)
      else if !s.result.value.Bool? then Fail(TypeMismatch, s.ticks)
      else
        var rest := EvalFilter(c, item, index, body, items[1..], i + 1, env);
        if s.result.value.flag then Prefix(items[0], s.ticks, rest) else After(s.ticks, rest)
  }

  function EvalKeys(c: Ctx, item: Text, index: Option<Text>, body: Expr, items: seq<Json>, i: nat, env: Env, total: int)
    : Step<seq<Keyed>>
    decreases body, |items| + 3
  {
    if items == [] then Pass(Ok([]))
    else
      var t := Comma(total, i == 0, c.limits);
      if t.Err? then Fail(t.code, 0)
      else
        var s := Sem(c, body, Nest(env, item, index, items[0], i));
        if s.result.Err? then Fail(s.result.code, s.ticks)
        else
          var u := Charge(s.result.value, t.value, c.limits);
          if u.Err? then Fail(u.code, s.ticks)
          else
            var k := SortKeyOf(s.result.value);
            if k.Err? then Fail(k.code, s.ticks)
            else Prefix(Keyed(k.value, items[0]), s.ticks, EvalKeys(c, item, index, body, items[1..], i + 1, env, u.value))
  }

  // ----- what sorting means -----

  predicate SortedKeys(ks: seq<Keyed>, descending: bool) {
    forall i, j :: 0 <= i < j < |ks| ==> !Before(ks[j], ks[i], descending)
  }

  /** The entries with one given key, in order. */
  function WithKey(ks: seq<Keyed>, key: SortKey): seq<Keyed> {
    if ks == [] then []
    else (if ks[0].sortKey == key then [ks[0]] else []) + WithKey(ks[1..], key)
  }

  lemma KeyOrder(a: SortKey, b: SortKey, c: SortKey)
    ensures KeyBelow(a, b) ==> a != b && !KeyBelow(b, a)
    ensures !KeyBelow(a, b) && !KeyBelow(b, a) ==> a == b
    ensures KeyBelow(a, b) && KeyBelow(b, c) ==> KeyBelow(a, c)
  {
    BelowTrichotomy(a.text, b.text);
    if Below(a.text, b.text) && Below(b.text, c.text) {
      BelowTransitive(a.text, b.text, c.text);
    }
  }

  lemma {:induction false} InsertKeyedSorts(k: Keyed, ks: seq<Keyed>, descending: bool)
    requires SortedKeys(ks, descending)
    ensures SortedKeys(InsertKeyed(k, ks, descending), descending)
    ensures multiset(InsertKeyed(k, ks, descending)) == multiset(ks) + multiset{k}
  {
    if ks == [] {
    } else if !Before(ks[0], k, descending) {
      forall j | 0 <= j < |ks| ensures !Before(ks[j], k, descending) {
        KeyOrder(ks[j].sortKey, ks[0].sortKey, k.sortKey);
        KeyOrder(k.sortKey, ks[j].sortKey, ks[0].sortKey);
        KeyOrder(ks[0].sortKey, k.sortKey, ks[j].sortKey);
        KeyOrder(ks[j].sortKey, k.sortKey, ks[0].sortKey);
        KeyOrder(k.sortKey, ks[0].sortKey, ks[j].sortKey);
        KeyOrder(ks[0].sortKey, ks[j].sortKey, k.sortKey);
      }
      assert ks == [ks[0]] + ks[1..];
    } else {
      var rest := InsertKeyed(k, ks[1..], descending);
      InsertKeyedSorts(k, ks[1..], descending);
      assert ks == [ks[0]] + ks[1..];
      KeyOrder(ks[0].sortKey, k.sortKey, ks[0].sortKey);
      forall j | 0 <= j < |rest| ensures !Before(rest[j], ks[0], descending) {
        assert rest[j] in multiset(rest);
        assert rest[j] in ks[1..] || rest[j] == k;
      }
    }
  }

  lemma {:induction false} InsertKeyedKeepsOrder(k: Keyed, ks: seq<Keyed>, descending: bool, key: SortKey)
    ensures WithKey(InsertKeyed(k, ks, descending), key) == WithKey([k] + ks, key)
  {
    if ks != [] && Before(ks[0], k, descending) {
      var rest := InsertKeyed(k, ks[1..], descending);
      InsertKeyedKeepsOrder(k, ks[1..], descending, key);
      KeyOrder(ks[0].sortKey, k.sortKey, key);
      KeyOrder(k.sortKey, ks[0].sortKey, key);
      assert ([ks[0]] + rest)[1..] == rest;
      assert ([k] + ks[1..])[1..] == ks[1..];
      assert ([k] + ks)[1..] == ks;
    }
  }

  /**
   * The sort is a sort, a permutation, and stable: entries with equal keys keep
   * their order, also when it runs in descending order.
   */
  lemma {:induction false} StableSortIsStable(ks: seq<Keyed>, descending: bool, key: SortKey)
    ensures SortedKeys(StableSort(ks, descending), descending)
    ensures multiset(StableSort(ks, descending)) == multiset(ks)
    ensures WithKey(StableSort(ks, descending), key) == WithKey(ks, key)
  {
    if ks != [] {
      var rest := StableSort(ks[1..], descending);
      StableSortIsStable(ks[1..], descending, key);
      InsertKeyedSorts(ks[0], rest, descending);
      InsertKeyedKeepsOrder(ks[0], rest, descending, key);
      assert ks == [ks[0]] + ks[1..];
      assert ([ks[0]] + rest)[1..] == rest;
    }
  }
}
