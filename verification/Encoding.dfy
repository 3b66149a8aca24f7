/**
 * Every expression has a JSON form, and decoding that form gives the expression
 * back: the operations, their keys and their optional parts are told apart.
 */
module Encoding {
  import opened Texts
  import opened Json
  import opened Ir
  import opened Programs

  // ----- names -----

  /** Length, first, second and last code point: enough to tell all names of the language apart. */
  datatype Shape = Short | Shape(length: nat, first: int, second: int, last: int)

  function ShapeOf(t: Text): Shape {
    if |t| < 2 then Short else Shape(|t|, t[0], t[1], t[|t| - 1])
  }

  function Spelled(length: nat, first: char, second: char, last: char): Shape {
    Shape(length, first as int, second as int, last as int)
  }

  function OpShape(op: Op): Shape {
    match op
    case Add => Spelled(3, 'a', 'd', 'd')
    case Sub => Spelled(3, 's', 'u', 'b')
    case Mul => Spelled(3, 'm', 'u', 'l')
    case Div => Spelled(3, 'd', 'i', 'v')
    case Mod => Spelled(3, 'm', 'o', 'd')
    case Pow => Spelled(3, 'p', 'o', 'w')
    case Round => Spelled(5, 'r', 'o', 'd')
    case Min => Spelled(3, 'm', 'i', 'n')
    case Max => Spelled(3, 'm', 'a', 'x')
    case Abs => Spelled(3, 'a', 'b', 's')
    case Concat => Spelled(6, 'c', 'o', 't')
    case Lower => Spelled(5, 'l', 'o', 'r')
    case Upper => Spelled(5, 'u', 'p', 'r')
    case Strip => Spelled(5, 's', 't', 'p')
    case Replace => Spelled(7, 'r', 'e', 'e')
    case Split => Spelled(5, 's', 'p', 't')
    case Join => Spelled(4, 'j', 'o', 'n')
    case Length => Spelled(6, 'l', 'e', 'h')
    case Slice => Spelled(5, 's', 'l', 'e')
    case Eq => Spelled(2, 'e', 'q', 'q')
    case Ne => Spelled(2, 'n', 'e', 'e')
    case Lt => Spelled(2, 'l', 't', 't')
    case Lte => Spelled(3, 'l', 't', 'e')
    case Gt => Spelled(2, 'g', 't', 't')
    case Gte => Spelled(3, 'g', 't', 'e')
    case Not => Spelled(3, 'n', 'o', 't')
  }

  lemma OpHasShape(op: Op)
    ensures ShapeOf(OpText(op)) == OpShape(op)
  {
  }

  lemma ShapesDiffer(a: Op, b: Op)
    requires OpShape(a) == OpShape(b)
    ensures a == b
  {
    var shape := OpShape(a);
    if shape.length == 3 {
      ShortNamesDiffer(a, b);
    }
  }

  lemma ShortNamesDiffer(a: Op, b: Op)
    requires OpShape(a) == OpShape(b) && OpShape(a).length == 3
    ensures a == b
  {
  }

  lemma OpIsListed(op: Op)
    ensures op in OPERATORS
  {
  }

  lemma {:induction false} OpAmongFinds(ops: seq<Op>, op: Op)
    requires op in ops
    ensures OpAmong(ops, OpText(op)) == Some(op)
  {
    hide OpText, OpShape, ShapeOf;
    if OpText(ops[0]) == OpText(op) {
      OpHasShape(ops[0]);
      OpHasShape(op);
      ShapesDiffer(ops[0], op);
    } else {
      assert ops == [ops[0]] + ops[1..];
      OpAmongFinds(ops[1..], op);
    }
  }

  /** Each eager operator is read back from its name. */
  lemma OpReadBack(op: Op)
    ensures OpNamed(OpText(op)) == Some(op)
  {
    hide OpText;
    OpIsListed(op);
    OpAmongFinds(OPERATORS, op);
  }

  /** The names of the other operations. */
  lemma OtherShapes()
    ensures ShapeOf(Ascii("and")) == Spelled(3, 'a', 'n', 'd') && ShapeOf(Ascii("or")) == Spelled(2, 'o', 'r', 'r') && ShapeOf(Ascii("if")) == Spelled(2, 'i', 'f', 'f')
    ensures ShapeOf(Ascii("coalesce")) == Spelled(8, 'c', 'o', 'e') && ShapeOf(Ascii("map")) == Spelled(3, 'm', 'a', 'p') && ShapeOf(Ascii("filter")) == Spelled(6, 'f', 'i', 'r')
    ensures ShapeOf(Ascii("sort")) == Spelled(4, 's', 'o', 't') && ShapeOf(Ascii("literal")) == Spelled(7, 'l', 'i', 'l') && ShapeOf(Ascii("input")) == Spelled(5, 'i', 'n', 't')
    ensures ShapeOf(Ascii("var")) == Spelled(3, 'v', 'a', 'r') && ShapeOf(Ascii("object")) == Spelled(6, 'o', 'b', 't') && ShapeOf(Ascii("array")) == Spelled(5, 'a', 'r', 'y')
    ensures ShapeOf(Ascii("get")) == Spelled(3, 'g', 'e', 't') && ShapeOf(Ascii("sum")) == Spelled(3, 's', 'u', 'm')
  {
  }

  lemma KeyShapes()
    ensures ShapeOf(OP) == Spelled(2, 'o', 'p', 'p') && ShapeOf(VALUE) == Spelled(5, 'v', 'a', 'e') && ShapeOf(NAME) == Spelled(4, 'n', 'a', 'e')
    ensures ShapeOf(FIELDS) == Spelled(6, 'f', 'i', 's') && ShapeOf(ELEMENTS) == Spelled(5, 'i', 't', 's') && ShapeOf(TARGET) == Spelled(6, 't', 'a', 't')
    ensures ShapeOf(KEY) == Spelled(3, 'k', 'e', 'y') && ShapeOf(FALLBACK) == Spelled(7, 'd', 'e', 't') && ShapeOf(ARGS) == Spelled(4, 'a', 'r', 's')
    ensures ShapeOf(COLLECTION) == Spelled(10, 'c', 'o', 'n') && ShapeOf(VARIABLE) == Spelled(3, 'v', 'a', 'r') && ShapeOf(INDEX) == Spelled(5, 'i', 'n', 'x')
    ensures ShapeOf(BODY) == Spelled(4, 'b', 'o', 'y') && ShapeOf(DESCENDING) == Spelled(10, 'd', 'e', 'g')
  {
  }

  lemma {:induction false} OpAmongRefuses(ops: seq<Op>, name: Text)
    requires forall op :: OpShape(op) != ShapeOf(name)
    ensures OpAmong(ops, name).None?
  {
    hide OpText, OpShape, ShapeOf;
    if ops != [] {
      OpHasShape(ops[0]);
      OpAmongRefuses(ops[1..], name);
    }
  }

  function LazyText(op: LazyOp): Text {
    match op
    case And => Ascii("and")
    case Or => Ascii("or")
    case If => Ascii("if")
    case Coalesce => Ascii("coalesce")
  }

  function EachText(op: EachOp): Text {
    match op
    case Map => Ascii("map")
    case Filter => Ascii("filter")
    case Sort(_) => Ascii("sort")
  }

  /** The names that are decoded each in their own way. */
  predicate Special(name: Text) {
    || name == Ascii("literal") || name == Ascii("input") || name == Ascii("var") || name == Ascii("object")
    || name == Ascii("array") || name == Ascii("get") || name == Ascii("sum") || EachOpNamed(name, false).Some?
  }

  lemma SpecialIsNotEager(name: Text)
    requires Special(name)
    ensures forall op :: OpShape(op) != ShapeOf(name)
  {
    hide Ascii, ShapeOf;
    OtherShapes();
  }

  lemma EagerIsOrdinary(op: Op)
    ensures !Special(OpText(op))
  {
    hide OpText, ShapeOf, OpShape, Special;
    OpHasShape(op);
    if Special(OpText(op)) {
      SpecialIsNotEager(OpText(op));
    }
  }

  lemma LazyReadBack(op: LazyOp)
    ensures !Special(LazyText(op)) && OpNamed(LazyText(op)).None? && LazyOpNamed(LazyText(op)) == Some(op)
  {
    hide Ascii, ShapeOf, OpAmong;
    OtherShapes();
    OpAmongRefuses(OPERATORS, LazyText(op));
  }

  lemma EachReadBack(op: EachOp, descending: bool)
    ensures EachOpNamed(EachText(op), descending) == Some(if op.Sort? then Sort(descending) else op)
    ensures EachText(op) !in {Ascii("literal"), Ascii("input"), Ascii("var"), Ascii("object"), Ascii("array"), Ascii("get"), Ascii("sum")}
    ensures EachText(op) == Ascii("sort") <==> op.Sort?
  {
    hide Ascii, ShapeOf;
    OtherShapes();
  }

  // ----- the JSON form of an expression -----

  function Parts(name: Text, parts: seq<Field<Json>>): seq<Field<Json>> {
    [Field(OP, Str(name))] + parts
  }

  function Node(name: Text, parts: seq<Field<Json>>): Json {
    Obj(Parts(name, parts))
  }

  /** A key that is present only with a value. */
  function Optional(key: Text, value: Option<Json>): seq<Field<Json>> {
    if value.Some? then [Field(key, value.value)] else []
  }

  function TextOf(t: Option<Text>): Option<Json> {
    if t.Some? then Some(Str(t.value)) else None
  }

  function GetParts(t: Json, k: Json, fallback: Option<Json>): seq<Field<Json>> {
    [Field(TARGET, t), Field(KEY, k)] + Optional(FALLBACK, fallback)
  }

  function EachParts(c: Json, item: Text, b: Json, index: Option<Text>, descending: Option<Json>): seq<Field<Json>> {
    [Field(COLLECTION, c), Field(VARIABLE, Str(item)), Field(BODY, b)] + Optional(INDEX, TextOf(index)) + Optional(DESCENDING, descending)
  }

  function Encode(e: Expr): Json
    decreases e, 1
  {
    match e
    case Literal(v) => Node(Ascii("literal"), [Field(VALUE, v)])
    case Input(name) => Node(Ascii("input"), Optional(NAME, TextOf(name)))
    case Var(name) => Node(Ascii("var"), [Field(NAME, Str(name))])
    case Object(fields) => Node(Ascii("object"), [Field(FIELDS, Obj(EncodeFields(fields)))])
    case Array(elements) => Node(Ascii("array"), [Field(ELEMENTS, Arr(EncodeAll(elements)))])
    case Get(target, key, fallback) =>
      Node(Ascii("get"), GetParts(Encode(target), Encode(key), if fallback.Some? then Some(Encode(fallback.value)) else None))
    case Lazy(op, args) => Node(LazyText(op), [Field(ARGS, Arr(EncodeAll(args)))])
    case Each(op, collection, item, index, body) =>
      Node(EachText(op), EachParts(Encode(collection), item, Encode(body), index, if op.Sort? then Some(Bool(op.descending)) else None))
    case Sum(collection) => Node(Ascii("sum"), [Field(COLLECTION, Encode(collection))])
    case Apply(op, args) => Node(OpText(op), [Field(ARGS, Arr(EncodeAll(args)))])
  }

  function EncodeAll(es: seq<Expr>): seq<Json>
    decreases es, 0
  {
    if es == [] then [] else [Encode(es[0])] + EncodeAll(es[1..])
  }

  function EncodeFields(fields: seq<Field<Expr>>): seq<Field<Json>>
    decreases fields, 0
  {
    if fields == [] then [] else [Field(fields[0].key, Encode(fields[0].value))] + EncodeFields(fields[1..])
  }

  // ----- decoding gives the expression back -----

  /** A node's keys hold what was put there, and it has no others. */
  lemma PartsHold(name: Text, parts: seq<Field<Json>>)
    requires UniqueKeys(Parts(name, parts))
    ensures OpName(Node(name, parts)) == Some(name)
    ensures forall i :: 0 <= i < |parts| ==> Lookup(Parts(name, parts), parts[i].key) == Some(parts[i].value)
    ensures forall k :: k != OP && (forall i :: 0 <= i < |parts| ==> parts[i].key != k) ==> Lookup(Parts(name, parts), k).None?
  {
    hide Lookup;
    var fields := Parts(name, parts);
    LookupAt(fields, 0);
    forall i | 0 <= i < |parts| ensures Lookup(fields, parts[i].key) == Some(parts[i].value) {
      LookupAt(fields, i + 1);
    }
    forall k | k != OP && (forall i :: 0 <= i < |parts| ==> parts[i].key != k) ensures Lookup(fields, k).None? {
      LookupFindsKey(fields, k);
    }
  }

  lemma OnePart(name: Text, key: Text, value: Json)
    requires key != OP
    ensures var j := Node(name, [Field(key, value)]);
            && OpName(j) == Some(name) && Lookup(j.fields, key) == Some(value) && Lookup(j.fields, OP) == Some(Str(name))
            && KeysAre(j.fields, {OP, key}, {}) && KeysAre(j.fields, {OP}, {key})
  {
    hide Lookup;
    var parts := [Field(key, value)];
    PartsHold(name, parts);
    assert parts[0].key == key;
    LookupAt(Parts(name, parts), 0);
  }

  lemma ScalarsDecodeBack(e: Expr)
    requires e.Literal? || e.Input? || e.Var?
    ensures DecodeExpr(Encode(e)) == Some(e)
  {
    hide Ascii, ShapeOf, Lookup;
    OtherShapes();
    KeyShapes();
    match e
    case Literal(v) => OnePart(Ascii("literal"), VALUE, v);
    case Var(name) => OnePart(Ascii("var"), NAME, Str(name));
    case Input(name) =>
      if name.Some? {
        OnePart(Ascii("input"), NAME, Str(name.value));
      } else {
        PartsHold(Ascii("input"), []);
      }
  }

  lemma CollectionsDecodeBack(e: Expr)
    requires e.Object? || e.Array? || e.Sum?
    requires e.Object? ==> DecodeFields(EncodeFields(e.fields)) == Some(e.fields)
    requires e.Array? ==> DecodeAll(EncodeAll(e.elements)) == Some(e.elements)
    requires e.Sum? ==> DecodeExpr(Encode(e.collection)) == Some(e.collection)
    ensures DecodeExpr(Encode(e)) == Some(e)
  {
    hide Ascii, ShapeOf, Lookup, DecodeFields, DecodeAll;
    OtherShapes();
    KeyShapes();
    match e
    case Object(fields) => OnePart(Ascii("object"), FIELDS, Obj(EncodeFields(fields)));
    case Array(elements) => OnePart(Ascii("array"), ELEMENTS, Arr(EncodeAll(elements)));
    case Sum(collection) => OnePart(Ascii("sum"), COLLECTION, Encode(collection));
  }

  lemma GetKeys(t: Json, k: Json, fallback: Option<Json>)
    ensures var j := Node(Ascii("get"), GetParts(t, k, fallback));
            && OpName(j) == Some(Ascii("get"))
            && Lookup(j.fields, TARGET) == Some(t) && Lookup(j.fields, KEY) == Some(k) && Lookup(j.fields, FALLBACK) == fallback
            && KeysAre(j.fields, {OP, TARGET, KEY}, {FALLBACK})
  {
    hide Ascii, ShapeOf, Lookup;
    KeyShapes();
    var parts := GetParts(t, k, fallback);
    PartsHold(Ascii("get"), parts);
    LookupAt(Parts(Ascii("get"), parts), 0);
    assert parts[0].key == TARGET && parts[1].key == KEY;
    assert fallback.Some? ==> parts[2] == Field(FALLBACK, fallback.value);
  }

  lemma GetDecodesBack(e: Expr)
    requires e.Get?
    requires DecodeExpr(Encode(e.target)) == Some(e.target) && DecodeExpr(Encode(e.key)) == Some(e.key)
    requires e.fallback.Some? ==> DecodeExpr(Encode(e.fallback.value)) == e.fallback
    ensures DecodeExpr(Encode(e)) == Some(e)
  {
    hide Ascii, ShapeOf, Lookup, KeysAre, GetParts, OpName, Parts;
    OtherShapes();
    GetKeys(Encode(e.target), Encode(e.key), if e.fallback.Some? then Some(Encode(e.fallback.value)) else None);
  }

  lemma OperatorsDecodeBack(e: Expr)
    requires e.Apply? || e.Lazy?
    requires DecodeAll(EncodeAll(e.args)) == Some(e.args)
    ensures DecodeExpr(Encode(e)) == Some(e)
  {
    hide Ascii, ShapeOf, Lookup, DecodeAll, OpText, LazyText, OpNamed, LazyOpNamed, EachOpNamed;
    KeyShapes();
    var name := if e.Apply? then OpText(e.op) else LazyText(e.lazyOp);
    OnePart(name, ARGS, Arr(EncodeAll(e.args)));
    if e.Apply? {
      OpReadBack(e.op);
      EagerIsOrdinary(e.op);
    } else {
      LazyReadBack(e.lazyOp);
    }
  }

  lemma EachKeys(name: Text, c: Json, item: Text, b: Json, index: Option<Text>, descending: Option<Json>)
    ensures var j := Node(name, EachParts(c, item, b, index, descending));
            && OpName(j) == Some(name)
            && Lookup(j.fields, COLLECTION) == Some(c) && Lookup(j.fields, VARIABLE) == Some(Str(item)) && Lookup(j.fields, BODY) == Some(b)
            && Lookup(j.fields, INDEX) == TextOf(index) && Lookup(j.fields, DESCENDING) == descending
            && KeysAre(j.fields, {OP, COLLECTION, VARIABLE, BODY}, if descending.Some? then {INDEX, DESCENDING} else {INDEX})
  {
    hide Ascii, ShapeOf, Lookup;
    KeyShapes();
    var parts := EachParts(c, item, b, index, descending);
    PartsHold(name, parts);
    LookupAt(Parts(name, parts), 0);
    assert parts[0].key == COLLECTION && parts[1].key == VARIABLE && parts[2].key == BODY;
    assert index.Some? ==> parts[3] == Field(INDEX, Str(index.value));
    assert descending.Some? ==> parts[|parts| - 1] == Field(DESCENDING, descending.value);
  }

  lemma EachDecodesBack(e: Expr)
    requires e.Each?
    requires DecodeExpr(Encode(e.collection)) == Some(e.collection) && DecodeExpr(Encode(e.body)) == Some(e.body)
    ensures DecodeExpr(Encode(e)) == Some(e)
  {
    hide Ascii, ShapeOf, Lookup, EachText, EachOpNamed, KeysAre, EachParts, OpName, Parts;
    EachReadBack(e.each, false);
    EachReadBack(e.each, true);
    var descending := if e.each.Sort? then Some(Bool(e.each.descending)) else None;
    var c, b := Encode(e.collection), Encode(e.body);
    EachKeys(EachText(e.each), c, e.item, b, e.index, descending);
    EachForm(e);
    EachIsDecoded(Encode(e), EachText(e.each));
  }

  lemma EachForm(e: Expr)
    requires e.Each?
    ensures Encode(e) == Node(EachText(e.each), EachParts(Encode(e.collection), e.item, Encode(e.body), e.index,
                                                         if e.each.Sort? then Some(Bool(e.each.descending)) else None))
  {
  }

  lemma EachIsDecoded(j: Json, name: Text)
    requires j.Obj? && OpName(j) == Some(name) && EachOpNamed(name, false).Some?
    requires name !in {Ascii("literal"), Ascii("input"), Ascii("var"), Ascii("object"), Ascii("array"), Ascii("get"), Ascii("sum")}
    ensures DecodeExpr(j) == DecodeEach(j, name)
  {
    hide Ascii;
  }

  /** Every expression can be written down, and is read back as itself. */
  lemma {:induction false} DecodesBack(e: Expr)
    ensures DecodeExpr(Encode(e)) == Some(e)
    decreases e, 1
  {
    hide DecodeExpr, Encode, DecodeAll, DecodeFields, EncodeAll, EncodeFields;
    match e
    case Object(fields) =>
      FieldsDecodeBack(fields);
      CollectionsDecodeBack(e);
    case Array(elements) =>
      AllDecodeBack(elements);
      CollectionsDecodeBack(e);
    case Sum(collection) =>
      DecodesBack(collection);
      CollectionsDecodeBack(e);
    case Get(target, key, fallback) =>
      DecodesBack(target);
      DecodesBack(key);
      if fallback.Some? {
        DecodesBack(fallback.value);
      }
      GetDecodesBack(e);
    case Lazy(_, args) =>
      AllDecodeBack(args);
      OperatorsDecodeBack(e);
    case Apply(_, args) =>
      AllDecodeBack(args);
      OperatorsDecodeBack(e);
    case Each(_, collection, _, _, body) =>
      DecodesBack(collection);
      DecodesBack(body);
      EachDecodesBack(e);
    case _ => ScalarsDecodeBack(e);
  }

  lemma {:induction false} AllDecodeBack(es: seq<Expr>)
    ensures DecodeAll(EncodeAll(es)) == Some(es)
    decreases es, 0
  {
    hide DecodeExpr, Encode;
    if es != [] {
      DecodesBack(es[0]);
      AllDecodeBack(es[1..]);
      assert EncodeAll(es)[1..] == EncodeAll(es[1..]) && [es[0]] + es[1..] == es;
    }
  }

  lemma {:induction false} FieldsDecodeBack(fields: seq<Field<Expr>>)
    ensures DecodeFields(EncodeFields(fields)) == Some(fields)
    decreases fields, 0
  {
    hide DecodeExpr, Encode;
    if fields != [] {
      DecodesBack(fields[0].value);
      FieldsDecodeBack(fields[1..]);
      assert EncodeFields(fields)[1..] == EncodeFields(fields[1..]) && [fields[0]] + fields[1..] == fields;
    }
  }
}
