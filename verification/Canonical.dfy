/**
 * The canonical printer: sorted keys, no whitespace, minimal escapes.  Every
 * hash, every stored byte and every output comparison goes through this text.
 */
module Canonical {
  import opened Texts
  import opened Json

  const QUOTE: CodePoint := 0x22
  const BACKSLASH: CodePoint := 0x5C
  const COMMA: CodePoint := 0x2C
  const COLON: CodePoint := 0x3A
  const MINUS: CodePoint := 0x2D
  const OPEN_ARRAY: CodePoint := 0x5B
  const CLOSE_ARRAY: CodePoint := 0x5D
  const OPEN_OBJECT: CodePoint := 0x7B
  const CLOSE_OBJECT: CodePoint := 0x7D

  const NULL_TEXT: Text := [0x6E, 0x75, 0x6C, 0x6C]
  const TRUE_TEXT: Text := [0x74, 0x72, 0x75, 0x65]
  const FALSE_TEXT: Text := [0x66, 0x61, 0x6C, 0x73, 0x65]

  // ----- scalars -----

  function HexDigit(d: nat): CodePoint
    requires d < 16
  {
    if d < 10 then 0x30 + d else 0x61 + d - 10
  }

  /** How `json.dumps(..., ensure_ascii=False)` spells one code point inside quotes. */
  function EscapeOne(c: CodePoint): (r: Text)
    ensures r != []
  {
    if c == QUOTE || c == BACKSLASH then [BACKSLASH, c]
    else if c == 0x08 then [BACKSLASH, 0x62]
    else if c == 0x0C then [BACKSLASH, 0x66]
    else if c == 0x0A then [BACKSLASH, 0x6E]
    else if c == 0x0D then [BACKSLASH, 0x72]
    else if c == 0x09 then [BACKSLASH, 0x74]
    else if c < 0x20 then [BACKSLASH, 0x75, 0x30, 0x30, HexDigit(c / 16), HexDigit(c % 16)]
    else [c]
  }

  function Escape(t: Text): Text {
    if t == [] then [] else EscapeOne(t[0]) + Escape(t[1..])
  }

  function Quoted(t: Text): Text {
    [QUOTE] + Escape(t) + [QUOTE]
  }

  function Digits(n: nat): (r: Text)
    ensures r != []
  {
    if n < 10 then [0x30 + n] else Digits(n / 10) + [0x30 + n % 10]
  }

  /** `str(n)`. */
  function IntText(n: int): Text {
    if n < 0 then [MINUS] + Digits(-n) else Digits(n)
  }

  // ----- the printer -----

  /** `",".join(parts)`. */
  function CommaJoin(parts: seq<Text>): Text {
    if parts == [] then []
    else if |parts| == 1 then parts[0]
    else parts[0] + [COMMA] + CommaJoin(parts[1..])
  }

  function MemberText(member: Field<Text>): Text {
    Quoted(member.key) + [COLON] + member.value
  }

  function MemberTexts(members: seq<Field<Text>>): (r: seq<Text>)
    ensures |r| == |members|
  {
    if members == [] then [] else [MemberText(members[0])] + MemberTexts(members[1..])
  }

  /** `_render`: the members of an object are sorted by key, then printed. */
  function Render(v: Json): Text
    decreases v, 0
  {
    match v
    case Null => NULL_TEXT
    case Bool(b) => if b then TRUE_TEXT else FALSE_TEXT
    case Int(n) => IntText(n)
    case Str(t) => Quoted(t)
    case Arr(items) => [OPEN_ARRAY] + CommaJoin(RenderItems(items)) + [CLOSE_ARRAY]
    case Obj(fields) =>
      [OPEN_OBJECT] + CommaJoin(MemberTexts(SortByKey(RenderFields(fields)))) + [CLOSE_OBJECT]
  }

  function RenderItems(items: seq<Json>): (r: seq<Text>)
    ensures |r| == |items|
    decreases items, 1
  {
    if items == [] then [] else [Render(items[0])] + RenderItems(items[1..])
  }

  function RenderFields(fields: seq<Field<Json>>): (r: seq<Field<Text>>)
    ensures |r| == |fields|
    decreases fields, 1
  {
    if fields == [] then []
    else [Field(fields[0].key, Render(fields[0].value))] + RenderFields(fields[1..])
  }

  /** No string and no key, at any depth, holds a lone surrogate. */
  predicate Clean(v: Json) {
    match v
    case Str(t) => Encodable(t)
    case Arr(items) => forall i :: 0 <= i < |items| ==> Clean(items[i])
    case Obj(fields) => forall i :: 0 <= i < |fields| ==> Encodable(fields[i].key) && Clean(fields[i].value)
    case _ => true
  }

  // ----- printing sees a value only through its normal form -----

  lemma {:induction false} RenderItemsAt(items: seq<Json>, i: nat)
    requires i < |items|
    ensures RenderItems(items)[i] == Render(items[i])
  {
    if i > 0 {
      RenderItemsAt(items[1..], i - 1);
    }
  }

  lemma {:induction false} RenderFieldsAt(fields: seq<Field<Json>>, i: nat)
    requires i < |fields|
    ensures RenderFields(fields)[i] == Field(fields[i].key, Render(fields[i].value))
  {
    if i > 0 {
      RenderFieldsAt(fields[1..], i - 1);
    }
  }

  lemma {:induction false} RenderFieldsInsert(f: Field<Json>, fields: seq<Field<Json>>)
    ensures RenderFields(Insert(f, fields)) == Insert(Field(f.key, Render(f.value)), RenderFields(fields))
  {
    if fields == [] || Below(f.key, fields[0].key) {
      assert Insert(f, fields)[1..] == fields;
    } else {
      RenderFieldsInsert(f, fields[1..]);
      assert Insert(f, fields)[1..] == Insert(f, fields[1..]);
      assert RenderFields(fields)[1..] == RenderFields(fields[1..]);
    }
  }

  lemma {:induction false} RenderFieldsSort(fields: seq<Field<Json>>)
    ensures RenderFields(SortByKey(fields)) == SortByKey(RenderFields(fields))
  {
    if fields != [] {
      RenderFieldsSort(fields[1..]);
      RenderFieldsInsert(fields[0], SortByKey(fields[1..]));
      assert RenderFields(fields)[1..] == RenderFields(fields[1..]);
    }
  }

  lemma {:induction false} RenderNormalizedItems(items: seq<Json>)
    requires forall i :: 0 <= i < |items| ==> WellFormed(items[i])
    ensures RenderItems(NormalizeItems(items)) == RenderItems(items)
    decreases items, 1
  {
    if items != [] {
      RenderNormalizes(items[0]);
      RenderNormalizedItems(items[1..]);
      assert NormalizeItems(items)[1..] == NormalizeItems(items[1..]);
    }
  }

  lemma {:induction false} RenderNormalizedFields(fields: seq<Field<Json>>)
    requires forall i :: 0 <= i < |fields| ==> WellFormed(fields[i].value)
    ensures RenderFields(NormalizeFields(fields)) == RenderFields(fields)
    decreases fields, 1
  {
    if fields != [] {
      RenderNormalizes(fields[0].value);
      RenderNormalizedFields(fields[1..]);
      assert NormalizeFields(fields)[1..] == NormalizeFields(fields[1..]);
    }
  }

  lemma SortByKeyIdempotent<T>(fs: seq<Field<T>>)
    requires UniqueKeys(fs)
    ensures SortByKey(SortByKey(fs)) == SortByKey(fs)
  {
    SortByKeyProperties(fs);
    SortedHasUniqueKeys(SortByKey(fs));
    SortByKeyProperties(SortByKey(fs));
    SortedIsCanonical(SortByKey(SortByKey(fs)), SortByKey(fs));
  }

  /** The order in which a dictionary was filled never reaches the canonical text. */
  lemma {:induction false} RenderNormalizes(v: Json)
    requires WellFormed(v)
    ensures Render(Normalize(v)) == Render(v)
    decreases v, 0
  {
    match v
    case Arr(items) => RenderNormalizedItems(items);
    case Obj(fields) =>
      var ns, rs := NormalizeFields(fields), RenderFields(fields);
      RenderNormalizedFields(fields);
      RenderFieldsSort(ns);
      forall i, j | 0 <= i < j < |fields| ensures rs[i].key != rs[j].key {
        RenderFieldsAt(fields, i);
        RenderFieldsAt(fields, j);
      }
      SortByKeyIdempotent(rs);
    case _ =>
  }
}
