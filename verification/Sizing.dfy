/**
 * The allocation-free sizer: it walks a value in insertion order, keeps a
 * running byte count, hands shrinking budgets to nested values and stops at the
 * first excess, yet must agree with the length of the text it never builds.
 */
module Sizing {
  import opened Texts
  import opened Json
  import opened Canonical
  import opened Limits

  // ----- the sizes themselves -----

  /** Bytes of a string between its quotes in canonical JSON. */
  function ContentSize(t: Text): nat {
    Utf8Length(Escape(t))
  }

  /** Bytes of the canonical text, counted without sorting anything. */
  function JsonSize(v: Json): nat
    decreases v, 0
  {
    match v
    case Null => 4
    case Bool(b) => if b then 4 else 5
    case Int(n) => |IntText(n)|
    case Str(t) => ContentSize(t) + 2
    case Arr(items) => 2 + ItemsSize(items, true)
    case Obj(fields) => 2 + FieldsSize(fields, true)
  }

  /** Bytes of the items and of the commas before all but the first of them. */
  function ItemsSize(items: seq<Json>, first: bool): nat
    decreases items, 1
  {
    if items == [] then 0
    else (if first then 0 else 1) + JsonSize(items[0]) + ItemsSize(items[1..], false)
  }

  function FieldsSize(fields: seq<Field<Json>>, first: bool): nat
    decreases fields, 1
  {
    if fields == [] then 0
    else (if first then 0 else 1) + FieldSize(fields[0].key, JsonSize(fields[0].value)) + FieldsSize(fields[1..], false)
  }

  /** A quoted key, its colon and a value of the given size. */
  function FieldSize(key: Text, valueSize: nat): nat {
    ContentSize(key) + 2 + 1 + valueSize
  }

  // ----- agreement with the printer -----

  predicate AllAscii(t: Text) {
    forall i :: 0 <= i < |t| ==> t[i] < 0x80
  }

  lemma {:induction false} AsciiLength(t: Text)
    requires AllAscii(t)
    ensures Utf8Length(t) == |t|
  {
    if t != [] {
      AsciiLength(t[1..]);
    }
  }

  lemma {:induction false} DigitsAreAscii(n: nat)
    ensures AllAscii(Digits(n))
  {
    if n >= 10 {
      DigitsAreAscii(n / 10);
    }
  }

  lemma {:induction false} CommaJoinLength(parts: seq<Text>)
    ensures parts == [] ==> Utf8Length(CommaJoin(parts)) == 0
    ensures parts != [] ==> Utf8Length(CommaJoin(parts)) + 1 == TotalLength(parts)
  {
    if |parts| > 1 {
      CommaJoinLength(parts[1..]);
      Utf8LengthConcat(parts[0], [COMMA]);
      Utf8LengthConcat(parts[0] + [COMMA], CommaJoin(parts[1..]));
    }
  }

  /** Bytes of the parts, with one comma each. */
  function TotalLength(parts: seq<Text>): nat {
    if parts == [] then 0 else Utf8Length(parts[0]) + 1 + TotalLength(parts[1..])
  }

  lemma {:induction false} RenderedItemsLength(items: seq<Json>)
    requires forall i :: 0 <= i < |items| ==> WellFormed(items[i])
    ensures TotalLength(RenderItems(items)) == ItemsSize(items, false)
    decreases items, 1
  {
    if items != [] {
      SizeIsUtf8Length(items[0]);
      RenderedItemsLength(items[1..]);
      assert RenderItems(items)[1..] == RenderItems(items[1..]);
    }
  }

  function MembersLength(members: seq<Field<Text>>): nat {
    if members == [] then 0 else Utf8Length(MemberText(members[0])) + 1 + MembersLength(members[1..])
  }

  lemma {:induction false} MemberTextsLength(members: seq<Field<Text>>)
    ensures TotalLength(MemberTexts(members)) == MembersLength(members)
  {
    if members != [] {
      MemberTextsLength(members[1..]);
      assert MemberTexts(members)[1..] == MemberTexts(members[1..]);
    }
  }

  lemma {:induction false} InsertLength(f: Field<Text>, members: seq<Field<Text>>)
    ensures MembersLength(Insert(f, members)) == Utf8Length(MemberText(f)) + 1 + MembersLength(members)
  {
    if members == [] || Below(f.key, members[0].key) {
      assert ([f] + members)[1..] == members;
    } else {
      InsertLength(f, members[1..]);
      assert Insert(f, members)[1..] == Insert(f, members[1..]);
    }
  }

  lemma {:induction false} SortLength(members: seq<Field<Text>>)
    ensures MembersLength(SortByKey(members)) == MembersLength(members)
  {
    if members != [] {
      SortLength(members[1..]);
      InsertLength(members[0], SortByKey(members[1..]));
    }
  }

  lemma QuotedLength(t: Text)
    ensures Utf8Length(Quoted(t)) == ContentSize(t) + 2
  {
    Utf8LengthConcat([QUOTE], Escape(t));
    Utf8LengthConcat([QUOTE] + Escape(t), [QUOTE]);
  }

  lemma MemberLength(key: Text, text: Text)
    ensures Utf8Length(MemberText(Field(key, text))) == FieldSize(key, Utf8Length(text))
  {
    QuotedLength(key);
    Utf8LengthConcat(Quoted(key), [COLON]);
    Utf8LengthConcat(Quoted(key) + [COLON], text);
  }

  lemma {:induction false} RenderedFieldsLength(fields: seq<Field<Json>>)
    requires forall i :: 0 <= i < |fields| ==> WellFormed(fields[i].value)
    ensures MembersLength(RenderFields(fields)) == FieldsSize(fields, false)
    decreases fields, 1
  {
    if fields != [] {
      SizeIsUtf8Length(fields[0].value);
      MemberLength(fields[0].key, Render(fields[0].value));
      RenderedFieldsLength(fields[1..]);
      assert RenderFields(fields)[1..] == RenderFields(fields[1..]);
    }
  }

  lemma BracketedLength(open: CodePoint, inner: Text, close: CodePoint)
    requires open < 0x80 && close < 0x80
    ensures Utf8Length([open] + inner + [close]) == Utf8Length(inner) + 2
  {
    Utf8LengthConcat([open], inner);
    Utf8LengthConcat([open] + inner, [close]);
  }

  /** The count equals the UTF-8 length of the canonical text, sorted keys and all. */
  lemma {:induction false} SizeIsUtf8Length(v: Json)
    requires WellFormed(v)
    ensures JsonSize(v) == Utf8Length(Render(v))
    decreases v, 0
  {
    match v
    case Null => AsciiLength(NULL_TEXT);
    case Bool(b) => AsciiLength(if b then TRUE_TEXT else FALSE_TEXT);
    case Int(n) =>
      DigitsAreAscii(if n < 0 then -n else n);
      AsciiLength(IntText(n));
    case Str(t) => QuotedLength(t);
    case Arr(items) =>
      RenderedItemsLength(items);
      CommaJoinLength(RenderItems(items));
      BracketedLength(OPEN_ARRAY, CommaJoin(RenderItems(items)), CLOSE_ARRAY);
    case Obj(fields) =>
      var members := RenderFields(fields);
      RenderedFieldsLength(fields);
      SortLength(members);
      MemberTextsLength(SortByKey(members));
      CommaJoinLength(MemberTexts(SortByKey(members)));
      BracketedLength(OPEN_OBJECT, CommaJoin(MemberTexts(SortByKey(members))), CLOSE_OBJECT);
  }

  /** Two values with the same normal form have the same size. */
  lemma SizeNormalizes(v: Json)
    requires WellFormed(v)
    ensures JsonSize(Normalize(v)) == JsonSize(v)
  {
    SizeIsUtf8Length(v);
    NormalizeWellFormed(v);
    SizeIsUtf8Length(Normalize(v));
    RenderNormalizes(v);
  }

  // ----- the sizer, step by step -----

  /**
   * `_json_string_content_bytes` from a count of `size`: a lone surrogate is an
   * error, and once the count passes `maximum` the scan stops at `maximum + 1`.
   */
  function ScanContent(t: Text, size: int, maximum: Option<nat>): Result<int>
    decreases |t|
  {
    if t == [] then Ok(size)
    else if Surrogate(t[0]) then Err(InvalidString)
    else
      var n := size + Utf8Length(EscapeOne(t[0]));
      if maximum.Some? && n > maximum.value then Ok(maximum.value + 1)
      else ScanContent(t[1..], n, maximum)
  }

  function Ensure(size: int, max: int, code: Code): Result<int> {
    if size > max then Err(code) else Ok(size)
  }

  function StringMaximum(max: int): nat {
    if max >= 2 then max - 2 else 0
  }

  /** `_bounded_json_size`, in the order in which it checks. */
  function Sized(v: Json, limits: Limits, max: int, code: Code, depth: nat): Result<int>
    decreases v, 0
  {
    if depth > limits.maxDepth then Err(ValueDepthLimit)
    else
      match v
      case Null => Ensure(4, max, code)
      case Bool(b) => Ensure(if b then 4 else 5, max, code)
      case Str(t) =>
        var content :- ScanContent(t, 0, Some(StringMaximum(max)));
        Ensure(content + 2, max, code)
      case Int(n) =>
        if BitLength(n) > limits.maxIntegerBits then Err(IntegerLimit) else Ensure(|IntText(n)|, max, code)
      case Obj(fields) =>
        if |fields| > limits.maxItems then Err(CollectionLimit)
        else
          var total :- Ensure(2, max, code);
          SizedFields(fields, limits, max, code, depth, total, true)
      case Arr(items) =>
        if |items| > limits.maxItems then Err(CollectionLimit)
        else
          var total :- Ensure(2, max, code);
          SizedItems(items, limits, max, code, depth, total, true)
  }

  /** The rest of the item loop, from a running count of `total`. */
  function SizedItems(items: seq<Json>, limits: Limits, max: int, code: Code, depth: nat,
                      total: int, first: bool): Result<int>
    decreases items, 1
  {
    if items == [] then Ok(total)
    else
      var t1 :- if first then Ok(total) else Ensure(total + 1, max, code);
      var n :- Sized(items[0], limits, max - t1, code, depth + 1);
      var t2 :- Ensure(t1 + n, max, code);
      SizedItems(items[1..], limits, max, code, depth, t2, false)
  }

  function SizedFields(fields: seq<Field<Json>>, limits: Limits, max: int, code: Code, depth: nat,
                       total: int, first: bool): Result<int>
    decreases fields, 1
  {
    if fields == [] then Ok(total)
    else
      var t1 :- if first then Ok(total) else Ensure(total + 1, max, code);
      var t2 :- SizedField(fields[0], limits, max, code, depth, t1);
      SizedFields(fields[1..], limits, max, code, depth, t2, false)
  }

  /** The running count after one key, its colon and its value. */
  function SizedField(f: Field<Json>, limits: Limits, max: int, code: Code, depth: nat, total: int): Result<int>
    decreases f, 1
  {
    var keySize :- ScanContent(f.key, 0, Some(StringMaximum(max - total)));
    var t :- Ensure(total + keySize + 2 + 1, max, code);
    var n :- Sized(f.value, limits, max - t, code, depth + 1);
    Ensure(t + n, max, code)
  }

  /** Within the depth, collection and integer limits, and encodable. */
  predicate Fits(v: Json, limits: Limits, depth: nat)
    decreases v, 0
  {
    depth <= limits.maxDepth &&
    match v
    case Str(t) => Encodable(t)
    case Int(n) => BitLength(n) <= limits.maxIntegerBits
    case Arr(items) => |items| <= limits.maxItems && ItemsFit(items, limits, depth + 1)
    case Obj(fields) => |fields| <= limits.maxItems && FieldsFit(fields, limits, depth + 1)
    case _ => true
  }

  predicate ItemsFit(items: seq<Json>, limits: Limits, depth: nat)
    decreases items, 1
  {
    items == [] || (Fits(items[0], limits, depth) && ItemsFit(items[1..], limits, depth))
  }

  predicate FieldsFit(fields: seq<Field<Json>>, limits: Limits, depth: nat)
    decreases fields, 1
  {
    fields == [] ||
    (Encodable(fields[0].key) && Fits(fields[0].value, limits, depth) && FieldsFit(fields[1..], limits, depth))
  }

  lemma {:induction false} ScanContentExact(t: Text, size: int, maximum: Option<nat>)
    ensures Encodable(t) ==>
              ScanContent(t, size, maximum)
              == Ok(if maximum.Some? && t != [] && size + ContentSize(t) > maximum.value
                    then maximum.value + 1 else size + ContentSize(t))
    ensures !Encodable(t) ==>
              ScanContent(t, size, maximum) == Err(InvalidString)
              || (maximum.Some? && ScanContent(t, size, maximum) == Ok(maximum.value + 1))
  {
    if t != [] {
      Utf8LengthConcat(EscapeOne(t[0]), Escape(t[1..]));
      if !Surrogate(t[0]) {
        ScanContentExact(t[1..], size + Utf8Length(EscapeOne(t[0])), maximum);
        assert Encodable(t) <==> Encodable(t[1..]) by {
          assert t == [t[0]] + t[1..];
        }
      }
    }
  }

  /** What the sizer must return: the size if the value fits, the limit error if only the size is wrong. */
  predicate SizerContract(r: Result<int>, fits: bool, size: int, max: int, code: Code) {
    && (r.Ok? <==> fits && size <= max)
    && (r.Ok? ==> r.value == size)
    && (fits && size > max ==> r == Err(code))
  }

  /**
   * The sizer equals the serializer: on a value within the limits it returns the
   * exact byte length when that is within the budget and the size error
   * otherwise, and it accepts nothing else.
   */
  lemma {:induction false} SizedExact(v: Json, limits: Limits, max: int, code: Code, depth: nat)
    ensures SizerContract(Sized(v, limits, max, code, depth), Fits(v, limits, depth), JsonSize(v), max, code)
    decreases v, 0
  {
    hide SizedItems, SizedFields, ItemsFit, FieldsFit, ItemsSize, FieldsSize, ScanContent;
    if depth <= limits.maxDepth {
      match v
      case Str(t) => ScanContentExact(t, 0, Some(StringMaximum(max)));
      case Arr(items) =>
        if 2 <= max && |items| <= limits.maxItems {
          SizedItemsExact(items, limits, max, code, depth, 2, true);
        }
      case Obj(fields) =>
        if 2 <= max && |fields| <= limits.maxItems {
          SizedFieldsExact(fields, limits, max, code, depth, 2, true);
        }
      case _ =>
    }
  }

  lemma {:induction false} SizedItemsExact(items: seq<Json>, limits: Limits, max: int, code: Code, depth: nat,
                                           total: int, first: bool)
    requires total <= max
    ensures SizerContract(SizedItems(items, limits, max, code, depth, total, first),
                          ItemsFit(items, limits, depth + 1), total + ItemsSize(items, first), max, code)
    decreases items, 1
  {
    hide Sized, Fits, JsonSize;
    if items != [] {
      var t1 := if first then total else total + 1;
      if t1 <= max {
        SizedExact(items[0], limits, max - t1, code, depth + 1);
        if t1 + JsonSize(items[0]) <= max {
          SizedItemsExact(items[1..], limits, max, code, depth, t1 + JsonSize(items[0]), false);
        }
      }
    }
  }

  lemma {:induction false} SizedFieldExact(f: Field<Json>, limits: Limits, max: int, code: Code, depth: nat, total: int)
    requires total <= max
    ensures SizerContract(SizedField(f, limits, max, code, depth, total),
                          Encodable(f.key) && Fits(f.value, limits, depth + 1),
                          total + FieldSize(f.key, JsonSize(f.value)), max, code)
    decreases f, 1
  {
    ScanContentExact(f.key, 0, Some(StringMaximum(max - total)));
    var t := total + ContentSize(f.key) + 3;
    if t <= max {
      SizedExact(f.value, limits, max - t, code, depth + 1);
    }
  }

  lemma {:induction false} SizedFieldsExact(fields: seq<Field<Json>>, limits: Limits, max: int, code: Code, depth: nat,
                                            total: int, first: bool)
    requires total <= max
    ensures SizerContract(SizedFields(fields, limits, max, code, depth, total, first),
                          FieldsFit(fields, limits, depth + 1), total + FieldsSize(fields, first), max, code)
    decreases fields, 1
  {
    hide SizedField, Fits, JsonSize, FieldSize;
    if fields != [] {
      var f, t1 := fields[0], if first then total else total + 1;
      if t1 <= max {
        SizedFieldExact(f, limits, max, code, depth, t1);
        var t2 := t1 + FieldSize(f.key, JsonSize(f.value));
        if t2 <= max {
          SizedFieldsExact(fields[1..], limits, max, code, depth, t2, false);
        }
      }
    }
  }

  // ----- the sizer as it runs -----

  /** `_json_string_content_bytes`. */
  method StringContentBytes(value: Text, maximum: Option<nat>) returns (r: Result<int>)
    ensures r == ScanContent(value, 0, maximum)
  {
    var size: int := 0;
    for i := 0 to |value|
      invariant ScanContent(value, 0, maximum) == ScanContent(value[i..], size, maximum)
    {
      var c := value[i];
      assert value[i..][0] == c && value[i..][1..] == value[i + 1..];
      if 0xD800 <= c <= 0xDFFF {
        return Err(InvalidString);
      }
      if c in {QUOTE, BACKSLASH, 0x08, 0x0C, 0x0A, 0x0D, 0x09} {
        size := size + 2;
      } else if c < 0x20 {
        size := size + 6;
      } else if c < 0x80 {
        size := size + 1;
      } else if c < 0x800 {
        size := size + 2;
      } else if c < 0x10000 {
        size := size + 3;
      } else {
        size := size + 4;
      }
      EscapeOneLength(c);
      if maximum.Some? && size > maximum.value {
        return Ok(maximum.value + 1);
      }
    }
    r := Ok(size);
  }

  lemma EscapeOneLength(c: CodePoint)
    ensures Utf8Length(EscapeOne(c))
            == if c in {QUOTE, BACKSLASH, 0x08, 0x0C, 0x0A, 0x0D, 0x09} then 2 else if c < 0x20 then 6 else Utf8Width(c)
  {
    if c < 0x20 || c == QUOTE || c == BACKSLASH {
      AsciiLength(EscapeOne(c));
    }
  }

  /**
   * `_bounded_json_size`: the running total never passes the budget, and each
   * nested call gets what is left of it.
   */
  method BoundedJsonSize(v: Json, limits: Limits, max: int, code: Code, depth: nat) returns (r: Result<int>)
    ensures r == Sized(v, limits, max, code, depth)
    ensures SizerContract(r, Fits(v, limits, depth), JsonSize(v), max, code)
    decreases v
  {
    SizedExact(v, limits, max, code, depth);
    if depth > limits.maxDepth {
      return Err(ValueDepthLimit);
    }
    match v
    case Null => return Ensure(4, max, code);
    case Bool(b) => return Ensure(if b then 4 else 5, max, code);
    case Str(t) =>
      var content :- StringContentBytes(t, Some(StringMaximum(max)));
      return Ensure(content + 2, max, code);
    case Int(n) =>
      if BitLength(n) > limits.maxIntegerBits {
        return Err(IntegerLimit);
      }
      return Ensure(|IntText(n)|, max, code);
    case Obj(fields) =>
      if |fields| > limits.maxItems {
        return Err(CollectionLimit);
      }
      var total :- Ensure(2, max, code);
      r := SizeFields(fields, limits, max, code, depth, total);
    case Arr(items) =>
      if |items| > limits.maxItems {
        return Err(CollectionLimit);
      }
      var total :- Ensure(2, max, code);
      r := SizeItems(items, limits, max, code, depth, total);
  }

  /** The member loop of the sizer. */
  method SizeFields(fields: seq<Field<Json>>, limits: Limits, max: int, code: Code, depth: nat, brackets: int)
    returns (r: Result<int>)
    ensures r == SizedFields(fields, limits, max, code, depth, brackets, true)
    decreases fields
  {
    var total := brackets;
    for i := 0 to |fields|
      invariant SizedFields(fields, limits, max, code, depth, brackets, true)
             == SizedFields(fields[i..], limits, max, code, depth, total, i == 0)
    {
      SizedFieldsUnfold(fields, i, limits, max, code, depth, total);
      if i != 0 {
        total :- Ensure(total + 1, max, code);
      }
      total :- SizeField(fields[i], limits, max, code, depth, total);
    }
    r := Ok(total);
  }

  /** One key, its colon and its value. */
  method SizeField(f: Field<Json>, limits: Limits, max: int, code: Code, depth: nat, before: int)
    returns (r: Result<int>)
    ensures r == SizedField(f, limits, max, code, depth, before)
    decreases f
  {
    hide Sized, SizedItems, SizedFields, ScanContent, SizerContract, Fits, JsonSize;
    var keySize := StringContentBytes(f.key, Some(StringMaximum(max - before)));
    if keySize.Err? {
      return keySize;
    }
    var total := before + keySize.value + 2 + 1;
    if total > max {
      return Err(code);
    }
    var child := BoundedJsonSize(f.value, limits, max - total, code, depth + 1);
    if child.Err? {
      return child;
    }
    r := Ensure(total + child.value, max, code);
  }

  lemma SizedFieldsUnfold(fields: seq<Field<Json>>, i: nat, limits: Limits, max: int, code: Code, depth: nat, total: int)
    requires i < |fields|
    ensures SizedFields(fields[i..], limits, max, code, depth, total, i == 0)
         == var t1 :- if i == 0 then Ok(total) else Ensure(total + 1, max, code);
            var t2 :- SizedField(fields[i], limits, max, code, depth, t1);
            SizedFields(fields[i + 1..], limits, max, code, depth, t2, false)
  {
    assert fields[i..][0] == fields[i] && fields[i..][1..] == fields[i + 1..];
  }

  /** The item loop of the sizer. */
  method SizeItems(items: seq<Json>, limits: Limits, max: int, code: Code, depth: nat, brackets: int)
    returns (r: Result<int>)
    ensures r == SizedItems(items, limits, max, code, depth, brackets, true)
    decreases items
  {
    hide Sized, SizedItems, SizedFields, ScanContent, SizerContract, Fits, JsonSize;
    var total := brackets;
    for i := 0 to |items|
      invariant SizedItems(items, limits, max, code, depth, brackets, true)
             == SizedItems(items[i..], limits, max, code, depth, total, i == 0)
    {
      SizedItemsUnfold(items, i, limits, max, code, depth, total);
      if i != 0 {
        total :- Ensure(total + 1, max, code);
      }
      var child := BoundedJsonSize(items[i], limits, max - total, code, depth + 1);
      assert child == Sized(items[i], limits, max - total, code, depth + 1);
      if child.Err? {
        return child;
      }
      var grown := Ensure(total + child.value, max, code);
      if grown.Err? {
        return grown;
      }
      total := grown.value;
    }
    assert items[|items|..] == [];
    SizedItemsNil(limits, max, code, depth, total);
    r := Ok(total);
  }

  lemma SizedItemsNil(limits: Limits, max: int, code: Code, depth: nat, total: int)
    ensures SizedItems([], limits, max, code, depth, total, true) == Ok(total)
    ensures SizedItems([], limits, max, code, depth, total, false) == Ok(total)
  {
  }

  lemma SizedItemsUnfold(items: seq<Json>, i: nat, limits: Limits, max: int, code: Code, depth: nat, total: int)
    requires i < |items|
    ensures SizedItems(items[i..], limits, max, code, depth, total, i == 0)
         == var t1 :- if i == 0 then Ok(total) else Ensure(total + 1, max, code);
            var n :- Sized(items[i], limits, max - t1, code, depth + 1);
            var t2 :- Ensure(t1 + n, max, code);
            SizedItems(items[i + 1..], limits, max, code, depth, t2, false)
  {
    assert items[i..][0] == items[i] && items[i..][1..] == items[i + 1..];
  }
}
