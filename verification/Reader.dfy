/**
 * The strict JSON reader behind `canonical_loads` and `json_from_bytes`
 * (sections 4 to 7 of RFC 8259), and its round trip with the printer.  A
 * number with a fraction or an exponent would be a float and is refused here.
 */
module Reader {
  import opened Texts
  import opened Json
  import opened Canonical

  // ----- scalars -----

  predicate Space(c: CodePoint) {
    c == 0x20 || c == 0x09 || c == 0x0A || c == 0x0D
  }

  function SkipSpace(t: Text): (r: Text)
    ensures |r| <= |t|
  {
    if t != [] && Space(t[0]) then SkipSpace(t[1..]) else t
  }

  predicate StartsWith(t: Text, c: CodePoint) {
    t != [] && t[0] == c
  }

  function HexValue(c: CodePoint): Option<nat> {
    if 0x30 <= c <= 0x39 then Some(c - 0x30)
    else if 0x61 <= c <= 0x66 then Some(c - 0x61 + 10)
    else if 0x41 <= c <= 0x46 then Some(c - 0x41 + 10)
    else None
  }

  /** The code unit spelled by the four hexadecimal digits at the front of `t`. */
  function Hex4(t: Text): (r: Option<nat>)
    ensures r.Some? ==> r.value < 0x10000 && |t| >= 4
  {
    if |t| < 4 then None
    else
      match (HexValue(t[0]), HexValue(t[1]), HexValue(t[2]), HexValue(t[3]))
      case (Some(a), Some(b), Some(c), Some(d)) =>
        if a < 16 && b < 16 && c < 16 && d < 16 then Some(a * 4096 + b * 256 + c * 16 + d) else None
      case _ => None
  }

  /** What follows a backslash: a short escape, or `uXXXX` with surrogate pairs joined. */
  function ReadEscape(t: Text): (r: Option<(CodePoint, Text)>)
    ensures r.Some? ==> |r.value.1| < |t|
  {
    if t == [] then None
    else if t[0] == QUOTE || t[0] == BACKSLASH || t[0] == 0x2F then Some((t[0], t[1..]))
    else if t[0] == 0x62 then Some((0x08, t[1..]))
    else if t[0] == 0x66 then Some((0x0C, t[1..]))
    else if t[0] == 0x6E then Some((0x0A, t[1..]))
    else if t[0] == 0x72 then Some((0x0D, t[1..]))
    else if t[0] == 0x74 then Some((0x09, t[1..]))
    else if t[0] == 0x75 then
      match Hex4(t[1..])
      case None => None
      case Some(unit) =>
        if 0xD800 <= unit < 0xDC00 && |t| >= 7 && t[5] == BACKSLASH && t[6] == 0x75 then
          match Hex4(t[7..])
          case None => None
          case Some(low) =>
            if 0xDC00 <= low < 0xE000
            then Some((0x10000 + (unit - 0xD800) * 0x400 + (low - 0xDC00), t[11..]))
            else Some((unit, t[5..]))
        else Some((unit, t[5..]))
    else None
  }

  /** The string whose opening quote has just been read. */
  function ReadString(t: Text): (r: Option<(Text, Text)>)
    ensures r.Some? ==> |r.value.1| < |t|
    decreases |t|
  {
    if t == [] || t[0] < 0x20 then None
    else if t[0] == QUOTE then Some(([], t[1..]))
    else if t[0] == BACKSLASH then
      match ReadEscape(t[1..])
      case None => None
      case Some((c, rest)) => Prepend(c, ReadString(rest))
    else Prepend(t[0], ReadString(t[1..]))
  }

  function Prepend(c: CodePoint, r: Option<(Text, Text)>): Option<(Text, Text)> {
    match r
    case None => None
    case Some((s, rest)) => Some(([c] + s, rest))
  }

  predicate Digit(c: CodePoint) {
    0x30 <= c <= 0x39
  }

  function DigitValue(c: CodePoint): nat
    requires Digit(c)
  {
    var i: int := c;
    i - 0x30
  }

  /** How many digits `t` starts with. */
  function DigitRun(t: Text): (n: nat)
    ensures n <= |t| && forall i :: 0 <= i < n ==> Digit(t[i])
  {
    if t == [] || !Digit(t[0]) then 0 else 1 + DigitRun(t[1..])
  }

  function NatValue(ds: Text): nat
    requires forall i :: 0 <= i < |ds| ==> Digit(ds[i])
    decreases |ds|
  {
    if ds == [] then 0 else NatValue(ds[..|ds| - 1]) * 10 + DigitValue(ds[|ds| - 1])
  }

  /** A fraction or an exponent, which would make the number a float. */
  predicate FloatTail(t: Text) {
    if StartsWith(t, 0x2E) then |t| > 1 && Digit(t[1])
    else if StartsWith(t, 0x65) || StartsWith(t, 0x45) then
      |t| > 1 && (Digit(t[1]) || ((t[1] == 0x2B || t[1] == MINUS) && |t| > 2 && Digit(t[2])))
    else false
  }

  function ReadNat(t: Text): (r: Option<(nat, Text)>)
    ensures r.Some? ==> |r.value.1| < |t|
  {
    if t == [] || !Digit(t[0]) then None
    else
      var n := if t[0] == 0x30 then 1 else DigitRun(t);
      if FloatTail(t[n..]) then None else Some((NatValue(t[..n]), t[n..]))
  }

  function ReadInt(t: Text): (r: Option<(Json, Text)>)
    ensures r.Some? ==> |r.value.1| < |t|
  {
    if StartsWith(t, MINUS) then
      match ReadNat(t[1..])
      case None => None
      case Some((n, rest)) => Some((Int(0 - n), rest))
    else
      match ReadNat(t)
      case None => None
      case Some((n, rest)) => Some((Int(n), rest))
  }

  // ----- values -----

  /** One value at the front of `t`, and the text after it. */
  function ReadValue(t: Text): (r: Option<(Json, Text)>)
    ensures r.Some? ==> |r.value.1| < |t|
    decreases |t|, 0
  {
    if t == [] then None
    else if t[0] == QUOTE then
      match ReadString(t[1..])
      case None => None
      case Some((s, rest)) => Some((Str(s), rest))
    else if t[0] == OPEN_ARRAY then ReadArray(SkipSpace(t[1..]))
    else if t[0] == OPEN_OBJECT then ReadObject(SkipSpace(t[1..]))
    else if NULL_TEXT <= t then Some((Null, t[4..]))
    else if TRUE_TEXT <= t then Some((Bool(true), t[4..]))
    else if FALSE_TEXT <= t then Some((Bool(false), t[5..]))
    else ReadInt(t)
  }

  function ReadArray(t: Text): (r: Option<(Json, Text)>)
    ensures r.Some? ==> |r.value.1| < |t|
    decreases |t|, 2
  {
    if StartsWith(t, CLOSE_ARRAY) then Some((Arr([]), t[1..]))
    else
      match ReadItems(t)
      case None => None
      case Some((items, rest)) => Some((Arr(items), rest))
  }

  function ReadObject(t: Text): (r: Option<(Json, Text)>)
    ensures r.Some? ==> |r.value.1| < |t|
    decreases |t|, 2
  {
    if StartsWith(t, CLOSE_OBJECT) then Some((Obj([]), t[1..]))
    else
      match ReadMembers(t)
      case None => None
      case Some((members, rest)) => if UniqueKeys(members) then Some((Obj(members), rest)) else None
  }

  function ReadItems(t: Text): (r: Option<(seq<Json>, Text)>)
    ensures r.Some? ==> |r.value.1| < |t|
    decreases |t|, 1
  {
    match ReadValue(t)
    case None => None
    case Some((v, rest)) =>
      var u := SkipSpace(rest);
      if StartsWith(u, CLOSE_ARRAY) then Some(([v], u[1..]))
      else if StartsWith(u, COMMA) then
        match ReadItems(SkipSpace(u[1..]))
        case None => None
        case Some((vs, end)) => Some(([v] + vs, end))
      else None
  }

  function ReadMembers(t: Text): (r: Option<(seq<Field<Json>>, Text)>)
    ensures r.Some? ==> |r.value.1| < |t|
    decreases |t|, 1
  {
    if !StartsWith(t, QUOTE) then None
    else
      match ReadString(t[1..])
      case None => None
      case Some((key, afterKey)) =>
        var u := SkipSpace(afterKey);
        if !StartsWith(u, COLON) then None
        else
          match ReadValue(SkipSpace(u[1..]))
          case None => None
          case Some((v, rest)) =>
            var w := SkipSpace(rest);
            if StartsWith(w, CLOSE_OBJECT) then Some(([Field(key, v)], w[1..]))
            else if StartsWith(w, COMMA) then
              match ReadMembers(SkipSpace(w[1..]))
              case None => None
              case Some((ms, end)) => Some(([Field(key, v)] + ms, end))
            else None
  }

  /** `json.loads`: one value with nothing but space around it. */
  function Loads(t: Text): Option<Json> {
    match ReadValue(SkipSpace(t))
    case None => None
    case Some((v, rest)) => if SkipSpace(rest) == [] then Some(v) else None
  }

  /** The `object_pairs_hook`: pairs fill a dictionary, and a repeated key is refused. */
  method ObjectPairs(pairs: seq<Field<Json>>) returns (r: Option<seq<Field<Json>>>)
    ensures r.Some? <==> UniqueKeys(pairs)
    ensures r.Some? ==> r.value == pairs
  {
    var result: seq<Field<Json>> := [];
    for i := 0 to |pairs|
      invariant result == pairs[..i] && UniqueKeys(result)
    {
      LookupFindsKey(result, pairs[i].key);
      if HasKey(result, pairs[i].key) {
        return None;
      }
      result := result + [pairs[i]];
    }
    r := Some(result);
  }

  // ----- reading back what was printed: scalars -----

  lemma ReadEscapedOne(c: CodePoint, rest: Text)
    requires c == QUOTE || c == BACKSLASH || c < 0x20
    ensures ReadEscape(EscapeOne(c)[1..] + rest) == Some((c, rest))
    ensures EscapeOne(c)[0] == BACKSLASH
  {
    var t := EscapeOne(c)[1..] + rest;
    if |EscapeOne(c)| == 2 {
      assert t[1..] == rest;
    } else {
      assert t[1..][..4] == [0x30, 0x30, HexDigit(c / 16), HexDigit(c % 16)];
      assert t[5..] == rest;
      assert HexValue(HexDigit(c / 16)) == Some(c / 16) && HexValue(HexDigit(c % 16)) == Some(c % 16);
      assert Hex4(t[1..]) == Some(c);
    }
  }

  lemma Associative(a: Text, b: Text, c: Text)
    ensures a + b + c == a + (b + c)
    ensures |a| == 1 ==> (a + (b + c))[1..] == b + c
  {
  }

  lemma ReadStringStep(c: CodePoint, u: Text, s: Text, rest: Text)
    requires ReadString(u) == Some((s, rest))
    ensures ReadString(EscapeOne(c) + u) == Some(([c] + s, rest))
  {
    var t := EscapeOne(c) + u;
    if c == QUOTE || c == BACKSLASH || c < 0x20 {
      ReadEscapedOne(c, u);
      assert t[1..] == EscapeOne(c)[1..] + u;
    } else {
      assert t[1..] == u;
    }
  }

  lemma {:induction false} ReadEscaped(s: Text, rest: Text)
    ensures ReadString(Escape(s) + ([QUOTE] + rest)) == Some((s, rest))
  {
    var end := [QUOTE] + rest;
    if s == [] {
      assert Escape(s) + end == end;
      assert end[1..] == rest;
    } else {
      ReadEscaped(s[1..], rest);
      ReadStringStep(s[0], Escape(s[1..]) + end, s[1..], rest);
      Associative(EscapeOne(s[0]), Escape(s[1..]), end);
      assert [s[0]] + s[1..] == s;
    }
  }

  lemma ReadQuoted(s: Text, rest: Text)
    ensures StartsWith(Quoted(s) + rest, QUOTE)
    ensures ReadString((Quoted(s) + rest)[1..]) == Some((s, rest))
  {
    ReadEscaped(s, rest);
    assert (Quoted(s) + rest)[1..] == Escape(s) + ([QUOTE] + rest);
  }

  lemma {:induction false} DigitsAreDigits(n: nat)
    ensures forall i :: 0 <= i < |Digits(n)| ==> Digit(Digits(n)[i])
    ensures Digits(n)[0] == 0x30 ==> n == 0 && |Digits(n)| == 1
    ensures NatValue(Digits(n)) == n
  {
    if n >= 10 {
      DigitsAreDigits(n / 10);
      var ds := Digits(n);
      assert ds[..|ds| - 1] == Digits(n / 10);
    }
  }

  /** Text that cannot continue a number: the end, or one of `,` `]` `}`. */
  predicate Stops(rest: Text) {
    rest == [] || rest[0] == COMMA || rest[0] == CLOSE_ARRAY || rest[0] == CLOSE_OBJECT
  }

  lemma {:induction false} DigitRunOf(ds: Text, rest: Text)
    requires Stops(rest) && forall i :: 0 <= i < |ds| ==> Digit(ds[i])
    ensures DigitRun(ds + rest) == |ds|
  {
    if ds != [] {
      assert (ds + rest)[1..] == ds[1..] + rest;
      DigitRunOf(ds[1..], rest);
    } else {
      assert ds + rest == rest;
    }
  }

  lemma ReadPrintedNat(n: nat, rest: Text)
    requires Stops(rest)
    ensures ReadNat(Digits(n) + rest) == Some((n, rest))
  {
    var ds := Digits(n);
    DigitsAreDigits(n);
    DigitRunOf(ds, rest);
    assert (ds + rest)[..|ds|] == ds && (ds + rest)[|ds|..] == rest;
  }

  lemma ReadIntStep(t: Text, n: nat, rest: Text)
    ensures StartsWith(t, MINUS) && ReadNat(t[1..]) == Some((n, rest)) ==> ReadInt(t) == Some((Int(0 - n), rest))
    ensures !StartsWith(t, MINUS) && ReadNat(t) == Some((n, rest)) ==> ReadInt(t) == Some((Int(n), rest))
  {
  }

  lemma ReadPrintedInt(n: int, rest: Text)
    requires Stops(rest)
    ensures ReadInt(IntText(n) + rest) == Some((Int(n), rest))
  {
    var m: nat := if n < 0 then -n else n;
    var ds := Digits(m);
    ReadPrintedNat(m, rest);
    DigitsAreDigits(m);
    ReadIntStep(IntText(n) + rest, m, rest);
    if n < 0 {
      Associative([MINUS], ds, rest);
    } else {
      assert (ds + rest)[0] == ds[0];
    }
  }

  /** A printed value never starts like space, a closing bracket or a comma. */
  lemma PrintedHead(v: Json)
    ensures Render(v) != [] && !Space(Render(v)[0])
    ensures Render(v)[0] != CLOSE_ARRAY && Render(v)[0] != CLOSE_OBJECT
    ensures v.Int? ==> Render(v)[0] == MINUS || Digit(Render(v)[0])
  {
    if v.Int? {
      DigitsAreDigits(if v.number < 0 then -v.number else v.number);
    }
  }

  // ----- reading back what was printed: values -----

  lemma CommaJoinFirst(parts: seq<Text>, rest: Text)
    requires parts != []
    ensures |parts| == 1 ==> CommaJoin(parts) + rest == parts[0] + rest
    ensures |parts| > 1 ==> CommaJoin(parts) + rest == parts[0] + ([COMMA] + (CommaJoin(parts[1..]) + rest))
  {
    if |parts| > 1 {
      var tail := CommaJoin(parts[1..]);
      Associative(parts[0], [COMMA], tail);
      Associative(parts[0], [COMMA] + tail, rest);
      Associative([COMMA], tail, rest);
    }
  }

  lemma SortedRendersInOrder(fields: seq<Field<Json>>)
    requires StrictlySorted(fields)
    ensures SortByKey(RenderFields(fields)) == RenderFields(fields)
  {
    SortedHasUniqueKeys(fields);
    SortByKeyProperties(fields);
    SortedIsCanonical(SortByKey(fields), fields);
    RenderFieldsSort(fields);
  }

  lemma ReadPrintedScalar(v: Json, rest: Text)
    requires !v.Arr? && !v.Obj? && Stops(rest)
    ensures ReadValue(Render(v) + rest) == Some((v, rest))
  {
    var t := Render(v) + rest;
    match v
    case Null => assert t[4..] == rest;
    case Bool(b) => assert t[if b then 4 else 5..] == rest;
    case Str(s) => ReadQuoted(s, rest);
    case Int(n) =>
      PrintedHead(v);
      ReadPrintedInt(n, rest);
      assert t[0] == Render(v)[0];
      assert !(NULL_TEXT <= t) && !(TRUE_TEXT <= t) && !(FALSE_TEXT <= t);
  }

  lemma Bracketed(open: CodePoint, inner: Text, close: CodePoint, rest: Text)
    ensures [open] + inner + [close] + rest == [open] + (inner + ([close] + rest))
  {
  }

  lemma ReadBracketed(body: Text)
    ensures ReadValue([OPEN_ARRAY] + body) == ReadArray(SkipSpace(body))
    ensures ReadValue([OPEN_OBJECT] + body) == ReadObject(SkipSpace(body))
  {
    assert ([OPEN_ARRAY] + body)[1..] == body;
    assert ([OPEN_OBJECT] + body)[1..] == body;
  }

  /** The reader undoes the printer, whatever valid JSON follows. */
  lemma {:induction false} ReadPrinted(v: Json, rest: Text)
    requires Ordered(v) && Stops(rest)
    ensures ReadValue(Render(v) + rest) == Some((v, rest))
    decreases v, 2
  {
    match v
    case Arr(items) =>
      ReadPrintedArray(items, rest);
      var inner := CommaJoin(RenderItems(items));
      ReadBracketed(inner + ([CLOSE_ARRAY] + rest));
      Bracketed(OPEN_ARRAY, inner, CLOSE_ARRAY, rest);
    case Obj(fields) =>
      ReadPrintedObject(fields, rest);
      var inner := CommaJoin(MemberTexts(RenderFields(fields)));
      ReadBracketed(inner + ([CLOSE_OBJECT] + rest));
      Bracketed(OPEN_OBJECT, inner, CLOSE_OBJECT, rest);
    case _ => ReadPrintedScalar(v, rest);
  }

  lemma {:induction false} ReadPrintedArray(items: seq<Json>, rest: Text)
    requires forall i :: 0 <= i < |items| ==> Ordered(items[i])
    ensures var body := CommaJoin(RenderItems(items)) + ([CLOSE_ARRAY] + rest);
            ReadArray(SkipSpace(body)) == Some((Arr(items), rest))
    decreases items, 2
  {
    var body := CommaJoin(RenderItems(items)) + ([CLOSE_ARRAY] + rest);
    if items == [] {
      assert body == [CLOSE_ARRAY] + rest;
    } else {
      PrintedHead(items[0]);
      CommaJoinFirst(RenderItems(items), [CLOSE_ARRAY] + rest);
      assert body[0] == Render(items[0])[0];
      ReadPrintedItems(items, rest);
    }
  }

  lemma ReadItemsStep(t: Text, v: Json, rest: Text, vs: seq<Json>, end: Text)
    ensures ReadValue(t) == Some((v, [CLOSE_ARRAY] + rest)) ==> ReadItems(t) == Some(([v], rest))
    ensures ReadValue(t) == Some((v, [COMMA] + rest)) && SkipSpace(rest) == rest && ReadItems(rest) == Some((vs, end))
            ==> ReadItems(t) == Some(([v] + vs, end))
  {
    assert ([CLOSE_ARRAY] + rest)[1..] == rest;
    assert ([COMMA] + rest)[1..] == rest;
  }

  lemma {:induction false} ReadPrintedItems(items: seq<Json>, rest: Text)
    requires items != [] && forall i :: 0 <= i < |items| ==> Ordered(items[i])
    ensures ReadItems(CommaJoin(RenderItems(items)) + ([CLOSE_ARRAY] + rest)) == Some((items, rest))
    decreases items, 1
  {
    hide ReadValue, ReadItems, Ordered, CommaJoin;
    var end, parts := [CLOSE_ARRAY] + rest, RenderItems(items);
    CommaJoinFirst(parts, end);
    if |items| == 1 {
      ReadPrinted(items[0], end);
      assert items == [items[0]];
      ReadItemsStep(parts[0] + end, items[0], rest, [], []);
    } else {
      assert parts[1..] == RenderItems(items[1..]);
      var tail := CommaJoin(parts[1..]) + end;
      ReadPrinted(items[0], [COMMA] + tail);
      ReadPrintedItems(items[1..], rest);
      PrintedHead(items[1]);
      CommaJoinFirst(parts[1..], end);
      assert tail[0] == Render(items[1])[0];
      assert items == [items[0]] + items[1..];
      ReadItemsStep(parts[0] + ([COMMA] + tail), items[0], tail, items[1..], rest);
    }
  }

  lemma {:induction false} ReadPrintedObject(fields: seq<Field<Json>>, rest: Text)
    requires StrictlySorted(fields) && forall i :: 0 <= i < |fields| ==> Ordered(fields[i].value)
    ensures SortByKey(RenderFields(fields)) == RenderFields(fields)
    ensures var body := CommaJoin(MemberTexts(RenderFields(fields))) + ([CLOSE_OBJECT] + rest);
            ReadObject(SkipSpace(body)) == Some((Obj(fields), rest))
    decreases fields, 2
  {
    SortedRendersInOrder(fields);
    SortedHasUniqueKeys(fields);
    var parts := MemberTexts(RenderFields(fields));
    var body := CommaJoin(parts) + ([CLOSE_OBJECT] + rest);
    if fields == [] {
      assert body == [CLOSE_OBJECT] + rest;
    } else {
      CommaJoinFirst(parts, [CLOSE_OBJECT] + rest);
      assert body[0] == QUOTE;
      ReadPrintedMembers(fields, rest);
    }
  }

  lemma ReadMembersStep(t: Text, key: Text, body: Text, v: Json, rest: Text, ms: seq<Field<Json>>, end: Text)
    requires StartsWith(t, QUOTE) && ReadString(t[1..]) == Some((key, [COLON] + body)) && SkipSpace(body) == body
    ensures ReadValue(body) == Some((v, [CLOSE_OBJECT] + rest)) ==> ReadMembers(t) == Some(([Field(key, v)], rest))
    ensures ReadValue(body) == Some((v, [COMMA] + rest)) && SkipSpace(rest) == rest && ReadMembers(rest) == Some((ms, end))
            ==> ReadMembers(t) == Some(([Field(key, v)] + ms, end))
  {
    assert ([CLOSE_OBJECT] + rest)[1..] == rest;
    assert ([COMMA] + rest)[1..] == rest;
    assert ([COLON] + body)[1..] == body;
  }

  lemma {:induction false} ReadPrintedMembers(fields: seq<Field<Json>>, rest: Text)
    requires fields != [] && forall i :: 0 <= i < |fields| ==> Ordered(fields[i].value)
    ensures ReadMembers(CommaJoin(MemberTexts(RenderFields(fields))) + ([CLOSE_OBJECT] + rest))
            == Some((fields, rest))
    decreases fields, 1
  {
    hide ReadValue, ReadMembers, ReadString, Ordered, CommaJoin, MemberText, Render, SkipSpace;
    var end, parts := [CLOSE_OBJECT] + rest, MemberTexts(RenderFields(fields));
    var key, v := fields[0].key, fields[0].value;
    CommaJoinFirst(parts, end);
    assert parts[0] == MemberText(Field(key, Render(v)));
    if |fields| == 1 {
      ReadMember(key, v, end);
      assert fields == [Field(key, v)];
      ReadMembersStep(parts[0] + end, key, Render(v) + end, v, rest, [], []);
    } else {
      assert RenderFields(fields)[1..] == RenderFields(fields[1..]);
      assert parts[1..] == MemberTexts(RenderFields(fields[1..]));
      var tail := CommaJoin(parts[1..]) + end;
      ReadMember(key, v, [COMMA] + tail);
      ReadPrintedMembers(fields[1..], rest);
      ReadMembersStartQuote(tail);
      assert fields == [Field(key, v)] + fields[1..];
      ReadMembersStep(parts[0] + ([COMMA] + tail), key, Render(v) + ([COMMA] + tail), v, tail, fields[1..], rest);
    }
  }

  lemma ReadMembersStartQuote(t: Text)
    requires ReadMembers(t).Some?
    ensures SkipSpace(t) == t
  {
  }

  /** The key, the colon and the value of one printed member. */
  lemma {:induction false} ReadMember(key: Text, v: Json, rest: Text)
    requires Ordered(v) && Stops(rest)
    ensures var t := MemberText(Field(key, Render(v))) + rest;
            StartsWith(t, QUOTE) && ReadString(t[1..]) == Some((key, [COLON] + (Render(v) + rest)))
    ensures SkipSpace(Render(v) + rest) == Render(v) + rest
    ensures ReadValue(Render(v) + rest) == Some((v, rest))
    decreases v, 3
  {
    ReadQuoted(key, [COLON] + (Render(v) + rest));
    Associative(Quoted(key), [COLON], Render(v));
    Associative(Quoted(key), [COLON] + Render(v), rest);
    Associative([COLON], Render(v), rest);
    PrintedHead(v);
    ReadPrinted(v, rest);
  }

  // ----- the main results -----

  /** Printing and reading back sorts the keys and changes nothing else. */
  lemma LoadsRender(v: Json)
    requires WellFormed(v)
    ensures Loads(Render(v)) == Some(Normalize(v))
  {
    var w := Normalize(v);
    RenderNormalizes(v);
    NormalizeOrders(v);
    ReadPrinted(w, []);
    assert Render(w) + [] == Render(w);
    PrintedHead(w);
  }

  /**
   * The canonical text is unambiguous: two values print alike exactly when they
   * are equal up to key order, which is exactly when the engine calls them equal.
   */
  lemma RenderIsUnambiguous(a: Json, b: Json)
    requires WellFormed(a) && WellFormed(b)
    ensures Render(a) == Render(b) <==> Normalize(a) == Normalize(b)
    ensures Render(a) == Render(b) <==> Equal(a, b)
  {
    LoadsRender(a);
    LoadsRender(b);
    RenderNormalizes(a);
    RenderNormalizes(b);
    EqualIsSameNormalForm(a, b);
  }

  // ----- stored bytes -----

  lemma {:induction false} EncodableConcat(s: Text, t: Text)
    ensures Encodable(s + t) <==> Encodable(s) && Encodable(t)
  {
    if Encodable(s + t) {
      forall i | 0 <= i < |s| ensures !Surrogate(s[i]) {
        assert (s + t)[i] == s[i];
      }
      forall i | 0 <= i < |t| ensures !Surrogate(t[i]) {
        assert (s + t)[|s| + i] == t[i];
      }
    }
  }

  lemma {:induction false} EscapeEncodable(t: Text)
    requires Encodable(t)
    ensures Encodable(Escape(t))
  {
    if t != [] {
      EscapeEncodable(t[1..]);
      EncodableConcat(EscapeOne(t[0]), Escape(t[1..]));
    }
  }

  lemma QuotedEncodable(t: Text)
    requires Encodable(t)
    ensures Encodable(Quoted(t))
  {
    EscapeEncodable(t);
  }

  lemma {:induction false} CommaJoinEncodable(parts: seq<Text>)
    requires forall i :: 0 <= i < |parts| ==> Encodable(parts[i])
    ensures Encodable(CommaJoin(parts))
  {
    if |parts| > 1 {
      CommaJoinEncodable(parts[1..]);
      EncodableConcat(parts[0], [COMMA]);
      EncodableConcat(parts[0] + [COMMA], CommaJoin(parts[1..]));
    }
  }

  lemma MemberEncodable(member: Field<Text>)
    requires Encodable(member.key) && Encodable(member.value)
    ensures Encodable(MemberText(member))
  {
    EscapeEncodable(member.key);
    EncodableConcat(Quoted(member.key), [COLON]);
    EncodableConcat(Quoted(member.key) + [COLON], member.value);
  }

  lemma {:induction false} MemberTextsAt(members: seq<Field<Text>>, i: nat)
    requires i < |members|
    ensures MemberTexts(members)[i] == MemberText(members[i])
  {
    if i > 0 {
      MemberTextsAt(members[1..], i - 1);
    }
  }

  /** A value whose strings are encodable prints as text UTF-8 can encode. */
  lemma {:induction false} RenderEncodable(v: Json)
    requires Clean(v)
    ensures Encodable(Render(v))
    decreases v, 1
  {
    match v
    case Int(n) => DigitsAreDigits(if n < 0 then -n else n);
    case Str(t) => QuotedEncodable(t);
    case Arr(items) =>
      ItemsEncodable(items);
      BracketedEncodable(OPEN_ARRAY, CommaJoin(RenderItems(items)), CLOSE_ARRAY);
    case Obj(fields) =>
      MembersEncodable(fields);
      BracketedEncodable(OPEN_OBJECT, CommaJoin(MemberTexts(SortByKey(RenderFields(fields)))), CLOSE_OBJECT);
    case _ =>
  }

  lemma BracketedEncodable(open: CodePoint, inner: Text, close: CodePoint)
    requires Encodable(inner) && !Surrogate(open) && !Surrogate(close)
    ensures Encodable([open] + inner + [close])
  {
    EncodableConcat([open], inner);
    EncodableConcat([open] + inner, [close]);
  }

  lemma {:induction false} ItemsEncodable(items: seq<Json>)
    requires Clean(Arr(items))
    ensures Encodable(CommaJoin(RenderItems(items)))
    decreases items, 0
  {
    hide Encodable, Render, CommaJoin;
    forall i | 0 <= i < |items| ensures Encodable(RenderItems(items)[i]) {
      RenderEncodable(items[i]);
      RenderItemsAt(items, i);
    }
    CommaJoinEncodable(RenderItems(items));
  }

  lemma {:induction false} MembersEncodable(fields: seq<Field<Json>>)
    requires Clean(Obj(fields))
    ensures Encodable(CommaJoin(MemberTexts(SortByKey(RenderFields(fields)))))
    decreases fields, 0
  {
    hide Encodable, Render, CommaJoin, SortByKey, RenderFields, MemberTexts, MemberText;
    var members := SortByKey(RenderFields(fields));
    forall i | 0 <= i < |members| ensures Encodable(MemberTexts(members)[i]) {
      MemberTextsAt(members, i);
      var j := SortedMembers(RenderFields(fields), i);
      RenderFieldsAt(fields, j);
      RenderEncodable(fields[j].value);
      MemberEncodable(members[i]);
    }
    CommaJoinEncodable(MemberTexts(members));
  }

  lemma {:induction false} ReadIsWellFormed(t: Text)
    requires ReadValue(t).Some?
    ensures WellFormed(ReadValue(t).value.0)
    decreases |t|, 0
  {
    if t[0] == OPEN_ARRAY {
      var u := SkipSpace(t[1..]);
      if !StartsWith(u, CLOSE_ARRAY) {
        ReadItemsAreWellFormed(u);
      }
    } else if t[0] == OPEN_OBJECT {
      var u := SkipSpace(t[1..]);
      if !StartsWith(u, CLOSE_OBJECT) {
        ReadMembersAreWellFormed(u);
      }
    }
  }

  lemma {:induction false} ReadItemsAreWellFormed(t: Text)
    requires ReadItems(t).Some?
    ensures forall i :: 0 <= i < |ReadItems(t).value.0| ==> WellFormed(ReadItems(t).value.0[i])
    decreases |t|, 1
  {
    ReadIsWellFormed(t);
    var u := SkipSpace(ReadValue(t).value.1);
    if StartsWith(u, COMMA) {
      ReadItemsAreWellFormed(SkipSpace(u[1..]));
    }
  }

  lemma {:induction false} ReadMembersAreWellFormed(t: Text)
    requires ReadMembers(t).Some?
    ensures forall i :: 0 <= i < |ReadMembers(t).value.0| ==> WellFormed(ReadMembers(t).value.0[i].value)
    decreases |t|, 1
  {
    var u := SkipSpace(SkipSpace(ReadString(t[1..]).value.1)[1..]);
    ReadIsWellFormed(u);
    var w := SkipSpace(ReadValue(u).value.1);
    if StartsWith(w, COMMA) {
      ReadMembersAreWellFormed(SkipSpace(w[1..]));
    }
  }

  /** `canonical_json_bytes`, which refuses a lone surrogate. */
  function CanonicalBytes(v: Json): Option<seq<Byte>> {
    if Clean(v) then Some(Utf8Encode(Render(v))) else None
  }

  /** `json_from_bytes`. */
  function JsonFromBytes(raw: seq<Byte>, requireCanonical: bool, maxBytes: nat): Option<Json> {
    if |raw| > maxBytes then None
    else
      match Utf8Decode(raw)
      case None => None
      case Some(t) =>
        match Loads(t)
        case None => None
        case Some(v) => if requireCanonical && CanonicalBytes(v) != Some(raw) then None else Some(v)
  }

  /**
   * What is stored is what is read: the bytes of a value decode to its normal
   * form, and they pass the canonical-form check that guards every stored record.
   */
  lemma StoredRoundTrip(v: Json, requireCanonical: bool, maxBytes: nat)
    requires WellFormed(v) && Clean(v)
    ensures var raw := Utf8Encode(Render(v));
            JsonFromBytes(raw, requireCanonical, maxBytes)
            == if |raw| > maxBytes then None else Some(Normalize(v))
  {
    RenderEncodable(v);
    Utf8RoundTrip(Render(v));
    LoadsRender(v);
    RenderNormalizes(v);
    NormalizeClean(v);
  }

  lemma {:induction false} NormalizeClean(v: Json)
    requires Clean(v)
    ensures Clean(Normalize(v))
  {
    match v
    case Arr(items) =>
      forall i | 0 <= i < |items| ensures Clean(NormalizeItems(items)[i]) {
        NormalizeClean(items[i]);
        NormalizeItemsAt(items, i);
      }
    case Obj(fields) =>
      var ns := NormalizeFields(fields);
      forall i | 0 <= i < |ns| ensures Encodable(SortByKey(ns)[i].key) && Clean(SortByKey(ns)[i].value) {
        var j := SortedMembers(ns, i);
        NormalizeFieldsAt(fields, j);
        NormalizeClean(fields[j].value);
      }
    case _ =>
  }

  /** The canonical-form check accepts one byte sequence per value: the printed one. */
  lemma CanonicalBytesAreUnique(raw: seq<Byte>, v: Json, maxBytes: nat)
    requires |raw| <= maxBytes
    ensures JsonFromBytes(raw, true, maxBytes) == Some(v)
            <==> WellFormed(v) && Ordered(v) && CanonicalBytes(v) == Some(raw)
  {
    if WellFormed(v) && Ordered(v) && CanonicalBytes(v) == Some(raw) {
      StoredRoundTrip(v, true, maxBytes);
      NormalizeOrdered(v);
    } else if JsonFromBytes(raw, true, maxBytes) == Some(v) {
      var t := Utf8Decode(raw).value;
      Utf8DecodeExact(raw);
      RenderEncodable(v);
      Utf8RoundTrip(Render(v));
      ReadIsWellFormed(SkipSpace(t));
      LoadsRender(v);
      NormalizeOrders(v);
    }
  }
}
