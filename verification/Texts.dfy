/**
 * Python `str` values as sequences of code points, with the code-point order
 * that sorts object keys and the UTF-8 form that every byte limit counts.
 *
 * Unlike Dafny's own `char`, a code point here may be a lone surrogate, because
 * a Python string may hold one and the program has an error path for it.
 */
module Texts {

  datatype Option<+T> = None | Some(value: T)

  const MAX_CODE_POINT: int := 0x10FFFF

  type CodePoint = c: int | 0 <= c <= MAX_CODE_POINT
  type Text = seq<CodePoint>
  type Byte = b: int | 0 <= b < 0x100

  predicate Surrogate(c: CodePoint) {
    0xD800 <= c <= 0xDFFF
  }

  /** No lone surrogate: exactly the strings UTF-8 can encode. */
  predicate Encodable(t: Text) {
    forall i :: 0 <= i < |t| ==> !Surrogate(t[i])
  }

  /** The code points of a literal written in this source file. */
  function Ascii(s: string): Text
  {
    seq(|s|, i requires 0 <= i < |s| => s[i] as int)
  }

  // ----- code-point order -----

  /** Python's `a < b` on strings. */
  predicate Below(a: Text, b: Text)
  {
    b != [] && (a == [] || a[0] < b[0] || (a[0] == b[0] && Below(a[1..], b[1..])))
  }

  lemma {:induction false} BelowTransitive(a: Text, b: Text, c: Text)
    requires Below(a, b) && Below(b, c)
    ensures Below(a, c)
  {
    if a != [] && a[0] == b[0] == c[0] {
      BelowTransitive(a[1..], b[1..], c[1..]);
    }
  }

  /** Exactly one of `a < b`, `a == b`, `b < a` holds. */
  lemma {:induction false} BelowTrichotomy(a: Text, b: Text)
    ensures Below(a, b) ==> a != b && !Below(b, a)
    ensures !Below(a, b) && !Below(b, a) ==> a == b
  {
    if a != [] && b != [] && a[0] == b[0] {
      BelowTrichotomy(a[1..], b[1..]);
      assert a == [a[0]] + a[1..] && b == [b[0]] + b[1..];
    }
  }

  // ----- UTF-8 (RFC 3629, section 3) -----

  function Utf8Width(c: CodePoint): (n: nat)
    ensures 1 <= n <= 4
  {
    if c < 0x80 then 1 else if c < 0x800 then 2 else if c < 0x10000 then 3 else 4
  }

  function Utf8Length(t: Text): nat {
    if t == [] then 0 else Utf8Width(t[0]) + Utf8Length(t[1..])
  }

  lemma {:induction false} Utf8LengthConcat(s: Text, t: Text)
    ensures Utf8Length(s + t) == Utf8Length(s) + Utf8Length(t)
  {
    if s == [] {
      assert s + t == t;
    } else {
      assert (s + t)[1..] == s[1..] + t;
      Utf8LengthConcat(s[1..], t);
    }
  }

  function EncodeOne(c: CodePoint): seq<Byte> {
    var low, mid, high := c / 0x40, c / 0x40 / 0x40, c / 0x40 / 0x40 / 0x40;
    if c < 0x80 then [c]
    else if c < 0x800 then [0xC0 + low, 0x80 + c % 0x40]
    else if c < 0x10000 then [0xE0 + mid, 0x80 + low % 0x40, 0x80 + c % 0x40]
    else [0xF0 + high, 0x80 + mid % 0x40, 0x80 + low % 0x40, 0x80 + c % 0x40]
  }

  function Utf8Encode(t: Text): seq<Byte> {
    if t == [] then [] else EncodeOne(t[0]) + Utf8Encode(t[1..])
  }

  lemma {:induction false} Utf8EncodeLength(t: Text)
    ensures |Utf8Encode(t)| == Utf8Length(t)
  {
    if t != [] {
      Utf8EncodeLength(t[1..]);
    }
  }

  predicate Continuation(b: Byte) {
    0x80 <= b < 0xC0
  }

  function Low6(b: Byte): int {
    var i: int := b;
    i - 0x80
  }

  /** The number the payload bits of a lead byte and its continuation bytes spell. */
  function Payload(lead: int, tail: seq<Byte>): int
    decreases |tail|
  {
    if tail == [] then lead else Payload(lead * 0x40 + Low6(tail[0]), tail[1..])
  }

  /** The strict decoder: no overlong form, no surrogate, nothing above U+10FFFF. */
  function DecodeOne(bs: seq<Byte>): (r: Option<(CodePoint, seq<Byte>)>)
    requires bs != []
    ensures r.Some? ==> |r.value.1| < |bs|
  {
    var b: int := bs[0];
    var width := if b < 0x80 then 1 else if b < 0xE0 then 2 else if b < 0xF0 then 3 else 4;
    if 0x80 <= b < 0xC0 || |bs| < width || exists i :: 1 <= i < width && !Continuation(bs[i]) then
      None
    else
      var lead := if width == 1 then b else if width == 2 then b - 0xC0 else if width == 3 then b - 0xE0 else b - 0xF0;
      var c := Payload(lead, bs[1..width]);
      if 0 <= c <= MAX_CODE_POINT && !Surrogate(c) && Utf8Width(c) == width then Some((c, bs[width..])) else None
  }

  function Utf8Decode(bs: seq<Byte>): Option<Text>
    decreases |bs|
  {
    if bs == [] then Some([])
    else
      var first := DecodeOne(bs);
      if first.None? then None
      else
        var rest := Utf8Decode(first.value.1);
        if rest.None? then None else Some([first.value.0] + rest.value)
  }

  lemma PayloadUnfolds(lead: int, tail: seq<Byte>)
    ensures |tail| == 1 ==> Payload(lead, tail) == lead * 0x40 + Low6(tail[0])
    ensures |tail| == 2 ==> Payload(lead, tail) == (lead * 0x40 + Low6(tail[0])) * 0x40 + Low6(tail[1])
    ensures |tail| == 3 ==> Payload(lead, tail)
                            == ((lead * 0x40 + Low6(tail[0])) * 0x40 + Low6(tail[1])) * 0x40 + Low6(tail[2])
  {
    if |tail| == 2 || |tail| == 3 {
      var next := lead * 0x40 + Low6(tail[0]);
      assert tail[1..][0] == tail[1] && tail[1..][1..] == tail[2..];
      assert Payload(next, tail[1..]) == Payload(next * 0x40 + Low6(tail[1]), tail[2..]);
    }
  }

  lemma DecodeEncodeOne(c: CodePoint, rest: seq<Byte>)
    requires !Surrogate(c)
    ensures DecodeOne(EncodeOne(c) + rest) == Some((c, rest))
  {
    var code, bs := EncodeOne(c), EncodeOne(c) + rest;
    var n := |code|;
    assert bs[n..] == rest && bs[1..n] == code[1..];
    PayloadUnfolds(if n == 1 then c else if n == 2 then code[0] - 0xC0 else if n == 3 then code[0] - 0xE0 else code[0] - 0xF0, code[1..]);
  }

  /** Decoding what was encoded gives the text back, so no two texts share their bytes. */
  lemma {:induction false} Utf8RoundTrip(t: Text)
    requires Encodable(t)
    ensures Utf8Decode(Utf8Encode(t)) == Some(t)
  {
    if t != [] {
      DecodeEncodeOne(t[0], Utf8Encode(t[1..]));
      Utf8RoundTrip(t[1..]);
      assert t == [t[0]] + t[1..];
    }
  }

  lemma DecodeOneExact(bs: seq<Byte>)
    requires bs != [] && DecodeOne(bs).Some?
    ensures !Surrogate(DecodeOne(bs).value.0)
    ensures bs == EncodeOne(DecodeOne(bs).value.0) + DecodeOne(bs).value.1
  {
    var b: int := bs[0];
    var n := if b < 0x80 then 1 else if b < 0xE0 then 2 else if b < 0xF0 then 3 else 4;
    PayloadUnfolds(if n == 1 then b else if n == 2 then b - 0xC0 else if n == 3 then b - 0xE0 else b - 0xF0, bs[1..n]);
    assert EncodeOne(DecodeOne(bs).value.0) == bs[..n];
    assert bs == bs[..n] + bs[n..];
  }

  /** The decoder accepts a byte sequence only if it is the encoding of the text it returns. */
  lemma {:induction false} Utf8DecodeExact(bs: seq<Byte>)
    requires Utf8Decode(bs).Some?
    ensures Encodable(Utf8Decode(bs).value) && Utf8Encode(Utf8Decode(bs).value) == bs
    decreases |bs|
  {
    if bs != [] {
      DecodeOneExact(bs);
      var (c, rest) := DecodeOne(bs).value;
      Utf8DecodeExact(rest);
      var t := Utf8Decode(bs).value;
      assert t[1..] == Utf8Decode(rest).value;
    }
  }
}
