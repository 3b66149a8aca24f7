/**
 * The eager operators of Crystal IR: what each does to argument values that
 * have already been computed, under the resource limits.
 */
module Operators {
  import opened Texts
  import opened Json
  import opened Limits
  import opened Sizing
  import opened TextOps
  import opened Ir

  /** The Unicode library calls, which this model takes as parameters. */
  datatype Strings = Strings(lower: Text -> Text, upper: Text -> Text, strip: Text -> Text)

  // ----- shared checks -----

  function Argument(values: seq<Json>, i: nat): Result<Json> {
    if i < |values| then Ok(values[i]) else Err(Crash)
  }

  function AsText(v: Json): Result<Text> {
    if v.Str? then Ok(v.text) else Err(TypeMismatch)
  }

  function AsInt(v: Json): Result<int> {
    if v.Int? then Ok(v.number) else Err(TypeMismatch)
  }

  function AsBool(v: Json): Result<bool> {
    if v.Bool? then Ok(v.flag) else Err(TypeMismatch)
  }

  function AsArray(v: Json, limits: Limits): Result<seq<Json>> {
    if !v.Arr? then Err(TypeMismatch)
    else if |v.items| > limits.maxItems then Err(CollectionLimit)
    else Ok(v.items)
  }

  /** `_number_result`. */
  function NumberResult(n: int, limits: Limits): Result<int> {
    if BitLength(n) > limits.maxIntegerBits then Err(IntegerLimit) else Ok(n)
  }

  /** `_string_content_size`, with no early stop. */
  function ContentBytes(t: Text): Result<int> {
    ScanContent(t, 0, None)
  }

  /** `_ensure_string_content_size`. */
  function EnsureContent(size: int, limits: Limits): Result<int> {
    if size + 2 > limits.maxOutputBytes then Err(OutputLimit) else Ok(size)
  }

  function BoundedString(t: Text, limits: Limits): Result<Json> {
    var size :- ScanContent(t, 0, Some(if limits.maxOutputBytes >= 2 then limits.maxOutputBytes - 2 else 0));
    var fits :- EnsureContent(size, limits);
    Ok(Str(t))
  }

  // ----- numbers -----

  function AsInts(values: seq<Json>): Result<seq<int>> {
    if values == [] then Ok([])
    else
      var n :- AsInt(values[0]);
      var ns :- AsInts(values[1..]);
      Ok([n] + ns)
  }

  /** The running sum, checked after each addition. */
  function AddFrom(acc: int, ns: seq<int>, limits: Limits): Result<int>
    decreases |ns|
  {
    if ns == [] then Ok(acc)
    else
      var next :- NumberResult(acc + ns[0], limits);
      AddFrom(next, ns[1..], limits)
  }

  function MultiplyFrom(acc: int, ns: seq<int>, limits: Limits): Result<int>
    decreases |ns|
  {
    if ns == [] then Ok(acc)
    else
      var next :- NumberResult(acc * ns[0], limits);
      MultiplyFrom(next, ns[1..], limits)
  }

  function Abs(n: int): nat {
    if n < 0 then -n else n
  }

  /** Python's `%`, whose result takes the sign of the divisor. */
  function FloorMod(a: int, b: int): int
    requires b != 0
  {
    if b > 0 then a % b else -((-a) % (-b))
  }

  /** Python's `round(n, -k)`: to a multiple of `p`, a tie going to the even multiple. */
  function RoundToMultiple(n: int, p: nat): int
    requires p > 0
  {
    var q, r := n / p, n % p;
    if 2 * r < p || (2 * r == p && q % 2 == 0) then q * p else (q + 1) * p
  }

  function Least(ns: seq<int>): int
    requires ns != []
  {
    if |ns| == 1 then ns[0] else var m := Least(ns[1..]); if m < ns[0] then m else ns[0]
  }

  function Greatest(ns: seq<int>): int
    requires ns != []
  {
    if |ns| == 1 then ns[0] else var m := Greatest(ns[1..]); if m > ns[0] then m else ns[0]
  }

  /** Python's `%`: with some quotient it rebuilds the dividend, and it lies between zero and the divisor. */
  lemma FloorModLaw(a: int, b: int) returns (q: int)
    requires b != 0
    ensures a == b * q + FloorMod(a, b)
    ensures if b > 0 then 0 <= FloorMod(a, b) < b else b < FloorMod(a, b) <= 0
  {
    if b > 0 {
      q := a / b;
    } else {
      q := (-a) / (-b);
      assert -a == (-b) * q + (-a) % (-b);
    }
  }

  /** Rounding goes to a nearest multiple, and from a tie to the even one. */
  lemma RoundsToNearestEven(n: int, p: int) returns (q: int)
    requires p > 0
    ensures RoundToMultiple(n, p) == q * p
    ensures -p <= 2 * (n - q * p) <= p
    ensures 2 * (n - q * p) == p || 2 * (n - q * p) == -p ==> q % 2 == 0
  {
    var low, r := n / p, n % p;
    assert n == low * p + r;
    q := if 2 * r < p || (2 * r == p && low % 2 == 0) then low else low + 1;
    assert (low + 1) * p == low * p + p;
  }

  lemma {:induction false} LeastIsMinimum(ns: seq<int>)
    requires ns != []
    ensures Least(ns) in ns && forall i :: 0 <= i < |ns| ==> Least(ns) <= ns[i]
    ensures Greatest(ns) in ns && forall i :: 0 <= i < |ns| ==> ns[i] <= Greatest(ns)
  {
    if |ns| > 1 {
      LeastIsMinimum(ns[1..]);
      assert forall i :: 0 < i < |ns| ==> ns[i] == ns[1..][i - 1];
    }
  }

  function Number(ns: seq<int>, i: nat): Result<int> {
    if i < |ns| then Ok(ns[i]) else Err(Crash)
  }

  function PowerOf(base: int, exponent: int, limits: Limits): Result<int> {
    if Abs(exponent) > limits.maxExponent then Err(PowerLimit)
    else if exponent > 0 && base != 0 && BitLength(base) * exponent > limits.maxIntegerBits then Err(IntegerLimit)
    else if exponent < 0 then (if base == 0 then Err(DivisionByZero) else Err(FloatResult))
    else NumberResult(Power(base, exponent), limits)
  }

  function RoundOf(ns: seq<int>, limits: Limits): Result<int> {
    var n :- Number(ns, 0);
    if |ns| == 1 then NumberResult(n, limits)
    else
      var digits :- Number(ns, 1);
      if Abs(digits) > limits.maxRoundDigits then Err(RoundLimit)
      else if digits >= 0 then NumberResult(n, limits)
      else
        TenPositive(-digits);
        NumberResult(RoundToMultiple(n, Power(10, -digits)), limits)
  }

  lemma TenPositive(e: nat)
    ensures Power(10, e) > 0
  {
    PowerPositive(10, e);
  }

  /** `_numeric`. */
  function Numeric(op: Op, values: seq<Json>, limits: Limits): Result<int> {
    var ns :- AsInts(values);
    match op
    case Add => var first :- Number(ns, 0); AddFrom(first, ns[1..], limits)
    case Mul => var first :- Number(ns, 0); MultiplyFrom(first, ns[1..], limits)
    case Sub => var a :- Number(ns, 0); var b :- Number(ns, 1); NumberResult(a - b, limits)
    case Div =>
      var b :- Number(ns, 1);
      if b == 0 then Err(DivisionByZero) else Err(FloatResult)
    case Mod =>
      var b :- Number(ns, 1);
      if b == 0 then Err(DivisionByZero) else NumberResult(FloorMod(ns[0], b), limits)
    case Pow => var e :- Number(ns, 1); PowerOf(ns[0], e, limits)
    case Round => RoundOf(ns, limits)
    case Min => if ns == [] then Err(InvalidNumber) else NumberResult(Least(ns), limits)
    case Max => if ns == [] then Err(InvalidNumber) else NumberResult(Greatest(ns), limits)
    case _ => var n :- Number(ns, 0); NumberResult(Abs(n), limits)
  }

  // ----- strings -----

  function AsTexts(values: seq<Json>): Result<seq<Text>> {
    if values == [] then Ok([])
    else
      var t :- AsText(values[0]);
      var ts :- AsTexts(values[1..]);
      Ok([t] + ts)
  }

  /** The running content size of the parts, checked after each. */
  function PartsBytes(parts: seq<Text>, total: int, limits: Limits): Result<int>
    decreases |parts|
  {
    if parts == [] then Ok(total)
    else
      var size :- ContentBytes(parts[0]);
      var next :- EnsureContent(total + size, limits);
      PartsBytes(parts[1..], next, limits)
  }

  /** `_preflight_string_parts`. */
  function PreflightParts(parts: seq<Text>, separator: Option<Text>, limits: Limits): Result<int> {
    var total :- PartsBytes(parts, 0, limits);
    if separator.Some? && |parts| > 1 then
      var size :- ContentBytes(separator.value);
      EnsureContent(total + size * (|parts| - 1), limits)
    else Ok(total)
  }

  function ConcatOf(values: seq<Json>, limits: Limits): Result<Json> {
    var parts :- AsTexts(values);
    var size :- PreflightParts(parts, None, limits);
    Ok(Str(TextOps.Join([], parts)))
  }

  function ReplaceOf(values: seq<Json>, limits: Limits): Result<Json> {
    var v0 :- Argument(values, 0);
    var source :- AsText(v0);
    var v1 :- Argument(values, 1);
    var target :- AsText(v1);
    var v2 :- Argument(values, 2);
    var fill :- AsText(v2);
    var predicted :- ReplacePrediction(source, target, fill);
    var fits :- EnsureContent(predicted, limits);
    Ok(Str(TextOps.Replace(source, target, fill)))
  }

  /** The content size `replace` is predicted to have. */
  function ReplacePrediction(source: Text, target: Text, fill: Text): Result<int> {
    var sourceSize :- ContentBytes(source);
    var fillSize :- ContentBytes(fill);
    if target != [] then
      var targetSize :- ContentBytes(target);
      Ok(sourceSize + Count(source, target) * (fillSize - targetSize))
    else
      Ok(sourceSize + (|source| + 1) * fillSize)
  }

  function SplitOf(values: seq<Json>, limits: Limits): Result<Json> {
    var v0 :- Argument(values, 0);
    var source :- AsText(v0);
    var v1 :- Argument(values, 1);
    var separator :- AsText(v1);
    if separator == [] then Err(InvalidSeparator)
    else if Count(source, separator) + 1 > limits.maxItems then Err(CollectionLimit)
    else
      var predicted :- SplitPrediction(source, separator);
      if predicted > limits.maxOutputBytes then Err(OutputLimit)
      else Ok(Arr(TextOps.Strings(TextOps.Split(source, separator))))
  }

  /** The canonical size the array from `split` is predicted to have. */
  function SplitPrediction(source: Text, separator: Text): Result<int>
    requires separator != []
  {
    var sourceSize :- ContentBytes(source);
    var separatorSize :- ContentBytes(separator);
    var items := Count(source, separator) + 1;
    Ok(sourceSize - (items - 1) * separatorSize + 3 * items + 1)
  }

  function JoinOf(values: seq<Json>, limits: Limits): Result<Json> {
    var v0 :- Argument(values, 0);
    var separator :- AsText(v0);
    var v1 :- Argument(values, 1);
    var collection :- AsArray(v1, limits);
    var parts :- AsTexts(collection);
    var size :- PreflightParts(parts, Some(separator), limits);
    Ok(Str(TextOps.Join(separator, parts)))
  }

  function LengthOf(values: seq<Json>, limits: Limits): Result<Json> {
    var v :- Argument(values, 0);
    match v
    case Str(t) => Ok(Int(|t|))
    case Arr(items) => if |items| > limits.maxItems then Err(CollectionLimit) else Ok(Int(|items|))
    case Obj(fields) => if |fields| > limits.maxItems then Err(CollectionLimit) else Ok(Int(|fields|))
    case _ => Err(TypeMismatch)
  }

  /** Where a slice bound falls in a sequence of the given length. */
  function SliceBound(i: int, length: nat): (k: nat)
    ensures k <= length
  {
    if i < 0 then (if i + length < 0 then 0 else i + length) else if i > length then length else i
  }

  /** `s[start:end]`. */
  function SliceSeq<T>(s: seq<T>, start: int, end: Option<int>): seq<T> {
    var a := SliceBound(start, |s|);
    var b := if end.None? then |s| else SliceBound(end.value, |s|);
    if a <= b then s[a..b] else []
  }

  /** A slice holds exactly the elements at the positions from `start` to before `end`, each counted from the end if negative. */
  lemma SliceIsRange<T>(s: seq<T>, start: int, end: Option<int>)
    ensures var low := if start < 0 then start + |s| else start;
            var high := if end.None? then |s| else if end.value < 0 then end.value + |s| else end.value;
            var first := if low < 0 then 0 else low;
            var r := SliceSeq(s, start, end);
            && (forall i :: 0 <= i < |s| && low <= i < high ==> 0 <= i - first < |r| && r[i - first] == s[i])
            && (forall k :: 0 <= k < |r| ==> 0 <= k + first < |s| && low <= k + first < high && r[k] == s[k + first])
  {
  }

  /** A cut at any position splits a sequence in two. */
  lemma SliceCuts<T>(s: seq<T>, cut: int)
    ensures SliceSeq(s, 0, Some(cut)) + SliceSeq(s, cut, None) == s
    ensures 0 <= cut <= |s| ==> |SliceSeq(s, 0, Some(cut))| == cut
    ensures 0 < -cut <= |s| ==> |SliceSeq(s, cut, None)| == -cut
  {
    var k := SliceBound(cut, |s|);
    assert s == s[..k] + s[k..];
  }

  function SliceOf(values: seq<Json>, limits: Limits): Result<Json> {
    var target :- Argument(values, 0);
    if !target.Str? && !target.Arr? then Err(TypeMismatch)
    else
      var v1 :- Argument(values, 1);
      var start :- AsInt(v1);
      var end :- if |values| == 3 then SliceEnd(values[2]) else Ok(None);
      if target.Str? then BoundedString(SliceSeq(target.text, start, end), limits)
      else
        var items := SliceSeq(target.items, start, end);
        if |items| > limits.maxItems then Err(CollectionLimit) else Ok(Arr(items))
  }

  function SliceEnd(v: Json): Result<Option<int>> {
    var n :- AsInt(v);
    Ok(Some(n))
  }

  // ----- comparisons -----

  /** `_compare`: two numbers or two strings. */
  function CompareOf(op: Op, left: Json, right: Json): Result<Json> {
    if left.Int? && right.Int? then
      var a, b := left.number, right.number;
      Ok(Bool(if op.Lt? then a < b else if op.Lte? then a <= b else if op.Gt? then a > b else a >= b))
    else if left.Str? && right.Str? then
      var a, b := left.text, right.text;
      Ok(Bool(if op.Lt? then Below(a, b) else if op.Lte? then !Below(b, a)
              else if op.Gt? then Below(b, a) else !Below(a, b)))
    else Err(TypeMismatch)
  }

  /**
   * What can be compared is totally ordered: exactly one of less, equal and
   * greater holds, and the other comparisons follow from these.
   */
  lemma CompareIsTotal(a: Json, b: Json)
    requires CompareOf(Lt, a, b).Ok?
    ensures var lt, gt := CompareOf(Lt, a, b).value.flag, CompareOf(Gt, a, b).value.flag;
            && !(lt && gt)
            && (Equal(a, b) <==> !lt && !gt)
            && CompareOf(Lte, a, b) == Ok(Bool(lt || Equal(a, b)))
            && CompareOf(Gte, a, b) == Ok(Bool(gt || Equal(a, b)))
            && CompareOf(Gt, b, a) == Ok(Bool(lt))
  {
    if a.Str? {
      BelowTrichotomy(a.text, b.text);
    }
  }

  function EqualityOf(op: Op, values: seq<Json>): Result<Json> {
    var left :- Argument(values, 0);
    var right :- Argument(values, 1);
    if op.Eq? then Ok(Bool(Equal(left, right)))
    else if op.Ne? then Ok(Bool(!Equal(left, right)))
    else CompareOf(op, left, right)
  }

  function NotOf(values: seq<Json>): Result<Json> {
    var v :- Argument(values, 0);
    var b :- AsBool(v);
    Ok(Bool(!b))
  }

  function CaseOf(op: Op, values: seq<Json>, strings: Strings, limits: Limits): Result<Json> {
    var v :- Argument(values, 0);
    var t :- AsText(v);
    BoundedString(if op.Lower? then strings.lower(t) else if op.Upper? then strings.upper(t) else strings.strip(t), limits)
  }

  predicate IsNumeric(op: Op) {
    op.Add? || op.Sub? || op.Mul? || op.Div? || op.Mod? || op.Pow? || op.Round? || op.Min? || op.Max? || op.Abs?
  }

  /** The dispatch after the arguments have been evaluated. */
  function ApplyOp(op: Op, values: seq<Json>, strings: Strings, limits: Limits): Result<Json> {
    if IsNumeric(op) then
      var n :- Numeric(op, values, limits);
      Ok(Int(n))
    else
      match op
      case Concat => ConcatOf(values, limits)
      case Replace => ReplaceOf(values, limits)
      case Split => SplitOf(values, limits)
      case Join => JoinOf(values, limits)
      case Length => LengthOf(values, limits)
      case Slice => SliceOf(values, limits)
      case Not => NotOf(values)
      case _ =>
        if op.Lower? || op.Upper? || op.Strip? then CaseOf(op, values, strings, limits)
        else EqualityOf(op, values)
  }
}
