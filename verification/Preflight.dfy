/**
 * The size predictions are exact: `replace`, `split`, `join` and `concat` raise
 * the output limit precisely when the value they would build exceeds it.
 */
module Preflight {
  import opened Texts
  import opened Json
  import opened Limits
  import opened Sizing
  import opened Ir
  import opened Operators
  import TextOps

  /** Either the value, or the output error exactly when the value is too large. */
  function Limited(v: Json, limits: Limits): Result<Json> {
    if JsonSize(v) > limits.maxOutputBytes then Err(OutputLimit) else Ok(v)
  }

  predicate AllEncodable(parts: seq<Text>) {
    forall i :: 0 <= i < |parts| ==> Encodable(parts[i])
  }

  lemma ContentBytesExact(t: Text)
    ensures ContentBytes(t) == if Encodable(t) then Ok(ContentSize(t)) else Err(InvalidString)
  {
    hide ScanContent, ContentSize;
    ScanContentExact(t, 0, None);
  }

  lemma ReplacePredictsSize(source: Text, target: Text, fill: Text)
    ensures ReplacePrediction(source, target, fill)
            == if Encodable(source) && Encodable(target) && Encodable(fill)
               then Ok(ContentSize(TextOps.Replace(source, target, fill)))
               else Err(InvalidString)
  {
    hide ContentBytes, ContentSize, TextOps.Count, TextOps.Replace;
    ContentBytesExact(source);
    ContentBytesExact(target);
    ContentBytesExact(fill);
    TextOps.ReplaceSize(source, target, fill);
  }

  /** `replace`, for an empty `old` as well as for a non-empty one. */
  lemma ReplaceIsExact(source: Text, target: Text, fill: Text, limits: Limits)
    requires Encodable(source) && Encodable(target) && Encodable(fill)
    ensures ReplaceOf([Str(source), Str(target), Str(fill)], limits)
            == Limited(Str(TextOps.Replace(source, target, fill)), limits)
  {
    hide ReplacePrediction, ContentSize, TextOps.Replace;
    ReplacePredictsSize(source, target, fill);
  }

  lemma SplitPredictsSize(source: Text, separator: Text)
    requires separator != []
    ensures SplitPrediction(source, separator)
            == if Encodable(source) && Encodable(separator)
               then Ok(JsonSize(Arr(TextOps.Strings(TextOps.Split(source, separator)))))
               else Err(InvalidString)
  {
    hide ContentBytes, ContentSize, TextOps.Count, TextOps.Split, JsonSize;
    ContentBytesExact(source);
    ContentBytesExact(separator);
    TextOps.SplitSize(source, separator);
  }

  lemma SplitIsExact(source: Text, separator: Text, limits: Limits)
    requires Encodable(source) && Encodable(separator)
    requires separator != [] && |TextOps.Split(source, separator)| <= limits.maxItems
    ensures SplitOf([Str(source), Str(separator)], limits)
            == Limited(Arr(TextOps.Strings(TextOps.Split(source, separator))), limits)
  {
    hide SplitPrediction, JsonSize, TextOps.Split, TextOps.Count;
    SplitPredictsSize(source, separator);
    TextOps.SplitHasCountPlusOne(source, separator);
  }

  lemma {:induction false} PartsBytesExact(parts: seq<Text>, total: int, limits: Limits)
    requires AllEncodable(parts)
    ensures PartsBytes(parts, total, limits)
            == if parts != [] && total + TextOps.PartsSize(parts) + 2 > limits.maxOutputBytes
               then Err(OutputLimit) else Ok(total + TextOps.PartsSize(parts))
    decreases |parts|
  {
    hide ContentBytes, ContentSize;
    if parts != [] {
      ContentBytesExact(parts[0]);
      assert AllEncodable(parts[1..]) by {
        assert forall i :: 0 <= i < |parts[1..]| ==> parts[1..][i] == parts[i + 1];
      }
      PartsBytesExact(parts[1..], total + ContentSize(parts[0]), limits);
    }
  }

  lemma ProductNonNegative(a: nat, b: int)
    requires b >= 0
    ensures a * b >= 0
  {
  }

  lemma PreflightExact(parts: seq<Text>, separator: Text, limits: Limits)
    requires AllEncodable(parts) && Encodable(separator) && parts != []
    ensures PreflightParts(parts, Some(separator), limits).Ok?
            <==> JsonSize(Str(TextOps.Join(separator, parts))) <= limits.maxOutputBytes
    ensures PreflightParts(parts, Some(separator), limits).Err? ==>
              PreflightParts(parts, Some(separator), limits).code == OutputLimit
  {
    hide PartsBytes, ContentBytes, ContentSize, TextOps.Join;
    PartsBytesExact(parts, 0, limits);
    ContentBytesExact(separator);
    TextOps.JoinSize(separator, parts);
    ProductNonNegative(ContentSize(separator), |parts| - 1);
  }

  lemma {:induction false} AsTextsOfStrings(parts: seq<Text>)
    ensures AsTexts(TextOps.Strings(parts)) == Ok(parts)
  {
    if parts != [] {
      AsTextsOfStrings(parts[1..]);
      assert TextOps.Strings(parts)[1..] == TextOps.Strings(parts[1..]);
      assert [parts[0]] + parts[1..] == parts;
    }
  }

  /**
   * `join`, whose separator is counted only between parts: the prediction alone,
   * before the charge of the arguments.  It is exact unless nothing is joined,
   * since no budget is then checked; an evaluation never gets there, because a
   * limit below two bytes already stops its first argument.
   */
  lemma JoinIsExact(separator: Text, parts: seq<Text>, limits: Limits)
    requires AllEncodable(parts) && Encodable(separator) && |parts| <= limits.maxItems
    ensures (JoinOf([Str(separator), Arr(TextOps.Strings(parts))], limits) == Limited(Str(TextOps.Join(separator, parts)), limits))
            <==> (parts != [] || limits.maxOutputBytes >= 2)
  {
    hide PreflightParts, ContentSize, AsTexts;
    AsTextsOfStrings(parts);
    if parts != [] {
      hide TextOps.Join, TextOps.Strings;
      PreflightExact(parts, separator, limits);
    } else {
      assert PreflightParts([], Some(separator), limits) == Ok(0) by {
        NothingToJoin(separator, limits);
      }
      TextOps.EmptyContent();
    }
  }

  lemma NothingToJoin(separator: Text, limits: Limits)
    ensures PreflightParts([], Some(separator), limits) == Ok(0)
  {
  }

  /** `concat` is a join with nothing in between, and has the same one exception. */
  lemma ConcatIsExact(parts: seq<Text>, limits: Limits)
    requires AllEncodable(parts)
    ensures (ConcatOf(TextOps.Strings(parts), limits) == Limited(Str(TextOps.Join([], parts)), limits))
            <==> (parts != [] || limits.maxOutputBytes >= 2)
  {
    hide ContentSize, AsTexts, PartsBytes;
    AsTextsOfStrings(parts);
    PartsBytesExact(parts, 0, limits);
    TextOps.JoinSize([], parts);
    TextOps.EmptyContent();
  }

  /** Splitting and then joining with the same separator gives the source string back. */
  lemma SplitThenJoin(source: Text, separator: Text, limits: Limits)
    requires separator != [] && SplitOf([Str(source), Str(separator)], limits).Ok?
    ensures JoinOf([Str(separator), SplitOf([Str(source), Str(separator)], limits).value], limits)
            == Limited(Str(source), limits)
  {
    hide SplitPrediction, TextOps.Count, JsonSize, TextOps.Split, JoinOf;
    var parts := TextOps.Split(source, separator);
    SplitPredictsSize(source, separator);
    TextOps.SplitHasCountPlusOne(source, separator);
    PartsEncodable(source, separator);
    JoinIsExact(separator, parts, limits);
    TextOps.JoinUndoesSplit(source, separator);
  }

  lemma {:induction false} PartsEncodable(source: Text, separator: Text)
    requires separator != [] && Encodable(source)
    ensures AllEncodable(TextOps.Split(source, separator))
    decreases |source|
  {
    if source != [] {
      var n := if separator <= source then |separator| else 1;
      assert Encodable(source[n..]) by {
        assert forall i :: 0 <= i < |source[n..]| ==> source[n..][i] == source[n + i];
      }
      PartsEncodable(source[n..], separator);
      var rest := TextOps.Split(source[n..], separator);
      if !(separator <= source) {
        assert rest[0] == TextOps.Split(source[1..], separator)[0];
        assert forall i :: 0 <= i < |[source[0]] + rest[0]| ==>
          ([source[0]] + rest[0])[i] == if i == 0 then source[0] else rest[0][i - 1];
      }
    }
  }
}
