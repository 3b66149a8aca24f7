/**
 * Python's `str.count`, `split`, `replace` and `join`, and the closed-form size
 * predictions that the engine makes before it lets any of them allocate.
 */
module TextOps {
  import opened Texts
  import opened Json
  import opened Canonical
  import opened Sizing

  /** `s.split(sep)`: cut at each occurrence, left to right, without overlap. */
  function Split(s: Text, sep: Text): (parts: seq<Text>)
    requires sep != []
    ensures parts != []
    decreases |s|
  {
    if s == [] then [[]]
    else if sep <= s then [[]] + Split(s[|sep|..], sep)
    else
      var rest := Split(s[1..], sep);
      [[s[0]] + rest[0]] + rest[1..]
  }

  /** `s.count(sep)`. */
  function Count(s: Text, sep: Text): nat
    requires sep != []
    decreases |s|
  {
    if s == [] then 0
    else if sep <= s then 1 + Count(s[|sep|..], sep)
    else Count(s[1..], sep)
  }

  /** `sep.join(parts)`. */
  function Join(sep: Text, parts: seq<Text>): Text {
    if parts == [] then []
    else if |parts| == 1 then parts[0]
    else parts[0] + sep + Join(sep, parts[1..])
  }

  /** `s.replace(target, fill)` for a non-empty `target`. */
  function ReplaceEach(s: Text, target: Text, fill: Text): Text
    requires target != []
    decreases |s|
  {
    if s == [] then []
    else if target <= s then fill + ReplaceEach(s[|target|..], target, fill)
    else [s[0]] + ReplaceEach(s[1..], target, fill)
  }

  /** `s.replace("", fill)`: before every code point and once at the end. */
  function Interleave(s: Text, fill: Text): Text {
    if s == [] then fill else fill + [s[0]] + Interleave(s[1..], fill)
  }

  function Replace(s: Text, target: Text, fill: Text): Text {
    if target == [] then Interleave(s, fill) else ReplaceEach(s, target, fill)
  }

  // ----- what the operations mean -----

  lemma {:induction false} SplitHasCountPlusOne(s: Text, sep: Text)
    requires sep != []
    ensures |Split(s, sep)| == Count(s, sep) + 1
    decreases |s|
  {
    if s != [] {
      if sep <= s {
        SplitHasCountPlusOne(s[|sep|..], sep);
      } else {
        SplitHasCountPlusOne(s[1..], sep);
      }
    }
  }

  lemma JoinFirst(sep: Text, first: Text, parts: seq<Text>)
    requires parts != []
    ensures Join(sep, [first] + parts) == first + sep + Join(sep, parts)
  {
    assert ([first] + parts)[1..] == parts;
  }

  lemma JoinPrepend(sep: Text, c: CodePoint, parts: seq<Text>)
    requires parts != []
    ensures Join(sep, [[c] + parts[0]] + parts[1..]) == [c] + Join(sep, parts)
  {
    if |parts| > 1 {
      JoinFirst(sep, [c] + parts[0], parts[1..]);
      assert [c] + (parts[0] + sep + Join(sep, parts[1..])) == [c] + parts[0] + sep + Join(sep, parts[1..]);
    } else {
      assert [[c] + parts[0]] + parts[1..] == [[c] + parts[0]];
    }
  }

  /** Joining with another separator is replacing the old one. */
  lemma {:induction false} ReplaceIsJoinOfSplit(s: Text, target: Text, fill: Text)
    requires target != []
    ensures ReplaceEach(s, target, fill) == Join(fill, Split(s, target))
    decreases |s|
  {
    if s != [] {
      hide Join;
      if target <= s {
        var rest := Split(s[|target|..], target);
        ReplaceIsJoinOfSplit(s[|target|..], target, fill);
        JoinFirst(fill, [], rest);
        assert [] + fill == fill;
        assert Split(s, target) == [[]] + rest;
      } else {
        ReplaceIsJoinOfSplit(s[1..], target, fill);
        JoinPrepend(fill, s[0], Split(s[1..], target));
      }
    }
  }

  lemma {:induction false} ReplaceBySelf(s: Text, target: Text)
    requires target != []
    ensures ReplaceEach(s, target, target) == s
    decreases |s|
  {
    if s != [] {
      if target <= s {
        ReplaceBySelf(s[|target|..], target);
        assert s == target + s[|target|..];
      } else {
        ReplaceBySelf(s[1..], target);
        assert s == [s[0]] + s[1..];
      }
    }
  }

  /** Joining what was split gives the source back. */
  lemma JoinUndoesSplit(s: Text, sep: Text)
    requires sep != []
    ensures Join(sep, Split(s, sep)) == s
  {
    ReplaceIsJoinOfSplit(s, sep, sep);
    ReplaceBySelf(s, sep);
  }

  ghost predicate OccursAt(sep: Text, t: Text, k: nat) {
    k <= |t| && sep <= t[k..]
  }

  lemma {:induction false} FirstPartIsPrefix(s: Text, sep: Text)
    requires sep != []
    ensures Split(s, sep)[0] <= s
    decreases |s|
  {
    if s != [] && !(sep <= s) {
      FirstPartIsPrefix(s[1..], sep);
    }
  }

  /** No part still contains the separator. */
  lemma {:induction false} PartsLackSeparator(s: Text, sep: Text, i: nat, k: nat)
    requires sep != [] && i < |Split(s, sep)|
    ensures !OccursAt(sep, Split(s, sep)[i], k)
    decreases |s|
  {
    if s != [] {
      if sep <= s {
        if i > 0 {
          PartsLackSeparator(s[|sep|..], sep, i - 1, k);
        }
      } else if i > 0 {
        PartsLackSeparator(s[1..], sep, i, k);
      } else {
        var part := Split(s[1..], sep)[0];
        FirstPartIsPrefix(s[1..], sep);
        if k == 0 {
          assert s == [s[0]] + s[1..];
          assert [s[0]] + part <= s;
        } else {
          PartsLackSeparator(s[1..], sep, 0, k - 1);
          assert k <= |part| + 1 ==> ([s[0]] + part)[k..] == part[k - 1..];
        }
      }
    }
  }

  // ----- the sizes predicted before allocating -----

  lemma {:induction false} ContentSizeConcat(s: Text, t: Text)
    ensures ContentSize(s + t) == ContentSize(s) + ContentSize(t)
  {
    if s == [] {
      assert s + t == t;
    } else {
      assert (s + t)[1..] == s[1..] + t;
      ContentSizeConcat(s[1..], t);
      Utf8LengthConcat(EscapeOne(s[0]), Escape((s + t)[1..]));
      Utf8LengthConcat(EscapeOne(s[0]), Escape(s[1..]));
    }
  }

  function PartsSize(parts: seq<Text>): nat {
    if parts == [] then 0 else ContentSize(parts[0]) + PartsSize(parts[1..])
  }

  /** `join`: the parts, and one separator between each two of them. */
  lemma {:induction false} JoinSize(sep: Text, parts: seq<Text>)
    ensures ContentSize(Join(sep, parts))
            == PartsSize(parts) + ContentSize(sep) * (if parts == [] then 0 else |parts| - 1)
  {
    if |parts| > 1 {
      JoinSize(sep, parts[1..]);
      ContentSizeConcat(parts[0], sep);
      ContentSizeConcat(parts[0] + sep, Join(sep, parts[1..]));
      assert ContentSize(sep) * (|parts| - 1) == ContentSize(sep) + ContentSize(sep) * (|parts| - 2);
    }
  }

  lemma SplitPartsSize(s: Text, sep: Text)
    requires sep != []
    ensures PartsSize(Split(s, sep)) == ContentSize(s) - ContentSize(sep) * Count(s, sep)
  {
    JoinUndoesSplit(s, sep);
    SplitHasCountPlusOne(s, sep);
    JoinSize(sep, Split(s, sep));
  }

  /** `replace`: each occurrence trades the size of `target` for that of `new`. */
  lemma ReplaceSize(s: Text, target: Text, fill: Text)
    ensures target != [] ==>
              ContentSize(Replace(s, target, fill))
              == ContentSize(s) + Count(s, target) * (ContentSize(fill) - ContentSize(target))
    ensures target == [] ==> ContentSize(Replace(s, target, fill)) == ContentSize(s) + (|s| + 1) * ContentSize(fill)
  {
    if target == [] {
      InterleaveSize(s, fill);
    } else {
      ReplaceIsJoinOfSplit(s, target, fill);
      SplitHasCountPlusOne(s, target);
      SplitPartsSize(s, target);
      JoinSize(fill, Split(s, target));
      Distribute(Count(s, target), ContentSize(fill), ContentSize(target));
    }
  }

  lemma Distribute(n: int, a: int, b: int)
    ensures a * n - b * n == n * (a - b)
  {
  }

  lemma SuccessorTimes(n: int, k: int)
    ensures (n + 1) * k == k + n * k
  {
  }

  lemma {:induction false} InterleaveSize(s: Text, fill: Text)
    ensures ContentSize(Interleave(s, fill)) == ContentSize(s) + (|s| + 1) * ContentSize(fill)
  {
    hide ContentSize;
    if s != [] {
      var head, tail := fill + [s[0]], Interleave(s[1..], fill);
      InterleaveSize(s[1..], fill);
      ContentSizeConcat(fill, [s[0]]);
      ContentSizeConcat(head, tail);
      ContentSizeConcat([s[0]], s[1..]);
      assert s == [s[0]] + s[1..];
      SuccessorTimes(|s|, ContentSize(fill));
    } else {
      assert ContentSize([]) == 0 by {
        EmptyContent();
      }
    }
  }

  lemma EmptyContent()
    ensures ContentSize([]) == 0
  {
  }

  /** The parts as a JSON array of strings. */
  function Strings(parts: seq<Text>): (r: seq<Json>)
    ensures |r| == |parts|
  {
    if parts == [] then [] else [Str(parts[0])] + Strings(parts[1..])
  }

  lemma {:induction false} StringsSize(parts: seq<Text>)
    ensures ItemsSize(Strings(parts), false) == PartsSize(parts) + 3 * |parts|
    ensures parts != [] ==> JsonSize(Arr(Strings(parts))) == PartsSize(parts) + 3 * |parts| + 1
  {
    if parts != [] {
      StringsSize(parts[1..]);
      assert Strings(parts)[1..] == Strings(parts[1..]);
    }
  }

  /** `split`: the source without its separators, plus quotes, commas and brackets. */
  lemma SplitSize(s: Text, sep: Text)
    requires sep != []
    ensures var n := Count(s, sep) + 1;
            JsonSize(Arr(Strings(Split(s, sep)))) == ContentSize(s) - (n - 1) * ContentSize(sep) + 3 * n + 1
  {
    SplitHasCountPlusOne(s, sep);
    SplitPartsSize(s, sep);
    StringsSize(Split(s, sep));
  }
}
