/**
 * The size predictions as an evaluation meets them: once its arguments have been
 * evaluated and charged, `replace`, `split`, `join` and `concat` raise the output
 * limit exactly when their real result exceeds it.  Charging the arguments is
 * what rules out the one case that `join` on its own would not see.
 */
module Exactness {
  import opened Texts
  import opened Json
  import opened Limits
  import opened Sizing
  import opened Ir
  import opened Operators
  import opened Semantics
  import opened Preflight
  import TextOps
  import B = Bounded

  /** The arguments of an eager operation, evaluated and charged. */
  function Arguments(c: Ctx, args: seq<Expr>, env: Env): Result<seq<Json>> {
    EvalItems(c, args, env, 2, true).result
  }

  /** Arguments that passed are within the limits, and charging a first one takes a limit of more than two bytes. */
  lemma ArgumentsFit(c: Ctx, args: seq<Expr>, env: Env)
    requires Arguments(c, args, env).Ok?
    ensures ItemsFit(Arguments(c, args, env).value, c.limits, 1) && |Arguments(c, args, env).value| == |args|
    ensures args != [] ==> c.limits.maxOutputBytes >= 2
  {
    hide Sem, Sized, Fits, JsonSize;
    if args != [] {
      var s := Sem(c, args[0], env);
      assert s.result.Ok? && Charge(s.result.value, 2, c.limits).Ok?;
      B.ChargeBounds(s.result.value, 2, c.limits);
      SizePositive(s.result.value);
      B.ItemsBounded(c, args, env, 2, true);
    }
  }

  lemma SizePositive(v: Json)
    ensures JsonSize(v) >= 0
  {
  }

  lemma TextFits(values: seq<Json>, i: nat, l: Limits)
    requires ItemsFit(values, l, 1) && i < |values| && values[i].Str?
    ensures Encodable(values[i].text)
  {
    if i > 0 {
      TextFits(values[1..], i - 1, l);
    }
  }

  lemma {:induction false} StringsFit(parts: seq<Text>, l: Limits, depth: nat)
    requires ItemsFit(TextOps.Strings(parts), l, depth)
    ensures AllEncodable(parts)
  {
    if parts != [] {
      assert TextOps.Strings(parts)[1..] == TextOps.Strings(parts[1..]);
      StringsFit(parts[1..], l, depth);
      assert parts == [parts[0]] + parts[1..];
    }
  }

  /** `replace`, for an empty `old` as well as for a non-empty one. */
  lemma ReplaceIsExactOnceCharged(c: Ctx, args: seq<Expr>, env: Env, source: Text, target: Text, fill: Text)
    requires Arguments(c, args, env) == Ok([Str(source), Str(target), Str(fill)])
    ensures Sem(c, Apply(Replace, args), env).result == Limited(Str(TextOps.Replace(source, target, fill)), c.limits)
  {
    hide EvalItems, ReplaceOf, TextOps.Replace, JsonSize, ItemsFit;
    ArgumentsFit(c, args, env);
    var values := [Str(source), Str(target), Str(fill)];
    TextFits(values, 0, c.limits);
    TextFits(values, 1, c.limits);
    TextFits(values, 2, c.limits);
    ReplaceIsExact(source, target, fill, c.limits);
  }

  /** `split`, unless the separator is empty or the parts are too many. */
  lemma SplitIsExactOnceCharged(c: Ctx, args: seq<Expr>, env: Env, source: Text, separator: Text)
    requires Arguments(c, args, env) == Ok([Str(source), Str(separator)])
    ensures Sem(c, Apply(Split, args), env).result
            == if separator == [] then Err(InvalidSeparator)
               else if |TextOps.Split(source, separator)| > c.limits.maxItems then Err(CollectionLimit)
               else Limited(Arr(TextOps.Strings(TextOps.Split(source, separator))), c.limits)
  {
    hide EvalItems, TextOps.Split, TextOps.Count, SplitPrediction, JsonSize, ItemsFit;
    ArgumentsFit(c, args, env);
    var values := [Str(source), Str(separator)];
    TextFits(values, 0, c.limits);
    TextFits(values, 1, c.limits);
    if separator != [] {
      TextOps.SplitHasCountPlusOne(source, separator);
      if |TextOps.Split(source, separator)| <= c.limits.maxItems {
        SplitIsExact(source, separator, c.limits);
      }
    }
  }

  /** `join`, of an empty list as well as of any other. */
  lemma JoinIsExactOnceCharged(c: Ctx, args: seq<Expr>, env: Env, separator: Text, parts: seq<Text>)
    requires Arguments(c, args, env) == Ok([Str(separator), Arr(TextOps.Strings(parts))])
    ensures Sem(c, Apply(Join, args), env).result == Limited(Str(TextOps.Join(separator, parts)), c.limits)
  {
    hide EvalItems, JoinOf, TextOps.Join, JsonSize;
    ArgumentsFit(c, args, env);
    var values := [Str(separator), Arr(TextOps.Strings(parts))];
    TextFits(values, 0, c.limits);
    assert Fits(values[1], c.limits, 1) by {
      assert values[1..][0] == values[1];
    }
    StringsFit(parts, c.limits, 2);
    JoinIsExact(separator, parts, c.limits);
  }

  /** `concat` of at least one argument. */
  lemma ConcatIsExactOnceCharged(c: Ctx, args: seq<Expr>, env: Env, parts: seq<Text>)
    requires Arguments(c, args, env) == Ok(TextOps.Strings(parts))
    ensures (Sem(c, Apply(Concat, args), env).result == Limited(Str(TextOps.Join([], parts)), c.limits))
            <==> (args != [] || c.limits.maxOutputBytes >= 2)
  {
    hide EvalItems, ConcatOf, TextOps.Join, JsonSize;
    ArgumentsFit(c, args, env);
    StringsFit(parts, c.limits, 1);
    ConcatIsExact(parts, c.limits);
  }

  /** The exception, under legal limits: `concat` of nothing returns two bytes where one is allowed. */
  lemma EmptyConcatIsUncharged(c: Ctx, env: Env)
    requires ValidLimits(c.limits) && c.limits.maxOutputBytes == 1
    ensures Sem(c, Apply(Concat, []), env).result == Ok(Str([]))
    ensures JsonSize(Str([])) > c.limits.maxOutputBytes
  {
    TextOps.EmptyContent();
  }
}
