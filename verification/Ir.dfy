/** Crystal IR expressions and the static validator that admits them. */
module Ir {
  import opened Texts
  import opened Json
  import opened Limits
  import opened Sizing

  /** Operators that evaluate all their arguments first. */
  datatype Op =
    | Add | Sub | Mul | Div | Mod | Pow | Round | Min | Max | Abs
    | Concat | Lower | Upper | Strip | Replace | Split | Join | Length | Slice
    | Eq | Ne | Lt | Lte | Gt | Gte | Not

  /** Operators that evaluate their arguments one at a time and may stop. */
  datatype LazyOp = And | Or | If | Coalesce

  datatype EachOp = Map | Filter | Sort(descending: bool)

  datatype Expr =
    | Literal(value: Json)
    | Input(name: Option<Text>)
    | Var(variable: Text)
    | Object(fields: seq<Field<Expr>>)
    | Array(elements: seq<Expr>)
    | Get(target: Expr, key: Expr, fallback: Option<Expr>)
    | Lazy(lazyOp: LazyOp, args: seq<Expr>)
    | Each(each: EachOp, collection: Expr, item: Text, index: Option<Text>, body: Expr)
    | Sum(collection: Expr)
    | Apply(op: Op, args: seq<Expr>)

  // ----- names and arities -----

  predicate NameStart(c: CodePoint) {
    0x41 <= c <= 0x5A || 0x61 <= c <= 0x7A || c == 0x5F
  }

  /** `[A-Za-z_][A-Za-z0-9_]*`. */
  predicate ValidName(t: Text) {
    t != [] && NameStart(t[0]) && forall i :: 0 < i < |t| ==> NameStart(t[i]) || 0x30 <= t[i] <= 0x39
  }

  predicate ArityOk(op: Op, n: nat) {
    match op
    case Add => n >= 2
    case Mul => n >= 2
    case Sub => n == 2
    case Div => n == 2
    case Mod => n == 2
    case Pow => n == 2
    case Round => 1 <= n <= 2
    case Min => n >= 1
    case Max => n >= 1
    case Abs => n == 1
    case Concat => true
    case Lower => n == 1
    case Upper => n == 1
    case Strip => n == 1
    case Replace => n == 3
    case Split => n == 2
    case Join => n == 2
    case Length => n == 1
    case Slice => 2 <= n <= 3
    case Not => n == 1
    case _ => n == 2
  }

  predicate LazyArityOk(op: LazyOp, n: nat) {
    if op.If? then n == 3 else n >= 1
  }

  // ----- the validator, step by step -----

  datatype Verdict = Accept | Refuse(code: Code)

  /** A verdict, and how many nodes were entered to reach it. */
  datatype Tally = Tally(verdict: Verdict, nodes: nat)

  const PASS := Tally(Accept, 0)

  function Require(ok: bool, code: Code): Tally {
    if ok then PASS else Tally(Refuse(code), 0)
  }

  /** One check after another: the first refusal wins. */
  function Then(a: Tally, b: Tally): Tally {
    if a.verdict.Refuse? then a else Tally(b.verdict, a.nodes + b.nodes)
  }

  /** The verdict when the node count starts at `before` and may not pass `cap`. */
  function Capped(t: Tally, before: nat, cap: nat): Verdict {
    if before + t.nodes > cap then Refuse(NodeLimit) else t.verdict
  }

  /** Where the node count then stands: it is stopped one past its cap. */
  function CountAfter(t: Tally, before: nat, cap: nat): nat {
    if before + t.nodes > cap then cap + 1 else before + t.nodes
  }

  function BodyScope(scope: set<Text>, item: Text, index: Option<Text>): set<Text> {
    scope + {item} + (if index.Some? then {index.value} else {})
  }

  /**
   * `_Validator._node`: the tally counts the nodes entered.  A node past the
   * depth limit is refused before it is counted.
   */
  function Check(e: Expr, limits: Limits, depth: nat, scope: set<Text>): Tally
    decreases e, 1
  {
    if depth > limits.maxDepth then Tally(Refuse(DepthLimit), 0)
    else Then(Tally(Accept, 1), CheckOperands(e, limits, depth, scope))
  }

  /** The checks on one operation and, inside it, on its operands. */
  function CheckOperands(e: Expr, limits: Limits, depth: nat, scope: set<Text>): Tally
    decreases e, 0
  {
    match e
    case Literal(v) =>
      var size := Sized(v, limits, limits.maxOutputBytes, OutputLimit, 1);
      if size.Err? then Tally(Refuse(size.code), 0) else PASS
    case Input(_) => PASS
    case Var(name) => Then(Require(ValidName(name), InvalidVariableName), Require(name in scope, UnboundVariable))
    case Object(fields) =>
      Then(Require(|fields| <= limits.maxItems, CollectionLimit), CheckFields(fields, limits, depth + 1, scope))
    case Array(elements) =>
      Then(Require(|elements| <= limits.maxItems, CollectionLimit), CheckAll(elements, limits, depth + 1, scope))
    case Get(target, key, fallback) =>
      Then(Check(target, limits, depth + 1, scope),
           Then(Check(key, limits, depth + 1, scope),
                if fallback.Some? then Check(fallback.value, limits, depth + 1, scope) else PASS))
    case Lazy(op, args) =>
      Then(Require(LazyArityOk(op, |args|), InvalidArity), CheckArgs(args, limits, depth, scope))
    case Apply(op, args) =>
      Then(Require(ArityOk(op, |args|), InvalidArity), CheckArgs(args, limits, depth, scope))
    case Each(_, collection, item, index, body) =>
      Then(CheckNames(item, index),
           Then(Check(collection, limits, depth + 1, scope),
                Check(body, limits, depth + 1, BodyScope(scope, item, index))))
    case Sum(collection) => Check(collection, limits, depth + 1, scope)
  }

  function CheckNames(item: Text, index: Option<Text>): Tally {
    Then(Require(ValidName(item), InvalidVariableName),
         if index.None? then PASS
         else Then(Require(ValidName(index.value), InvalidVariableName), Require(index.value != item, DuplicateVariable)))
  }

  function CheckArgs(args: seq<Expr>, limits: Limits, depth: nat, scope: set<Text>): Tally
    decreases args, 2
  {
    Then(Require(|args| <= limits.maxItems, CollectionLimit), CheckAll(args, limits, depth + 1, scope))
  }

  function CheckAll(es: seq<Expr>, limits: Limits, depth: nat, scope: set<Text>): Tally
    decreases es, 1
  {
    if es == [] then PASS
    else Then(Check(es[0], limits, depth, scope), CheckAll(es[1..], limits, depth, scope))
  }

  function CheckFields(fields: seq<Field<Expr>>, limits: Limits, depth: nat, scope: set<Text>): Tally
    decreases fields, 1
  {
    if fields == [] then PASS
    else Then(Check(fields[0].value, limits, depth, scope), CheckFields(fields[1..], limits, depth, scope))
  }

  /** `validate_expression`: the node count is checked as it grows. */
  predicate Accepted(e: Expr, limits: Limits, scope: set<Text>) {
    Capped(Check(e, limits, 1, scope), 0, limits.maxNodes).Accept?
  }

  // ----- the validator as it runs -----

  /** `_Validator`: one pass over a tree, with a mutable node count. */
  class Validator {
    const limits: Limits
    var nodes: nat

    constructor (limits: Limits)
      ensures this.limits == limits && nodes == 0
    {
      this.limits := limits;
      nodes := 0;
    }

    method Node(e: Expr, depth: nat, scope: set<Text>) returns (r: Verdict)
      requires nodes <= limits.maxNodes
      modifies this
      ensures r == Capped(Check(e, limits, depth, scope), old(nodes), limits.maxNodes)
      ensures nodes == CountAfter(Check(e, limits, depth, scope), old(nodes), limits.maxNodes)
      decreases e, 4
    {
      hide CheckOperands;
      if depth > limits.maxDepth {
        return Refuse(DepthLimit);
      }
      nodes := nodes + 1;
      if nodes > limits.maxNodes {
        return Refuse(NodeLimit);
      }
      r := Operands(e, depth, scope);
    }

    /** The operation under the node just counted. */
    method Operands(e: Expr, depth: nat, scope: set<Text>) returns (r: Verdict)
      requires nodes <= limits.maxNodes
      modifies this
      ensures r == Capped(CheckOperands(e, limits, depth, scope), old(nodes), limits.maxNodes)
      ensures nodes == CountAfter(CheckOperands(e, limits, depth, scope), old(nodes), limits.maxNodes)
      decreases e, 3
    {
      hide Check, CheckAll, CheckFields, CheckNames, CheckArgs, Sized, ValidName, ArityOk, LazyArityOk, BodyScope;
      match e
      case Literal(_) =>
        r := Leaf(e, scope);
      case Input(_) =>
        r := Leaf(e, scope);
      case Var(_) =>
        r := Leaf(e, scope);
      case Object(fields) =>
        if |fields| > limits.maxItems {
          r := Refuse(CollectionLimit);
        } else {
          r := FieldNodes(fields, depth + 1, scope);
        }
      case Array(elements) =>
        if |elements| > limits.maxItems {
          r := Refuse(CollectionLimit);
        } else {
          r := Nodes(elements, depth + 1, scope);
        }
      case Get(_, _, _) =>
        r := GetNodes(e, depth, scope);
      case Lazy(op, args) =>
        r := ArgNodes(LazyArityOk(op, |args|), args, depth, scope);
      case Apply(op, args) =>
        r := ArgNodes(ArityOk(op, |args|), args, depth, scope);
      case Each(_, _, _, _, _) =>
        r := EachNodes(e, depth, scope);
      case Sum(collection) =>
        r := Node(collection, depth + 1, scope);
    }

    method Leaf(e: Expr, scope: set<Text>) returns (r: Verdict)
      requires e.Literal? || e.Input? || e.Var?
      ensures forall depth :: CheckOperands(e, limits, depth, scope) == Tally(r, 0)
    {
      hide Sized, ValidName;
      match e
      case Literal(v) =>
        var size := BoundedJsonSize(v, limits, limits.maxOutputBytes, OutputLimit, 1);
        r := if size.Err? then Refuse(size.code) else Accept;
      case Input(_) =>
        r := Accept;
      case Var(name) =>
        if !ValidName(name) {
          return Refuse(InvalidVariableName);
        }
        r := if name in scope then Accept else Refuse(UnboundVariable);
    }

    method ArgNodes(arityOk: bool, args: seq<Expr>, depth: nat, scope: set<Text>) returns (r: Verdict)
      requires nodes <= limits.maxNodes
      modifies this
      ensures var t := Then(Require(arityOk, InvalidArity), CheckArgs(args, limits, depth, scope));
              r == Capped(t, old(nodes), limits.maxNodes) && nodes == CountAfter(t, old(nodes), limits.maxNodes)
      decreases args, 2
    {
      hide CheckAll;
      if !arityOk {
        return Refuse(InvalidArity);
      }
      if |args| > limits.maxItems {
        return Refuse(CollectionLimit);
      }
      r := Nodes(args, depth + 1, scope);
    }

    method GetNodes(e: Expr, depth: nat, scope: set<Text>) returns (r: Verdict)
      requires e.Get? && nodes <= limits.maxNodes
      modifies this
      ensures r == Capped(CheckOperands(e, limits, depth, scope), old(nodes), limits.maxNodes)
      ensures nodes == CountAfter(CheckOperands(e, limits, depth, scope), old(nodes), limits.maxNodes)
      decreases e, 2
    {
      hide Check;
      r := Node(e.target, depth + 1, scope);
      if r.Accept? {
        r := Node(e.key, depth + 1, scope);
        if r.Accept? && e.fallback.Some? {
          r := Node(e.fallback.value, depth + 1, scope);
        }
      }
    }

    method EachNodes(e: Expr, depth: nat, scope: set<Text>) returns (r: Verdict)
      requires e.Each? && nodes <= limits.maxNodes
      modifies this
      ensures r == Capped(CheckOperands(e, limits, depth, scope), old(nodes), limits.maxNodes)
      ensures nodes == CountAfter(CheckOperands(e, limits, depth, scope), old(nodes), limits.maxNodes)
      decreases e, 2
    {
      hide Check, CheckNames;
      r := Names(e.item, e.index);
      CheckNamesCountNothing(e.item, e.index);
      if r.Accept? {
        r := Node(e.collection, depth + 1, scope);
        if r.Accept? {
          r := Node(e.body, depth + 1, BodyScope(scope, e.item, e.index));
        }
      }
    }

    method Names(item: Text, index: Option<Text>) returns (r: Verdict)
      ensures r == CheckNames(item, index).verdict
    {
      hide ValidName;
      if !ValidName(item) {
        return Refuse(InvalidVariableName);
      }
      if index.Some? && !ValidName(index.value) {
        return Refuse(InvalidVariableName);
      }
      if index.Some? && index.value == item {
        return Refuse(DuplicateVariable);
      }
      r := Accept;
    }

    lemma CheckNamesCountNothing(item: Text, index: Option<Text>)
      ensures CheckNames(item, index).nodes == 0
    {
    }

    method Nodes(es: seq<Expr>, depth: nat, scope: set<Text>) returns (r: Verdict)
      requires nodes <= limits.maxNodes
      modifies this
      ensures r == Capped(CheckAll(es, limits, depth, scope), old(nodes), limits.maxNodes)
      ensures nodes == CountAfter(CheckAll(es, limits, depth, scope), old(nodes), limits.maxNodes)
      decreases es, 1
    {
      ghost var before, done := nodes, 0;
      ghost var all := CheckAll(es, limits, depth, scope);
      r := Accept;
      for i := 0 to |es|
        invariant r.Accept? && nodes == before + done <= limits.maxNodes
        invariant var rest := CheckAll(es[i..], limits, depth, scope);
                  all.verdict == rest.verdict && all.nodes == done + rest.nodes
      {
        assert es[i..][0] == es[i] && es[i..][1..] == es[i + 1..];
        r := Node(es[i], depth, scope);
        if r.Refuse? {
          return;
        }
        done := done + Check(es[i], limits, depth, scope).nodes;
      }
    }

    method FieldNodes(fields: seq<Field<Expr>>, depth: nat, scope: set<Text>) returns (r: Verdict)
      requires nodes <= limits.maxNodes
      modifies this
      ensures r == Capped(CheckFields(fields, limits, depth, scope), old(nodes), limits.maxNodes)
      ensures nodes == CountAfter(CheckFields(fields, limits, depth, scope), old(nodes), limits.maxNodes)
      decreases fields, 1
    {
      ghost var before, done := nodes, 0;
      ghost var all := CheckFields(fields, limits, depth, scope);
      r := Accept;
      for i := 0 to |fields|
        invariant r.Accept? && nodes == before + done <= limits.maxNodes
        invariant var rest := CheckFields(fields[i..], limits, depth, scope);
                  all.verdict == rest.verdict && all.nodes == done + rest.nodes
      {
        assert fields[i..][0] == fields[i] && fields[i..][1..] == fields[i + 1..];
        r := Node(fields[i].value, depth, scope);
        if r.Refuse? {
          return;
        }
        done := done + Check(fields[i].value, limits, depth, scope).nodes;
      }
    }
  }

  /** `validate_expression` with the given variables in scope. */
  method ValidateExpression(e: Expr, limits: Limits, variables: set<Text>) returns (r: Verdict)
    ensures r == Capped(Check(e, limits, 1, variables), 0, limits.maxNodes)
    ensures r.Accept? <==> Accepted(e, limits, variables)
  {
    var v := new Validator(limits);
    r := v.Node(e, 1, variables);
  }
}
