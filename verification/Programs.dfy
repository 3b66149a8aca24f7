/**
 * Complete programs: how a JSON program is decoded into an expression and its
 * schemas, when it is admitted, and one run of it.
 */
module Programs {
  import opened Texts
  import opened Json
  import opened Limits
  import opened Sizing
  import opened Ir
  import opened Operators
  import opened Semantics
  import opened Runtimes
  import opened Schemas
  import Canonical

  // ----- keys of an expression object -----

  const OP := Ascii("op")
  const VALUE := Ascii("value")
  const NAME := Ascii("name")
  const FIELDS := Ascii("fields")
  const ELEMENTS := Ascii("items")
  const TARGET := Ascii("target")
  const KEY := Ascii("key")
  const FALLBACK := Ascii("default")
  const ARGS := Ascii("args")
  const COLLECTION := Ascii("collection")
  const VARIABLE := Ascii("var")
  const INDEX := Ascii("index")
  const BODY := Ascii("body")
  const DESCENDING := Ascii("descending")

  const OPERATORS: seq<Op> :=
    [Add, Sub, Mul, Div, Mod, Pow, Round, Min, Max, Op.Abs, Concat, Lower, Upper, Strip, Replace, Split, Join, Length, Slice,
     Eq, Ne, Lt, Lte, Gt, Gte, Not]

  function OpText(op: Op): Text {
    match op
    case Add => Ascii("add")
    case Sub => Ascii("sub")
    case Mul => Ascii("mul")
    case Div => Ascii("div")
    case Mod => Ascii("mod")
    case Pow => Ascii("pow")
    case Round => Ascii("round")
    case Min => Ascii("min")
    case Max => Ascii("max")
    case Abs => Ascii("abs")
    case Concat => Ascii("concat")
    case Lower => Ascii("lower")
    case Upper => Ascii("upper")
    case Strip => Ascii("strip")
    case Replace => Ascii("replace")
    case Split => Ascii("split")
    case Join => Ascii("join")
    case Length => Ascii("length")
    case Slice => Ascii("slice")
    case Eq => Ascii("eq")
    case Ne => Ascii("ne")
    case Lt => Ascii("lt")
    case Lte => Ascii("lte")
    case Gt => Ascii("gt")
    case Gte => Ascii("gte")
    case Not => Ascii("not")
  }

  /** The operator among these with the given name. */
  function OpAmong(ops: seq<Op>, name: Text): Option<Op> {
    if ops == [] then None else if OpText(ops[0]) == name then Some(ops[0]) else OpAmong(ops[1..], name)
  }

  function OpNamed(name: Text): Option<Op> {
    OpAmong(OPERATORS, name)
  }

  function LazyOpNamed(name: Text): Option<LazyOp> {
    if name == Ascii("and") then Some(And)
    else if name == Ascii("or") then Some(Or)
    else if name == Ascii("if") then Some(If)
    else if name == Ascii("coalesce") then Some(Coalesce)
    else None
  }

  /** The traversal operators; `sort` alone may be descending. */
  function EachOpNamed(name: Text, descending: bool): Option<EachOp> {
    if name == Ascii("map") then Some(Map)
    else if name == Ascii("filter") then Some(Filter)
    else if name == Ascii("sort") then Some(Sort(descending))
    else None
  }

  // ----- decoding -----

  /** Every required key is present and no other but the optional ones. */
  predicate KeysAre(fields: seq<Field<Json>>, required: set<Text>, optional: set<Text>) {
    && (forall k :: k in required ==> HasKey(fields, k))
    && (forall i :: 0 <= i < |fields| ==> fields[i].key in required + optional)
  }

  /** The operation's name. */
  function OpName(j: Json): Option<Text> {
    if !j.Obj? then None
    else
      var op := Lookup(j.fields, OP);
      if op.Some? && op.value.Str? then Some(op.value.text) else None
  }

  /** An optional key that must hold a string. */
  predicate NameOk(name: Option<Json>) {
    name.Some? ==> name.value.Str?
  }

  function NameIn(name: Option<Json>): Option<Text> {
    if name.Some? && name.value.Str? then Some(name.value.text) else None
  }

  function DecodeExpr(j: Json): Option<Expr>
    decreases j, 2
  {
    var op := OpName(j);
    if op.None? then None
    else if op.value == Ascii("literal") then DecodeLiteral(j)
    else if op.value == Ascii("input") then DecodeInput(j)
    else if op.value == Ascii("var") then DecodeVar(j)
    else if op.value == Ascii("object") then DecodeObject(j)
    else if op.value == Ascii("array") then DecodeArray(j)
    else if op.value == Ascii("get") then DecodeGet(j)
    else if op.value == Ascii("sum") then DecodeSum(j)
    else if EachOpNamed(op.value, false).Some? then DecodeEach(j, op.value)
    else DecodeApply(j, op.value)
  }

  function DecodeLiteral(j: Json): Option<Expr>
    requires j.Obj?
  {
    if KeysAre(j.fields, {OP, VALUE}, {}) then Some(Literal(Lookup(j.fields, VALUE).value)) else None
  }

  function DecodeInput(j: Json): Option<Expr>
    requires j.Obj?
  {
    var name := Lookup(j.fields, NAME);
    if KeysAre(j.fields, {OP}, {NAME}) && NameOk(name) then Some(Input(NameIn(name))) else None
  }

  function DecodeVar(j: Json): Option<Expr>
    requires j.Obj?
  {
    var name := Lookup(j.fields, NAME);
    if KeysAre(j.fields, {OP, NAME}, {}) && name.value.Str? then Some(Var(name.value.text)) else None
  }

  function DecodeObject(j: Json): Option<Expr>
    requires j.Obj?
    decreases j, 1
  {
    var fields := Member(j, FIELDS);
    if KeysAre(j.fields, {OP, FIELDS}, {}) && fields.value.Obj? then
      var decoded := DecodeFields(fields.value.fields);
      if decoded.Some? then Some(Object(decoded.value)) else None
    else None
  }

  function DecodeArray(j: Json): Option<Expr>
    requires j.Obj?
    decreases j, 1
  {
    var items := Member(j, ELEMENTS);
    if KeysAre(j.fields, {OP, ELEMENTS}, {}) && items.value.Arr? then
      var decoded := DecodeAll(items.value.items);
      if decoded.Some? then Some(Array(decoded.value)) else None
    else None
  }

  function DecodeGet(j: Json): Option<Expr>
    requires j.Obj?
    decreases j, 1
  {
    var target, key, fallback := Member(j, TARGET), Member(j, KEY), Member(j, FALLBACK);
    if KeysAre(j.fields, {OP, TARGET, KEY}, {FALLBACK}) then
      var t, k := DecodeExpr(target.value), DecodeExpr(key.value);
      var f := if fallback.Some? then DecodeExpr(fallback.value) else None;
      if t.Some? && k.Some? && (fallback.Some? ==> f.Some?) then Some(Get(t.value, k.value, f)) else None
    else None
  }

  function DecodeSum(j: Json): Option<Expr>
    requires j.Obj?
    decreases j, 1
  {
    var collection := Member(j, COLLECTION);
    if KeysAre(j.fields, {OP, COLLECTION}, {}) then
      var c := DecodeExpr(collection.value);
      if c.Some? then Some(Sum(c.value)) else None
    else None
  }

  function DecodeEach(j: Json, name: Text): Option<Expr>
    requires j.Obj?
    decreases j, 1
  {
    var collection, body := Member(j, COLLECTION), Member(j, BODY);
    var item, index, descending := Lookup(j.fields, VARIABLE), Lookup(j.fields, INDEX), Lookup(j.fields, DESCENDING);
    var optional := if name == Ascii("sort") then {INDEX, DESCENDING} else {INDEX};
    var each := EachOpNamed(name, descending == Some(Bool(true)));
    if each.Some? && KeysAre(j.fields, {OP, COLLECTION, VARIABLE, BODY}, optional) && item.value.Str? && NameOk(index)
       && (descending.Some? ==> descending.value.Bool?) then
      var c, b := DecodeExpr(collection.value), DecodeExpr(body.value);
      if c.Some? && b.Some? then Some(Each(each.value, c.value, item.value.text, NameIn(index), b.value)) else None
    else None
  }

  function DecodeApply(j: Json, name: Text): Option<Expr>
    requires j.Obj?
    decreases j, 1
  {
    var args := Member(j, ARGS);
    if KeysAre(j.fields, {OP, ARGS}, {}) && args.value.Arr? then
      var decoded := DecodeAll(args.value.items);
      if decoded.None? then None
      else if OpNamed(name).Some? then Some(Apply(OpNamed(name).value, decoded.value))
      else if LazyOpNamed(name).Some? then Some(Lazy(LazyOpNamed(name).value, decoded.value))
      else None
    else None
  }

  function DecodeAll(items: seq<Json>): Option<seq<Expr>>
    decreases items, 0
  {
    if items == [] then Some([])
    else
      var first, rest := DecodeExpr(items[0]), DecodeAll(items[1..]);
      if first.Some? && rest.Some? then Some([first.value] + rest.value) else None
  }

  function DecodeFields(fields: seq<Field<Json>>): Option<seq<Field<Expr>>>
    decreases fields, 0
  {
    if fields == [] then Some([])
    else
      var first, rest := DecodeExpr(fields[0].value), DecodeFields(fields[1..]);
      if first.Some? && rest.Some? then Some([Field(fields[0].key, first.value)] + rest.value) else None
  }

  // ----- program envelopes -----

  const VERSION := Ascii("version")
  const EXPRESSION := Ascii("expression")
  const INPUT_SCHEMA := Ascii("input_schema")
  const OUTPUT_SCHEMA := Ascii("output_schema")

  datatype Program = Program(inputSchema: Option<Json>, outputSchema: Option<Json>, body: Expr)

  function DecodeProgram(j: Json): Option<Program> {
    if j.Obj? && KeysAre(j.fields, {VERSION, EXPRESSION}, {INPUT_SCHEMA, OUTPUT_SCHEMA})
       && Lookup(j.fields, VERSION).value == Int(1) then
      var body := DecodeExpr(Lookup(j.fields, EXPRESSION).value);
      if body.Some? then Some(Program(Lookup(j.fields, INPUT_SCHEMA), Lookup(j.fields, OUTPUT_SCHEMA), body.value)) else None
    else None
  }

  predicate SchemasOk(p: Program) {
    (p.inputSchema.Some? ==> SchemaOk(p.inputSchema.value, 0)) && (p.outputSchema.Some? ==> SchemaOk(p.outputSchema.value, 0))
  }

  /** `validate_program`: the decoded program, if it may run at all. */
  function Admit(j: Json, limits: Limits): Result<Program> {
    var p := DecodeProgram(j);
    if p.None? then Err(MalformedProgram)
    else if !SchemasOk(p.value) then Err(InvalidSchema)
    else
      var verdict := Capped(Check(p.value.body, limits, 1, {}), 0, limits.maxNodes);
      if verdict.Refuse? then Err(verdict.code) else Ok(p.value)
  }

  /** Why a schema refuses a value, if it does. */
  function Mismatch(v: Json, s: Option<Json>): Option<Code> {
    if s.None? then None
    else if !Canonical.Clean(v) then Some(SchemaMismatch)
    else
      match CheckValue(v, s.value)
      case Passes => None
      case Refused => Some(SchemaMismatch)
      case Broken => Some(Crash)
  }

  function GivenInputs(inputs: Json): Json {
    if inputs.Null? then Obj([]) else inputs
  }

  /** The evaluation between the two schema checks: the output, sized. */
  function Evaluate(c: Ctx, body: Expr): Result<Json> {
    var variables :- Sized(Obj([]), c.limits, c.limits.maxInputBytes, InputLimit, 1);
    var output :- Metered(Sem(c, body, map[]), 0, c.limits.maxEvaluations, EvaluationLimit);
    var size :- Sized(output, c.limits, c.limits.maxOutputBytes, OutputLimit, 1);
    Ok(output)
  }

  /** What follows admission. */
  function RunAdmitted(p: Program, inputs: Json, limits: Limits, strings: Strings): Result<Json> {
    var given := GivenInputs(inputs);
    var size :- Sized(given, limits, limits.maxInputBytes, InputLimit, 1);
    var refusal := Mismatch(given, p.inputSchema);
    if refusal.Some? then Err(refusal.value)
    else
      var output :- Evaluate(Ctx(limits, given, strings), p.body);
      var complaint := Mismatch(output, p.outputSchema);
      if complaint.Some? then Err(complaint.value) else Ok(output)
  }

  /** `run`. */
  function Run(j: Json, inputs: Json, limits: Limits, strings: Strings): Result<Json> {
    var p :- Admit(j, limits);
    RunAdmitted(p, inputs, limits, strings)
  }

  // ----- a run, as the engine performs it -----

  method ValidateProgram(j: Json, limits: Limits) returns (r: Result<Program>)
    ensures r == Admit(j, limits)
  {
    hide DecodeProgram, SchemaOk, Check;
    var p := DecodeProgram(j);
    if p.None? {
      return Err(MalformedProgram);
    }
    if p.value.inputSchema.Some? {
      var ok := ValidateSchema(p.value.inputSchema.value, 0);
      if !ok {
        return Err(InvalidSchema);
      }
    }
    if p.value.outputSchema.Some? {
      var ok := ValidateSchema(p.value.outputSchema.value, 0);
      if !ok {
        return Err(InvalidSchema);
      }
    }
    var verdict := ValidateExpression(p.value.body, limits, {});
    r := if verdict.Refuse? then Err(verdict.code) else Ok(p.value);
  }

  method EvaluateBody(c: Ctx, body: Expr) returns (r: Result<Json>)
    ensures r == Evaluate(c, body)
  {
    hide Sem, Sized;
    var variables :- BoundedJsonSize(Obj([]), c.limits, c.limits.maxInputBytes, InputLimit, 1);
    var runtime := new Runtime(c);
    var output :- runtime.Eval(body, map[], Depth(body));
    var size :- BoundedJsonSize(output, c.limits, c.limits.maxOutputBytes, OutputLimit, 1);
    r := Ok(output);
  }

  method Execute(j: Json, inputs: Json, limits: Limits, strings: Strings) returns (r: Result<Json>)
    ensures r == Run(j, inputs, limits, strings)
  {
    hide Admit, Sized, Mismatch, Evaluate;
    var p :- ValidateProgram(j, limits);
    var given := GivenInputs(inputs);
    var size :- BoundedJsonSize(given, limits, limits.maxInputBytes, InputLimit, 1);
    var refusal := Mismatch(given, p.inputSchema);
    if refusal.Some? {
      return Err(refusal.value);
    }
    var output :- EvaluateBody(Ctx(limits, given, strings), p.body);
    var complaint := Mismatch(output, p.outputSchema);
    r := if complaint.Some? then Err(complaint.value) else Ok(output);
  }
}
