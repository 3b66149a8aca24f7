/** Resource limits, error codes and results shared by the engine's parts. */
module Limits {

  const MAX_CONFIGURED_DEPTH := 128

  /** `ResourceLimits`: every field is a positive integer. */
  datatype Limits = Limits(
    maxNodes: nat,
    maxDepth: nat,
    maxItems: nat,
    maxEvaluations: nat,
    maxInputBytes: nat,
    maxOutputBytes: nat,
    maxExponent: nat,
    maxIntegerBits: nat,
    maxRoundDigits: nat)

  predicate ValidLimits(l: Limits) {
    && l.maxNodes > 0 && l.maxDepth > 0 && l.maxItems > 0 && l.maxEvaluations > 0 && l.maxInputBytes > 0
    && l.maxOutputBytes > 0 && l.maxExponent > 0 && l.maxIntegerBits > 0 && l.maxRoundDigits > 0
    && l.maxDepth <= MAX_CONFIGURED_DEPTH
  }

  /** Every limit of `m` is at least that of `l`. */
  predicate AtMost(l: Limits, m: Limits) {
    && l.maxNodes <= m.maxNodes && l.maxDepth <= m.maxDepth && l.maxItems <= m.maxItems
    && l.maxEvaluations <= m.maxEvaluations && l.maxInputBytes <= m.maxInputBytes
    && l.maxOutputBytes <= m.maxOutputBytes && l.maxExponent <= m.maxExponent
    && l.maxIntegerBits <= m.maxIntegerBits && l.maxRoundDigits <= m.maxRoundDigits
  }

  /**
   * The structured error codes.  `Crash` stands for a Python exception that is
   * not a CrystalFlow error, such as an IndexError or an AssertionError, and
   * `FloatResult` for an operation that would leave the float-free values.
   */
  datatype Code =
    | DepthLimit | NodeLimit | ValueDepthLimit | IntegerLimit | CollectionLimit | EvaluationLimit
    | InputLimit | OutputLimit | PowerLimit | RoundLimit
    | MalformedProgram | InvalidSchema | InvalidArity | InvalidVariableName | DuplicateVariable | UnboundVariable
    | InvalidString | TypeMismatch | MissingInput | MissingKey | InvalidSortKey | InvalidSeparator
    | DivisionByZero | InvalidNumber | SchemaMismatch
    | FloatResult | Crash

  datatype Result<+T> = Ok(value: T) | Err(code: Code) {
    predicate IsFailure() { Err? }

    function PropagateFailure<U>(): Result<U>
      requires Err?
    {
      Err(code)
    }

    function Extract(): T
      requires Ok?
    {
      value
    }
  }

  /** A computation's result, and how far it advanced a counter that a limit caps. */
  datatype Step<+T> = Step(result: Result<T>, ticks: nat)

  function Fail<T>(code: Code, ticks: nat): Step<T> {
    Step(Err(code), ticks)
  }

  /** The step's result when the counter starts at `before` and may not pass `cap`. */
  function Metered<T>(s: Step<T>, before: nat, cap: nat, code: Code): Result<T> {
    if before + s.ticks > cap then Err(code) else s.result
  }

  /** Where the counter then stands: it is stopped one past its cap. */
  function Meter<T>(s: Step<T>, before: nat, cap: nat): nat {
    if before + s.ticks > cap then cap + 1 else before + s.ticks
  }

  /** `n.bit_length()`. */
  function BitLength(n: int): nat
    decreases if n < 0 then -n else n
  {
    if n == 0 then 0 else 1 + BitLength((if n < 0 then -n else n) / 2)
  }

  function Power(b: int, e: nat): int {
    if e == 0 then 1 else b * Power(b, e - 1)
  }

  lemma {:induction false} BitLengthBoundsMagnitude(n: nat, bits: nat)
    ensures BitLength(n) <= bits <==> n < Power(2, bits)
  {
    if n != 0 && bits != 0 {
      BitLengthBoundsMagnitude(n / 2, bits - 1);
    } else {
      PowerPositive(2, bits);
    }
  }

  lemma {:induction false} PowerPositive(b: nat, e: nat)
    requires b > 0
    ensures Power(b, e) >= 1
  {
    if e > 0 {
      PowerPositive(b, e - 1);
    }
  }

  lemma {:induction false} PowerOfProduct(b: int, d: nat, e: nat)
    ensures Power(Power(b, d), e) == Power(b, d * e)
  {
    if e > 0 {
      PowerOfProduct(b, d, e - 1);
      PowerOfSum(b, d, d * (e - 1));
    }
  }

  lemma {:induction false} PowerOfSum(b: int, d: nat, e: nat)
    ensures Power(b, d + e) == Power(b, d) * Power(b, e)
  {
    if d > 0 {
      PowerOfSum(b, d - 1, e);
    }
  }

  lemma {:induction false} PowerGrows(a: int, b: int, e: nat)
    requires -b < a < b && e > 0
    ensures -Power(b, e) < Power(a, e) < Power(b, e)
  {
    if e > 1 {
      PowerGrows(a, b, e - 1);
      ProductBound(a, b, Power(a, e - 1), Power(b, e - 1));
    }
  }

  lemma ProductBound(a: int, b: int, c: int, d: int)
    requires -b < a < b && -d < c < d
    ensures -(b * d) < a * c < b * d
  {
    var x, y := if a < 0 then -a else a, if c < 0 then -c else c;
    assert x * y <= x * d <= b * d;
    assert x * d < b * d;
    assert a * c == x * y || a * c == -(x * y);
  }

  lemma BitLengthNegate(n: int)
    ensures BitLength(-n) == BitLength(n)
  {
  }

  /**
   * The gate in front of `**`: when `bit_length(base) * exponent` is within the
   * integer limit, so is the power itself.
   */
  lemma PowerGateIsSound(base: int, exponent: nat, bits: nat)
    requires exponent > 0 && BitLength(base) * exponent <= bits
    ensures BitLength(Power(base, exponent)) <= bits
  {
    var k, m, p := BitLength(base), if base < 0 then -base else base, Power(base, exponent);
    BitLengthNegate(base);
    BitLengthBoundsMagnitude(m, k);
    PowerGrows(base, Power(2, k), exponent);
    PowerOfProduct(2, k, exponent);
    BitLengthNegate(p);
    BitLengthBoundsMagnitude(if p < 0 then -p else p, k * exponent);
  }
}
