/**
 * The JavaScript values the tracing helpers and controllers handle: a small
 * value universe with JavaScript truthiness, IEEE-style division and
 * `Math.round` over exact reals, thrown errors, and the outcome of calling a
 * wrapped function (it returns a value or it throws).
 */
module JsValues {

  datatype Option<+T> = None | Some(value: T)

  /** A JavaScript number: finite values are exact reals; no bit-exact IEEE rounding. */
  datatype JsNumber = Finite(value: real) | PositiveInfinity | NegativeInfinity | NaN

  datatype Value =
    | Undefined
    | Null
    | Bool(b: bool)
    | Num(n: JsNumber)
    | Str(s: string)
    | Arr(elems: seq<Value>)
    | Obj(fields: map<string, Value>)

  /** `!!v` in JavaScript: every array and object is truthy, even an empty one. */
  predicate Truthy(v: Value)
  {
    match v
    case Undefined => false
    case Null => false
    case Bool(b) => b
    case Num(n) => !n.NaN? && n != Finite(0.0)
    case Str(s) => s != ""
    case Arr(_) => true
    case Obj(_) => true
  }

  function Int(n: int): Value
  {
    Num(Finite(n as real))
  }

  /** A thrown error: `error.constructor.name`, `error.message` and `error.status`. */
  datatype JsError = JsError(typeName: string, message: string, status: Value)

  /** What a call produces: a returned value or a thrown error. */
  datatype Outcome = Returned(value: Value) | Threw(error: JsError)

  /** `a / b` in JavaScript for a finite numerator and a (non-negative-zero) denominator. */
  function Divide(a: real, b: real): (r: JsNumber)
    ensures r.Finite? <==> b != 0.0
    ensures b != 0.0 ==> r.value * b == a
  {
    if b != 0.0 then Finite(a / b)
    else if a > 0.0 then PositiveInfinity
    else if a < 0.0 then NegativeInfinity
    else NaN
  }

  /** `x * k` in JavaScript for a positive finite factor `k`. */
  function Scale(x: JsNumber, k: real): JsNumber
    requires k > 0.0
  {
    match x
    case Finite(v) => Finite(v * k)
    case _ => x
  }

  /** `Math.round` on a finite value: the nearest integer, halves rounded up. */
  function RoundReal(x: real): (r: int)
    ensures r as real - 0.5 <= x < r as real + 0.5
  {
    (x + 0.5).Floor
  }

  /** `Math.round` on any number: infinities and NaN are returned unchanged. */
  function Round(x: JsNumber): (r: JsNumber)
    ensures r.Finite? <==> x.Finite?
    ensures x.Finite? ==> r.value == RoundReal(x.value) as real
    ensures !x.Finite? ==> r == x
  {
    match x
    case Finite(v) => Finite(RoundReal(v) as real)
    case _ => x
  }

  /** An integer division rounded half up equals rounding the exact quotient. */
  lemma RoundOfQuotient(n: int, d: int)
    requires d > 0 && d % 2 == 0
    ensures RoundReal(n as real / d as real) == (n + d / 2) / d
  {
    var q, r := (n + d / 2) / d, (n + d / 2) % d;
    var x := n as real / d as real + 0.5;
    assert (n + d / 2) as real == q as real * d as real + r as real;
    assert (d / 2) as real * 2.0 == d as real;
    assert x * d as real == (n + d / 2) as real by {
      assert (n as real / d as real) * d as real == n as real;
    }
    assert x * d as real == q as real * d as real + r as real;
    assert q as real * d as real <= x * d as real < (q + 1) as real * d as real;
    assert q as real <= x < (q + 1) as real;
  }

  /** `String(n)` for a non-negative integer: its decimal digits. */
  function NatToString(n: nat): (s: string)
    ensures 1 <= |s|
    decreases n
  {
    if n < 10 then [Digit(n)] else NatToString(n / 10) + [Digit(n % 10)]
  }

  function Digit(d: nat): char
    requires d < 10
  {
    "0123456789"[d]
  }

  /** `String(n)` for any integer. */
  function IntToString(n: int): string
  {
    if n < 0 then "-" + NatToString(-n) else NatToString(n)
  }

  /** The number of bytes a code point takes in UTF-8 (section 3 of RFC 3629). */
  function Utf8Width(c: char): (w: nat)
    ensures 1 <= w <= 4
  {
    if c as int < 0x80 then 1
    else if c as int < 0x800 then 2
    else if c as int < 0x1_0000 then 3
    else 4
  }

  /** `Buffer.byteLength(s, 'utf8')` for a string. */
  function Utf8Length(s: string): (n: nat)
    ensures |s| <= n <= 4 * |s|
  {
    if s == [] then 0 else Utf8Width(s[0]) + Utf8Length(s[1..])
  }
}
