/** JavaScript number semantics that the gauge library relies on: `clamp`,
    the falsy-default pattern `x || d`, `parseInt` on a number, division
    that may produce a non-finite result, and `Number.MAX_VALUE`. */
module JsCore {

  /** An argument that may be `undefined` (None) or a real value. */
  datatype Option<+T> = None | Some(value: T)

  /** The errors the runtime throws when a setter refers to a name that does
      not exist (ReferenceError) or calls something that is not a function /
      reads a property of `undefined` (TypeError). */
  datatype JsError = TypeError | ReferenceError

  /** A call that either returns a value or throws. */
  datatype Outcome<+T> = Ok(value: T) | Throws(error: JsError)

  /** `Number.MAX_VALUE`, (2^53 - 1) * 2^971, written out exactly. */
  const MaxValue: real := 179769313486231570814527423731704356798070567525844996598917476803157260780028538760589558632766878171540458953514382464234321326889464182768467546703537516986049910576551282076245490090389328944075868508455133942304583236903222948165808559332123348274797826204144723168738177180919299881250404026184124858368.0

  /** `clamp(min, max, value)`: below min gives min, above max gives max. */
  function Clamp(lo: real, hi: real, v: real): (r: real)
    ensures lo <= hi ==> lo <= r <= hi
    ensures lo <= v <= hi ==> r == v
  {
    if v < lo then lo else if v > hi then hi else v
  }

  /** The same clamp on integers. It exists only so that the channels
      truncated by `parseInt` stay `int` through the ternary clamps. */
  function ClampInt(lo: int, hi: int, v: int): (r: int)
    ensures lo <= hi ==> lo <= r <= hi
    ensures lo <= v <= hi ==> r == v
  {
    if v < lo then lo else if v > hi then hi else v
  }

  /** `x || d` for a number that may be `undefined`: both `undefined` and 0
      are falsy and give the default. */
  function Or(x: Option<real>, d: real): (r: real)
    ensures x.Some? && x.value != 0.0 ==> r == x.value
    ensures (x.None? || x.value == 0.0) ==> r == d
  {
    if x.Some? && x.value != 0.0 then x.value else d
  }

  /** `s || d` for a string that may be `undefined`: the empty string is falsy. */
  function OrText(s: Option<string>, d: string): (r: string)
    ensures s.Some? && s.value != "" ==> r == s.value
    ensures (s.None? || s.value == "") ==> r == d
  {
    if s.Some? && s.value != "" then s.value else d
  }

  /** `x || d` for an object-valued (always truthy) argument that may be `undefined`. */
  function OrElse<T>(x: Option<T>, d: T): (r: T)
    ensures x.Some? ==> r == x.value
    ensures x.None? ==> r == d
  {
    if x.Some? then x.value else d
  }

  /** `parseInt(x)` on a finite number: truncation toward zero. */
  function ParseInt(x: real): (r: int)
    ensures 0.0 <= x ==> r as real <= x < r as real + 1.0
    ensures x < 0.0 ==> r as real - 1.0 < x <= r as real
  {
    if x >= 0.0 then x.Floor else -((-x).Floor)
  }

  /** Once the result is clamped at 0, truncating and flooring agree. */
  lemma {:induction false} TruncMatchesFloorUnderClamp(x: real, hi: int)
    requires 0 <= hi
    ensures ClampInt(0, hi, ParseInt(x)) == ClampInt(0, hi, x.Floor)
  {
    if x < 0.0 {
      assert ParseInt(x) <= 0;
      assert x.Floor < 0;
    }
  }

  /** The value of a JavaScript division `a / b`, which is not finite when
      the divisor is 0. */
  datatype Quotient = Finite(value: real) | PositiveInfinity | NegativeInfinity | NaN

  function Divide(a: real, b: real): (q: Quotient)
    ensures b != 0.0 <==> q.Finite?
    ensures q.Finite? ==> q.value * b == a
    ensures q.NaN? <==> a == 0.0 && b == 0.0
  {
    if b != 0.0 then Finite(a / b)
    else if a > 0.0 then PositiveInfinity
    else if a < 0.0 then NegativeInfinity
    else NaN
  }
}
