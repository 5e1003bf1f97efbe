/**
 * Value types, exceptions and numeric conversions of the JavaScript and Web
 * platform that the live voice session relies on: typed-array element types,
 * the conversions a typed-array store performs, and the errors the modelled
 * calls can throw.
 */
module Platform {

  /** An element of a `Uint8Array`. */
  type byte = x: int | 0 <= x < 256

  /** An element of an `Int16Array`. */
  type int16 = x: int | -32768 <= x < 32768

  /** The exceptions the modelled code can raise (it catches none of them). */
  datatype Error =
    | InvalidCharacterError   // atob / btoa on a string they refuse
    | RangeError              // an Int16Array over an odd number of bytes
    | NotSupportedError       // createBuffer with zero channels, frames or rate

  datatype Result<+T> = Ok(value: T) | Err(error: Error)

  datatype Option<+T> = None | Some(value: T)

  function Max(a: real, b: real): (m: real)
    ensures m >= a && m >= b
    ensures m == a || m == b
  {
    if a >= b then a else b
  }

  /** Storing the integer n into a `Uint8Array` (ToUint8): n reduced modulo 2^8. */
  function ToUint8(n: int): (r: byte)
    ensures (r - n) % 256 == 0
    ensures 0 <= n < 256 ==> r == n
  {
    n % 256
  }

  /** Storing the integer n into an `Int16Array`: n wrapped modulo 2^16 into [-32768, 32767]. */
  function WrapInt16(n: int): (r: int16)
    ensures (r - n) % 65536 == 0
    ensures -32768 <= n < 32768 ==> r == n
  {
    (n + 32768) % 65536 - 32768
  }

  /** The integer part of x, rounding toward zero, as ECMAScript's ToInt16 does first. */
  function Truncate(x: real): (n: int)
    ensures 0.0 <= x ==> 0 <= n && n as real <= x < n as real + 1.0
    ensures x < 0.0 ==> n <= 0 && n as real - 1.0 < x <= n as real
  {
    if x >= 0.0 then x.Floor else -((-x).Floor)
  }

  /** Storing the (finite) number x into an `Int16Array` element: truncate, then wrap. */
  function ToInt16(x: real): (r: int16)
    ensures (r - Truncate(x)) % 65536 == 0
    ensures -32768 <= Truncate(x) < 32768 ==> r == Truncate(x)
  {
    WrapInt16(Truncate(x))
  }

  /** The wrap leaves the storable range alone and sends the first value past it to the bottom. */
  lemma WrapInt16Edges()
    ensures WrapInt16(32767) == 32767 && WrapInt16(-32768) == -32768
    ensures WrapInt16(32768) == -32768 && WrapInt16(-32769) == 32767
    ensures WrapInt16(65536) == 0
  {
  }
}
