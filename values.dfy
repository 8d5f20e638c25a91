/** Option and Result, used for absent values and for error paths. */
module Wrappers {

  datatype Option<+T> = None | Some(value: T)

  datatype Result<+T, +E> = Ok(value: T) | Err(error: E)
}

/**
 * The values a reported accessor can hand back, as the Java runtime sees them:
 * null, a (boxed or primitive) boolean, the four integral widths, the two
 * floating-point widths, or any other object, known by its `toString()` text
 * and its fields. Floating-point values are classified rather than computed with.
 */
module ReportedValues {

  const LONG_MIN: int := -0x8000_0000_0000_0000
  const LONG_MAX: int := 0x7FFF_FFFF_FFFF_FFFF
  const INT_MIN: int := -0x8000_0000
  const INT_MAX: int := 0x7FFF_FFFF
  const SHORT_MIN: int := -0x8000
  const SHORT_MAX: int := 0x7FFF
  const BYTE_MIN: int := -0x80
  const BYTE_MAX: int := 0x7F

  type Int64 = x: int | -0x8000_0000_0000_0000 <= x <= 0x7FFF_FFFF_FFFF_FFFF
  type Int32 = x: int | -0x8000_0000 <= x <= 0x7FFF_FFFF
  type Int16 = x: int | -0x8000 <= x <= 0x7FFF
  type Int8 = x: int | -0x80 <= x <= 0x7F

  /** A double or float, classified: a finite number, NaN, or one of the infinities. */
  datatype FloatingPoint = Finite(r: real) | NaN | PositiveInfinity | NegativeInfinity

  datatype Value =
    | Null
    | Bool(b: bool)
    | Long(l: Int64)
    | Integer(i: Int32)
    | Short(s: Int16)
    | Byte(y: Int8)
    | Double(d: FloatingPoint)
    | Float(f: FloatingPoint)
    | Instance(text: string, fields: map<string, Value>)

  /** What a fault raised by an accessor carries. */
  datatype Fault = Fault(message: string)

  /** The outcome of invoking an accessor: the value it returned, or the fault it raised. */
  datatype Outcome = Returned(value: Value) | Threw(fault: Fault)

  /** An accessor, as the reflective invocation of a zero-argument method on a target. */
  type Getter = Value -> Outcome

  /** Java's 32-bit `++`: adds one and wraps from Integer.MAX_VALUE to Integer.MIN_VALUE. */
  function IncrementInt32(x: Int32): (r: Int32)
    ensures x < INT_MAX ==> r == x + 1
    ensures x == INT_MAX ==> r == INT_MIN
  {
    if x == INT_MAX then INT_MIN else x + 1
  }

  /** Java's 64-bit increment, as AtomicLong.incrementAndGet performs it. */
  function IncrementInt64(x: Int64): (r: Int64)
    ensures x < LONG_MAX ==> r == x + 1
    ensures x == LONG_MAX ==> r == LONG_MIN
  {
    if x == LONG_MAX then LONG_MIN else x + 1
  }
}
