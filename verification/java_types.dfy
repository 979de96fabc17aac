/**
 Java value types the notification module relies on: references that may be
 `null`, the 32-bit `int`/`Integer` and the 64-bit `long`/`Long` ranges, and the
 wrap-around of `long` addition.
 */
module JavaTypes {

  /** A Java reference that is either `null` (None) or holds a value. */
  datatype Option<+T> = None | Some(value: T)

  const MinInt: int := -0x8000_0000
  const MaxInt: int := 0x7fff_ffff
  const MinLong: int := -0x8000_0000_0000_0000
  const MaxLong: int := 0x7fff_ffff_ffff_ffff

  /** Number of distinct `long` values. */
  const LongModulus: int := 0x1_0000_0000_0000_0000

  type Int32 = x: int | MinInt <= x <= MaxInt
  type Long = x: int | MinLong <= x <= MaxLong

  /** Java `long` addition: the mathematical sum, wrapped into two's complement. */
  function LongAdd(a: Long, b: Long): (r: Long)
    ensures MinLong <= a + b <= MaxLong ==> r == a + b
    ensures (r - (a + b)) % LongModulus == 0
  {
    (a + b - MinLong) % LongModulus + MinLong
  }

  /** Java's null-safe `"lit".equals(o)`: false for null. */
  predicate EqualsLiteral(lit: string, o: Option<string>) {
    o.Some? && o.value == lit
  }
}
