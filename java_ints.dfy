/**
 * Java's fixed-width integers over Dafny's unbounded `int`.
 * A narrowing cast keeps the low bits of the two's-complement value,
 * so the result is the unique value in the target range that is
 * congruent to the input modulo 2^width.
 */
module JavaInts {

  const SHORT_MODULUS: int := 0x1_0000
  const INT_MODULUS: int := 0x1_0000_0000
  const LONG_MODULUS: int := 0x1_0000_0000_0000_0000

  predicate IsShort(n: int) { -0x8000 <= n < 0x8000 }
  predicate IsInt(n: int) { -0x8000_0000 <= n < 0x8000_0000 }
  predicate IsLong(n: int) { -0x8000_0000_0000_0000 <= n < 0x8000_0000_0000_0000 }

  type int16 = n: int | IsShort(n)
  type int32 = n: int | IsInt(n)
  type int64 = n: int | IsLong(n)

  /** `(short) n` */
  function ToShort(n: int): (r: int16)
    ensures (r - n) % SHORT_MODULUS == 0
    ensures IsShort(n) ==> r == n
  {
    var m := n % SHORT_MODULUS;
    if m < 0x8000 then m else m - SHORT_MODULUS
  }

  /** `(int) n`, and Jackson's `asInt()` of an integral JSON number */
  function ToInt(n: int): (r: int32)
    ensures (r - n) % INT_MODULUS == 0
    ensures IsInt(n) ==> r == n
  {
    var m := n % INT_MODULUS;
    if m < 0x8000_0000 then m else m - INT_MODULUS
  }

  /** `(long) n`, and Jackson's `asLong()` of an integral JSON number */
  function ToLong(n: int): (r: int64)
    ensures (r - n) % LONG_MODULUS == 0
    ensures IsLong(n) ==> r == n
  {
    var m := n % LONG_MODULUS;
    if m < 0x8000_0000_0000_0000 then m else m - LONG_MODULUS
  }

  /** Going through `int` first does not change the short: `(short) (int) n == (short) n`. */
  lemma ShortOfInt(n: int)
    ensures ToShort(ToInt(n)) == ToShort(n)
  {
  }
}
