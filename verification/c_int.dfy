/** Fixed-width C integers and the C operators on them that differ from Dafny's. */
module CInt {

  const TwoTo32: int := 0x1_0000_0000

  type U8 = x: int | 0 <= x < 0x100
  type U32 = x: int | 0 <= x < 0x1_0000_0000
  type I32 = x: int | -0x8000_0000 <= x < 0x8000_0000

  function Abs(x: int): nat { if x < 0 then -x else x }

  /** C's conversion of an integer value to `uint32_t`: reduction modulo 2^32. */
  function ToU32(x: int): (r: U32)
    ensures 0 <= x < TwoTo32 ==> r == x
    ensures -TwoTo32 <= x < 0 ==> r == x + TwoTo32
    ensures (x - r) % TwoTo32 == 0
  {
    x % TwoTo32
  }

  /**
   * C99 integer division by a positive divisor (section 6.5.5 of ISO/IEC
   * 9899:1999): the quotient is truncated toward zero, so the remainder takes
   * the sign of the dividend. Dafny's own `/` is Euclidean and differs for a
   * negative dividend.
   */
  function TruncDiv(a: int, b: int): (q: int)
    requires b > 0
    ensures -b < a - q * b < b
    ensures a - q * b == 0 || (a - q * b < 0 <==> a < 0)
    ensures Abs(q) * b <= Abs(a)
  {
    if a >= 0 then
      EuclidFacts(a, b);
      a / b
    else
      EuclidFacts(-a, b);
      -((-a) / b)
  }

  lemma EuclidFacts(n: nat, b: int)
    requires b > 0
    ensures n / b >= 0 && n == (n / b) * b + n % b && 0 <= n % b < b
  {
  }

  /** Halving a 32-bit `int` in C stays within the type. */
  lemma HalfOfI32(x: I32)
    ensures -0x4000_0000 <= TruncDiv(x, 2) < 0x4000_0000
  {
    var q := TruncDiv(x, 2);
    assert Abs(q) * 2 <= Abs(x);
  }
}
