/** The integer arithmetic of the C sources: fixed-width conversions, and the
    division and remainder that truncate toward zero. */
module CTypes {

  const TWO_TO_16 := 0x1_0000
  const TWO_TO_32 := 0x1_0000_0000

  datatype Option<+T> = None | Some(value: T)

  type U32 = x: int | 0 <= x < TWO_TO_32

  function One(b: bool): nat {
    if b then 1 else 0
  }

  /** Conversion to uint32_t. */
  function ToU32(x: int): U32 {
    x % TWO_TO_32
  }

  /** Conversion to uint16_t. */
  function ToU16(x: int): int {
    x % TWO_TO_16
  }

  /** Conversion to int16_t, wrapping as the target compilers do. */
  function ToI16(x: int): int {
    var m := x % TWO_TO_16;
    if m < 0x8000 then m else m - TWO_TO_16
  }

  /** C's `a / b` for a positive divisor. */
  function Quot(a: int, b: int): int
    requires b > 0
  {
    if a >= 0 then a / b else -((-a) / b)
  }

  /** C's `a % b` for a positive divisor. */
  function Rem(a: int, b: int): int
    requires b > 0
  {
    if a >= 0 then a % b else -((-a) % b)
  }

  lemma QuotRem(a: int, b: int)
    requires b > 0
    ensures a == b * Quot(a, b) + Rem(a, b)
    ensures -b < Rem(a, b) < b
    ensures a >= 0 ==> Rem(a, b) >= 0
    ensures a <= 0 ==> Rem(a, b) <= 0
  {
  }
}

/** Division and remainder by a divisor the solver does not know. */
module DivMod {

  lemma QuotientUnique(d: int, q: int, r: int, p: int, s: int)
    requires 0 <= r < d && 0 <= s < d
    requires d * q + r == d * p + s
    ensures q == p && r == s
  {
    if q > p {
      assert d * (q - p) == d * q - d * p;
      MultipleAtLeast(d, q - p);
      assert false;
    } else if q < p {
      assert d * (p - q) == d * p - d * q;
      MultipleAtLeast(d, p - q);
      assert false;
    }
  }

  lemma {:induction false} MultipleAtLeast(d: int, e: int)
    requires d > 0 && e >= 1
    ensures d * e >= d
  {
    if e > 1 {
      MultipleAtLeast(d, e - 1);
      assert d * e == d * (e - 1) + d;
    }
  }

  lemma ModOfSum(r: int, q: int, d: int)
    requires d > 0
    ensures (r + d * q) % d == r % d
  {
    var n := r + d * q;
    assert n == d * (n / d) + n % d;
    assert n == d * (r / d + q) + r % d;
    QuotientUnique(d, n / d, n % d, r / d + q, r % d);
  }

  lemma ModSmall(r: int, d: int)
    requires 0 <= r < d
    ensures r % d == r
  {
    QuotientUnique(d, r / d, r % d, 0, r);
  }
}
