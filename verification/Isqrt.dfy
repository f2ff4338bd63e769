/** The Newton integer square root of the lm3s processing task. */
module Isqrt {
  import opened CTypes

  predicate IsFloorRoot(n: nat, r: nat) {
    r * r <= n < (r + 1) * (r + 1)
  }

  lemma FloorRootUnique(n: nat, r: nat, s: nat)
    requires IsFloorRoot(n, r) && IsFloorRoot(n, s)
    ensures r == s
  {
    if r < s {
      SquareMonotone(r + 1, s);
    } else if s < r {
      SquareMonotone(s + 1, r);
    }
  }

  lemma SquareMonotone(a: nat, b: nat)
    requires a <= b
    ensures a * a <= b * b
  {
    assert b * b == a * a + (b - a) * (b + a);
  }

  /** The floor of the square root, counted up one at a time. */
  function FloorRoot(n: nat): nat {
    if n == 0 then 0
    else if IsFloorRoot(n, FloorRoot(n - 1)) then FloorRoot(n - 1)
    else FloorRoot(n - 1) + 1
  }

  lemma {:induction false} FloorRootIsRoot(n: nat)
    ensures IsFloorRoot(n, FloorRoot(n))
  {
    if n > 0 {
      FloorRootIsRoot(n - 1);
      var r := FloorRoot(n - 1);
      assert (r + 2) * (r + 2) == (r + 1) * (r + 1) + 2 * r + 3;
    }
  }

  /** A square root between two known squares lies between their roots. */
  lemma FloorRootBetween(n: nat, lo: nat, hi: nat)
    requires lo * lo <= n < (hi + 1) * (hi + 1)
    ensures lo <= FloorRoot(n) <= hi
  {
    var r := FloorRoot(n);
    FloorRootIsRoot(n);
    if r < lo {
      SquareMonotone(r + 1, lo);
    }
    if hi < r {
      SquareMonotone(hi + 1, r);
    }
  }

  /** A Newton step from any positive guess never lands below the root. */
  lemma NewtonAboveRoot(n: nat, x: nat)
    requires x > 0
    ensures var y := (x + n / x) / 2; n < (y + 1) * (y + 1)
  {
    var q := n / x;
    var y := (x + q) / 2;
    assert n < x * (q + 1) by {
      assert n == x * q + n % x;
    }
    MeanInequality(x, q + 1, y + 1);
  }

  lemma MeanInequality(a: int, b: int, m: int)
    requires a + b <= 2 * m && 0 <= a && 0 <= b
    ensures a * b <= m * m
  {
    var d := a - b;
    assert (a + b) * (a + b) == 4 * (a * b) + d * d;
    assert d * d >= 0;
    var s := a + b;
    assert s * s <= (2 * m) * (2 * m) by {
      SquareMonotone(s, 2 * m);
    }
    assert (2 * m) * (2 * m) == 4 * (m * m);
  }

  /** `x + n / x` stays inside uint32_t for every guess the loop can hold. */
  lemma NoOverflow(n: nat, x: nat)
    requires 0 < x <= n
    ensures x + n / x <= n + 1
  {
    var q := n / x;
    assert n == x * q + n % x;
    assert (x - 1) * (q - 1) == x * q - x - q + 1;
    Product(x - 1, q - 1);
  }

  lemma Product(a: int, b: int)
    requires a >= 0 && b >= 0
    ensures a * b >= 0
  {
  }

  lemma SquareBelow(n: nat, x: nat)
    requires x > 0 && (x + n / x) / 2 >= x
    ensures x * x <= n
  {
    var q := n / x;
    assert n == x * q + n % x;
    assert x * q == x * x + x * (q - x);
    Product(x, q - x);
  }

  /** What the loop knows of its two guesses: the newer one is a Newton step
      from the older one, and neither is below the root. */
  ghost predicate Guesses(n: nat, x: nat, y: nat) {
    && 0 < x <= n
    && y == (x + n / x) / 2
    && n < (x + 1) * (x + 1)
    && n < (y + 1) * (y + 1)
  }

  /** `(x + n / x) / 2` on uint32_t. */
  function Improve(n: U32, x: U32): U32
    requires x > 0
  {
    ToU32(x + n / x) / 2
  }

  lemma FirstGuesses(n: nat)
    requires n > 0
    ensures Guesses(n, n, (n + 1) / 2)
  {
    NewtonAboveRoot(n, n);
    assert (n + 1) * (n + 1) == n * n + 2 * n + 1;
    assert n / n == 1;
  }

  lemma NextGuesses(n: U32, x: U32, y: U32)
    requires n < TWO_TO_32 - 1
    requires Guesses(n, x, y) && y < x
    ensures y > 0 && y + n / y < TWO_TO_32
    ensures Guesses(n, y, Improve(n, y))
  {
    assert y > 0;
    ImproveIsExact(n, y);
    NewtonAboveRoot(n, y);
    assert n < (y + 1) * (y + 1);
  }

  lemma ImproveIsExact(n: U32, x: U32)
    requires 0 < x <= n < TWO_TO_32 - 1
    ensures x + n / x < TWO_TO_32
    ensures Improve(n, x) == (x + n / x) / 2
  {
    NoOverflow(n, x);
  }

  lemma LastGuess(n: nat, x: nat, y: nat)
    requires Guesses(n, x, y) && x <= y
    ensures IsFloorRoot(n, x)
  {
    SquareBelow(n, x);
  }

  /** `isqrt32`. The sum `x + 1` wraps to zero for the largest argument, and the
      loop then divides by zero; `None` is that trap. */
  method Isqrt32(n: U32) returns (root: Option<U32>)
    ensures root.None? <==> n == TWO_TO_32 - 1
    ensures root.Some? ==> IsFloorRoot(n, root.value)
  {
    if n == 0 {
      return Some(0);
    }
    var x: U32 := n;
    var y: U32 := ToU32(x + 1) / 2;
    if n < TWO_TO_32 - 1 {
      FirstGuesses(n);
    }
    while y < x
      invariant n < TWO_TO_32 - 1 ==> Guesses(n, x, y)
      invariant n == TWO_TO_32 - 1 ==> x == n && y == 0
      decreases x
    {
      if n < TWO_TO_32 - 1 {
        NextGuesses(n, x, y);
      }
      x := y;
      if x == 0 {
        return None;
      }
      y := Improve(n, x);
    }
    LastGuess(n, x, y);
    return Some(x);
  }
}
