/** The linear congruential generator shared by both firmware builds
    (multiplier 1 modulo 4, odd increment, modulus 2^32). */
module Lcg {
  import opened CTypes
  import opened DivMod

  const MULTIPLIER := 1664525
  const INCREMENT := 1013904223

  function Next(x: U32): U32 {
    ToU32(x * MULTIPLIER + INCREMENT)
  }

  /** The generator's step with its constants written out. */
  function Generated(x: U32): U32 {
    (1664525 * x + 1013904223) % 0x1_0000_0000
  }

  lemma NextIsGenerated(x: U32)
    ensures Next(x) == Generated(x)
  {
    assert x * MULTIPLIER == 1664525 * x;
  }

  function Iterate(k: nat, x: U32): U32 {
    if k == 0 then x else Next(Iterate(k - 1, x))
  }

  function Pow2(j: nat): nat
    ensures Pow2(j) > 0
  {
    if j == 0 then 1 else 2 * Pow2(j - 1)
  }

  // ---------------------------------------------------------------- divisibility

  predicate Divides(d: int, n: int)
    requires d > 0
  {
    n % d == 0
  }

  lemma DividesWitness(d: int, n: int, q: int)
    requires d > 0 && n == d * q
    ensures Divides(d, n)
  {
    ModOfSum(0, q, d);
  }

  lemma DividesTwice(d: int, n: int)
    requires d > 0
    ensures Divides(2 * d, 2 * n) <==> Divides(d, n)
  {
    if Divides(d, n) {
      DividesWitness(2 * d, 2 * n, n / d);
    }
    if Divides(2 * d, 2 * n) {
      var q := (2 * n) / (2 * d);
      assert 2 * n == (2 * d) * q;
      DividesWitness(d, n, q);
    }
  }

  /** An odd factor does not change which powers of two divide a product. */
  lemma {:induction false} OddFactor(j: nat, u: int, odd: int)
    requires odd % 2 == 1
    ensures Divides(Pow2(j), u * odd) <==> Divides(Pow2(j), u)
    decreases j
  {
    if j == 0 {
    } else if u % 2 == 0 {
      var h := u / 2;
      OddFactor(j - 1, h, odd);
      assert u * odd == 2 * (h * odd);
      DividesTwice(Pow2(j - 1), h * odd);
      DividesTwice(Pow2(j - 1), h);
    } else {
      OddTimesOdd(u, odd);
      OddNotDivisible(j, u * odd);
      OddNotDivisible(j, u);
    }
  }

  lemma OddTimesOdd(u: int, v: int)
    requires u % 2 == 1 && v % 2 == 1
    ensures (u * v) % 2 == 1
  {
    var a, b := u / 2, v / 2;
    assert u == 2 * a + 1 && v == 2 * b + 1;
    assert u * v == (2 * a + 1) * v == 2 * (a * v) + v;
    ModOfSum(v, a * v, 2);
  }

  lemma OddNotDivisible(j: nat, n: int)
    requires j > 0 && n % 2 == 1
    ensures !Divides(Pow2(j), n)
  {
    if Divides(Pow2(j), n) {
      ModOfSum(0, Pow2(j - 1) * (n / Pow2(j)), 2);
      assert false;
    }
  }

  // ---------------------------------------------------------------- the closed form

  function Power(k: nat): nat {
    if k == 0 then 1 else MULTIPLIER * Power(k - 1)
  }

  /** 1 + a + ... + a^(k-1) for the multiplier a. */
  function Sum(k: nat): nat {
    if k == 0 then 0 else MULTIPLIER * Sum(k - 1) + 1
  }

  lemma Associate(a: int, b: int, c: int)
    ensures a * (b * c) == (a * b) * c
  {
  }

  lemma {:induction false} PowerOfSum(j: nat, k: nat)
    ensures Power(j + k) == Power(j) * Power(k)
  {
    if j > 0 {
      PowerOfSum(j - 1, k);
      Associate(MULTIPLIER, Power(j - 1), Power(k));
    }
  }

  lemma {:induction false} SumOfSum(j: nat, k: nat)
    ensures Sum(j + k) == Power(j) * Sum(k) + Sum(j)
  {
    if j > 0 {
      SumOfSum(j - 1, k);
      Associate(MULTIPLIER, Power(j - 1), Sum(k));
    }
  }

  lemma {:induction false} PowerModFour(k: nat)
    ensures Power(k) % 4 == 1
  {
    if k > 0 {
      PowerModFour(k - 1);
    }
  }

  lemma {:induction false} SumParity(k: nat)
    ensures Sum(k) % 2 == k % 2
  {
    if k > 0 {
      SumParity(k - 1);
      var s := Sum(k - 1);
      var half := 832262 * s;
      assert Sum(k) == s + 1 + 2 * half;
    }
  }

  /** a^k - 1 = (a - 1)(1 + a + ... + a^(k-1)). */
  lemma {:induction false} GeometricSum(k: nat)
    ensures Power(k) == (MULTIPLIER - 1) * Sum(k) + 1
  {
    if k > 0 {
      GeometricSum(k - 1);
    }
  }

  lemma SumDoubled(m: nat) returns (odd: nat)
    ensures odd % 2 == 1
    ensures Sum(2 * m) == 2 * (Sum(m) * odd)
  {
    PowerModFour(m);
    SumOfSum(m, m);
    odd := Halved(Power(m), Sum(m));
  }

  lemma Halved(p: nat, s: nat) returns (odd: nat)
    requires p % 4 == 1
    ensures odd % 2 == 1
    ensures p * s + s == 2 * (s * odd)
  {
    odd := (p + 1) / 2;
    Regroup(s, p, odd);
  }

  lemma Regroup(s: int, p: int, odd: int)
    requires p + 1 == 2 * odd
    ensures p * s + s == 2 * (s * odd)
  {
    assert p * s + s == s * (p + 1);
  }

  /** The powers of two dividing the geometric sum are those dividing its length. */
  lemma {:induction false} SumDivisibility(j: nat, k: nat)
    ensures Divides(Pow2(j), Sum(k)) <==> Divides(Pow2(j), k)
    decreases j
  {
    if j == 0 {
    } else if k % 2 == 1 {
      SumParity(k);
      OddNotDivisible(j, Sum(k));
      OddNotDivisible(j, k);
    } else {
      var m := k / 2;
      var odd := SumDoubled(m);
      DividesTwice(Pow2(j - 1), Sum(m) * odd);
      OddFactor(j - 1, Sum(m), odd);
      SumDivisibility(j - 1, m);
      DividesTwice(Pow2(j - 1), m);
    }
  }

  /** k steps multiply by a^k and add the increment times the geometric sum. */
  lemma {:induction false} ClosedForm(k: nat, x: U32)
    ensures Iterate(k, x) == (Power(k) * x + INCREMENT * Sum(k)) % TWO_TO_32
  {
    if k > 0 {
      ClosedForm(k - 1, x);
      var exact := Power(k - 1) * x + INCREMENT * Sum(k - 1);
      StepOfRemainder(exact);
      StepOfClosedForm(Power(k - 1), Sum(k - 1), x);
    }
  }

  /** A step from the remainder is the remainder of the exact step. */
  lemma StepOfRemainder(exact: int)
    ensures ToU32(exact % TWO_TO_32 * MULTIPLIER + INCREMENT) == (exact * MULTIPLIER + INCREMENT) % TWO_TO_32
  {
    var r, q := exact % TWO_TO_32, exact / TWO_TO_32;
    assert exact == r + TWO_TO_32 * q;
    ModOfSum(r * MULTIPLIER + INCREMENT, q * MULTIPLIER, TWO_TO_32);
  }

  lemma StepOfClosedForm(power: int, sum: int, x: int)
    ensures (power * x + INCREMENT * sum) * MULTIPLIER + INCREMENT
      == (MULTIPLIER * power) * x + INCREMENT * (MULTIPLIER * sum + 1)
  {
    Associate(MULTIPLIER, power, x);
  }

  lemma EqualModuloMeansDivides(a: int, b: int, d: int)
    requires d > 0
    ensures a % d == b % d <==> Divides(d, a - b)
  {
    if a % d == b % d {
      assert a == d * (a / d) + a % d && b == d * (b / d) + b % d;
      assert a - b == d * (a / d - b / d);
      DividesWitness(d, a - b, a / d - b / d);
    }
    if Divides(d, a - b) {
      var q := (a - b) / d;
      assert a == b + d * q;
      ModOfSum(b, q, d);
    }
  }

  lemma Displacement(power: int, sum: int, x: int)
    requires power == (MULTIPLIER - 1) * sum + 1
    ensures power * x + INCREMENT * sum - x == sum * ((MULTIPLIER - 1) * x + INCREMENT)
  {
    var y := (MULTIPLIER - 1) * x;
    assert power * x == sum * y + x;
    assert sum * (y + INCREMENT) == sum * y + sum * INCREMENT;
  }

  /** The generator has full period: it is back where it started after k steps
      exactly when 2^32 divides k, from every starting state. */
  lemma FullPeriod(k: nat, x: U32)
    ensures Iterate(k, x) == x <==> k % TWO_TO_32 == 0
  {
    ClosedForm(k, x);
    GeometricSum(k);
    var exact, odd := Power(k) * x + INCREMENT * Sum(k), (MULTIPLIER - 1) * x + INCREMENT;
    Displacement(Power(k), Sum(k), x);
    OddOffset(x);
    ReturnsIff(exact, x, Sum(k) * odd);
    PeriodDivides(k, odd);
  }

  lemma OddOffset(x: int)
    ensures ((MULTIPLIER - 1) * x + INCREMENT) % 2 == 1
  {
  }

  lemma ReturnsIff(exact: int, x: U32, offset: int)
    requires exact - x == offset
    ensures exact % TWO_TO_32 == x <==> Divides(TWO_TO_32, offset)
  {
    EqualModuloMeansDivides(exact, x, TWO_TO_32);
  }

  lemma PeriodDivides(k: nat, odd: int)
    requires odd % 2 == 1
    ensures Divides(TWO_TO_32, Sum(k) * odd) <==> k % TWO_TO_32 == 0
  {
    Pow2Of32();
    OddFactor(32, Sum(k), odd);
    SumDivisibility(32, k);
  }

  lemma Pow2Of32()
    ensures Pow2(8) == 256
    ensures Pow2(32) == TWO_TO_32
  {
    assert Pow2(8) == 256;
    assert Pow2(16) == 256 * 256;
    assert Pow2(24) == 256 * 256 * 256;
  }

  lemma {:induction false} Pow2Split(j: nat, k: nat)
    ensures Pow2(j + k) == Pow2(j) * Pow2(k)
  {
    if j > 0 {
      Pow2Split(j - 1, k);
      Associate(2, Pow2(j - 1), Pow2(k));
    }
  }

  /** Reducing first modulo a multiple of d changes nothing modulo d. */
  lemma ModOfMod(n: int, c: int, d: int)
    requires c > 0 && d > 0
    ensures (n % (d * c)) % d == n % d
  {
    var q := n / (d * c);
    assert n == n % (d * c) + d * (c * q) by {
      assert n == n % (d * c) + (d * c) * q;
      assert (d * c) * q == d * (c * q);
    }
    ModOfSum(n % (d * c), c * q, d);
  }

  /** The low j bits evolve on their own: two states that agree on them still
      agree after any number of steps. */
  lemma {:induction false} LowBitsIndependent(j: nat, k: nat, x: U32, y: U32)
    requires j <= 32
    requires x % Pow2(j) == y % Pow2(j)
    ensures Iterate(k, x) % Pow2(j) == Iterate(k, y) % Pow2(j)
  {
    if k > 0 {
      LowBitsIndependent(j, k - 1, x, y);
      LowBitsStep(j, Iterate(k - 1, x), Iterate(k - 1, y));
    }
  }

  /** One step is a bijection on the low j bits. */
  lemma LowBitsStep(j: nat, x: U32, y: U32)
    requires j <= 32
    ensures Next(x) % Pow2(j) == Next(y) % Pow2(j) <==> x % Pow2(j) == y % Pow2(j)
  {
    var d := Pow2(j);
    Pow2Split(j, 32 - j);
    Pow2Of32();
    ModOfMod(x * MULTIPLIER + INCREMENT, Pow2(32 - j), d);
    ModOfMod(y * MULTIPLIER + INCREMENT, Pow2(32 - j), d);
    EqualModuloMeansDivides(x * MULTIPLIER + INCREMENT, y * MULTIPLIER + INCREMENT, d);
    EqualModuloMeansDivides(x, y, d);
    OddFactor(j, x - y, MULTIPLIER);
    assert (x * MULTIPLIER + INCREMENT) - (y * MULTIPLIER + INCREMENT) == (x - y) * MULTIPLIER;
  }
}
