/**
 Exact rounding of quotients.  Money is held in whole cents, so every
 `quantize(Decimal("0.01"), ROUND_HALF_UP)` of the program is the rounding of a
 quotient of integers to the nearest integer, ties away from zero.
 */
module Rounding {

  /** n / d rounded to the nearest integer, ties away from zero. */
  function HalfUp(n: int, d: int): (r: int)
    requires d > 0
    ensures n >= 0 ==> d * (2 * r - 1) <= 2 * n < d * (2 * r + 1)
    ensures n < 0 ==> d * (2 * r - 1) < 2 * n <= d * (2 * r + 1)
  {
    if n >= 0 then
      HalfUpWindow(n, d);
      (2 * n + d) / (2 * d)
    else
      HalfUpWindow(-n, d);
      -((2 * -n + d) / (2 * d))
  }

  lemma HalfUpWindow(n: int, d: int)
    requires d > 0 && n >= 0
    ensures var r := (2 * n + d) / (2 * d);
      d * (2 * r - 1) <= 2 * n < d * (2 * r + 1) && d * (2 * -r - 1) < 2 * -n <= d * (2 * -r + 1)
  {
    var r := (2 * n + d) / (2 * d);
    DivBounds(2 * n + d, 2 * d);
    Odd(d, r);
    Odd(d, -r);
  }

  lemma Odd(d: int, r: int)
    ensures d * (2 * r - 1) == (2 * d) * r - d && d * (2 * r + 1) == (2 * d) * r + d
    ensures (2 * d) * -r == -((2 * d) * r)
  {
  }

  /** n / d rounded to the nearest integer, ties to the even one: the default
      mode of the decimal context in which the program divides. */
  function HalfEven(n: nat, d: int): (r: nat)
    requires d > 0
    ensures d * (2 * r - 1) <= 2 * n <= d * (2 * r + 1)
    ensures 2 * n == d * (2 * r - 1) || 2 * n == d * (2 * r + 1) ==> r % 2 == 0
  {
    var q := n / d;
    var rem := n - d * q;
    HalfEvenWindow(n, d, q, rem);
    if 2 * rem < d || (2 * rem == d && q % 2 == 0) then q else q + 1
  }

  lemma HalfEvenWindow(n: nat, d: int, q: int, rem: int)
    requires d > 0 && q == n / d && rem == n - d * q
    ensures q >= 0 && 0 <= rem < d
    ensures d * (2 * q - 1) == 2 * n - 2 * rem - d && d * (2 * q + 1) == 2 * n - 2 * rem + d
    ensures d * (2 * (q + 1) - 1) == 2 * n - 2 * rem + d && d * (2 * (q + 1) + 1) == 2 * n - 2 * rem + 3 * d
  {
    DivBounds(n, d);
    Odd(d, q);
    assert 2 * (q + 1) - 1 == 2 * q + 1;
    assert d * (2 * (q + 1) + 1) == d * (2 * q + 1) + 2 * d;
  }

  lemma DivBounds(n: int, d: int)
    requires d > 0
    ensures d * (n / d) <= n < d * (n / d) + d
    ensures n >= 0 ==> n / d >= 0
  {
  }

  lemma MulLe(d: int, a: int, b: int)
    requires d >= 0 && a <= b
    ensures d * a <= d * b
  {
  }

  /** Cancels a positive factor on both sides of a strict inequality. */
  lemma MulCancel(d: int, a: int, b: int)
    requires d > 0 && d * a < d * b
    ensures a < b
  {
    if b <= a {
      MulLe(d, b, a);
    }
  }

  /** The rounding window characterizes HalfUp on non-negative quotients. */
  lemma HalfUpIs(n: nat, d: int, r: int)
    requires d > 0
    ensures HalfUp(n, d) == r <==> d * (2 * r - 1) <= 2 * n < d * (2 * r + 1)
  {
    var h := HalfUp(n, d);
    if d * (2 * r - 1) <= 2 * n < d * (2 * r + 1) {
      MulCancel(d, 2 * r - 1, 2 * h + 1);
      MulCancel(d, 2 * h - 1, 2 * r + 1);
    }
  }

  lemma HalfUpMonotone(n: int, m: int, d: int)
    requires d > 0 && n <= m
    ensures HalfUp(n, d) <= HalfUp(m, d)
  {
    var r, s := HalfUp(n, d), HalfUp(m, d);
    if n == m {
    } else {
      MulCancel(d, 2 * r - 1, 2 * s + 1);
    }
  }

  /** Rounding n / d up never passes a whole number above the quotient. */
  lemma HalfUpAtMost(n: nat, d: int, bound: int)
    requires d > 0 && n <= d * bound
    ensures 0 <= HalfUp(n, d) <= bound
  {
    var r := HalfUp(n, d);
    assert d * (2 * bound) == 2 * (d * bound);
    assert d * (2 * bound + 1) == d * (2 * bound) + d;
    MulCancel(d, 2 * r - 1, 2 * bound + 1);
    assert d * 0 == 0;
    MulCancel(d, 0, 2 * r + 1);
  }

  function Pow10(k: nat): (p: int)
    ensures p > 0
  {
    if k == 0 then 1 else 10 * Pow10(k - 1)
  }

  lemma {:induction false} Pow10Monotone(j: nat, k: nat)
    requires j <= k
    ensures Pow10(j) <= Pow10(k)
  {
    if j < k {
      Pow10Monotone(j, k - 1);
    }
  }

  /** Rounding first to a fine grid of s (even, finer than d) steps per cent and
      then to cents is rounding once: the grid contains every half cent, and no
      quotient with denominator d comes within half a grid step of one. */
  lemma DoubleRoundingOnGrid(p: nat, d: int, s: int)
    requires d > 0 && s > d && s % 2 == 0
    ensures HalfUp(HalfEven(p * s, d), s) == HalfUp(p, d)
  {
    var r, h := HalfUp(p, d), s / 2;
    // The half cents on either side, in grid steps.
    var lo, hi := (2 * r - 1) * h, (2 * r + 1) * h;
    ScaleWindow(d, s, 2 * p, d * (2 * r - 1), d * (2 * r + 1));
    GridPoint(d, s, h, 2 * r - 1);
    GridPoint(d, s, h, 2 * r + 1);
    var n := p * s;
    assert 2 * n == s * (2 * p) by { ScaleTwice(p, s); }
    BetweenGridPoints(n, d, lo, hi);
    assert s * (2 * r - 1) == 2 * lo by { GridPoint(1, s, h, 2 * r - 1); }
    assert s * (2 * r + 1) == 2 * hi by { GridPoint(1, s, h, 2 * r + 1); }
    HalfUpIs(HalfEven(n, d), s, r);
  }

  lemma ScaleTwice(p: int, s: int)
    ensures 2 * (p * s) == s * (2 * p)
  {
  }

  /** Scaling an integer window by s > d leaves a gap of more than d at its top. */
  lemma ScaleWindow(d: int, s: int, n: int, lo: int, hi: int)
    requires 0 < d < s && lo <= n < hi
    ensures s * lo <= s * n < s * hi - d
  {
    MulLe(s, lo, n);
    MulLe(s, n, hi - 1);
    assert s * (hi - 1) == s * hi - s;
  }

  /** Rounding keeps a quotient at or above a whole number there, and one that is
      more than half a step below a whole number strictly below it. */
  lemma BetweenGridPoints(n: nat, d: int, lo: int, hi: int)
    requires d > 0
    requires d * (2 * lo) <= 2 * n < d * (2 * hi) - d
    ensures lo <= HalfEven(n, d) < hi
  {
    var q: int := HalfEven(n, d);
    assert d * (2 * q + 2) == d * (2 * q + 1) + d;
    MulCancel(d, 2 * lo, 2 * q + 2);
    assert d * (2 * hi - 1) == d * (2 * hi) - d;
    MulCancel(d, 2 * q - 1, 2 * hi - 1);
  }

  lemma GridPoint(d: int, s: int, h: int, odd: int)
    requires s == 2 * h
    ensures d * (2 * (odd * h)) == s * (d * odd)
  {
    assert d * (2 * (odd * h)) == (2 * h) * (d * odd);
  }

  /** The quotient of p cents by d, in currency units, has exponent -k in a
      28-digit context: its coefficient p * 10^(k-2) / d has 28 digits.  Zero has
      no leading digit and may have any exponent. */
  ghost predicate Fits28Digits(p: nat, d: int, k: int) {
    && d > 0 && k >= 2
    && (p > 0 ==> Pow10(27) * d <= p * Pow10(k - 2) < Pow10(28) * d)
  }

  /** What the program computes of p cents divided by d, at that exponent. */
  ghost function InContext(p: nat, d: int, k: int): int
    requires Fits28Digits(p, d, k)
  {
    HalfUp(HalfEven(p * Pow10(k - 2), d), Pow10(k - 2))
  }

  lemma ExponentExists(p: nat, d: int) returns (k: int)
    requires d > 0 && p < Pow10(10)
    ensures Fits28Digits(p, d, k)
  {
    k := 2;
    Digits();
    assert p * Pow10(0) == p;
    MulLe(Pow10(28), 1, d);
    while p > 0 && p * Pow10(k - 2) < Pow10(27) * d
      invariant k >= 2 && p * Pow10(k - 2) < Pow10(28) * d
      decreases Pow10(27) * d - p * Pow10(k - 2)
    {
      TenTimes(p, d, k - 2);
      k := k + 1;
    }
  }

  lemma TenTimes(p: int, d: int, m: nat)
    requires p > 0
    ensures p * Pow10(m + 1) == 10 * (p * Pow10(m)) > 0 && Pow10(28) * d == 10 * (Pow10(27) * d)
  {
    MulLe(Pow10(m), 1, p);
  }

  lemma GridIsEven(k: nat)
    requires k >= 1
    ensures Pow10(k) % 2 == 0
  {
    var half := 5 * Pow10(k - 1);
    assert Pow10(k) == 2 * half;
  }

  /** The program divides in a 28-digit half-even context and only then rounds to
      cents.  For every price the column type admits (below 10^8 units, that is
      10^10 cents) and every positive divisor such a quotient exists, and it equals
      one rounding of the exact quotient: computing in integer cents loses nothing. */
  lemma ContextDivisionIsFaithful(p: nat, d: int)
    requires d > 0 && p < Pow10(10)
    ensures exists k :: Fits28Digits(p, d, k)
    ensures forall k | Fits28Digits(p, d, k) :: (p > 0 ==> k >= 20) && InContext(p, d, k) == HalfUp(p, d)
  {
    var _ := ExponentExists(p, d);
    forall k | Fits28Digits(p, d, k) ensures (p > 0 ==> k >= 20) && InContext(p, d, k) == HalfUp(p, d) {
      if p > 0 {
        AtExponent(p, d, k);
      } else {
        HalfUpIs(0, d, 0);
        HalfUpIs(0, Pow10(k - 2), 0);
        assert HalfEven(0, d) == 0;
      }
    }
  }

  lemma AtExponent(p: nat, d: int, k: int)
    requires Fits28Digits(p, d, k)
    requires 0 < p < Pow10(10)
    ensures k >= 20
    ensures InContext(p, d, k) == HalfUp(p, d)
  {
    var s := Pow10(k - 2);
    Digits();
    FinerThanDivisor(p, s, d);
    if k - 2 <= 17 {
      Pow10Monotone(k - 2, 17);
      assert false;
    }
    GridIsEven(k - 2);
    DoubleRoundingOnGrid(p, d, s);
  }

  lemma FinerThanDivisor(p: nat, s: int, d: int)
    requires d > 0 && s > 0 && p < Pow10(10)
    requires Pow10(27) * d <= p * s
    ensures s > Pow10(17) && s > d
  {
    Digits();
    var ten17 := Pow10(17);
    assert Pow10(27) == ten17 * Pow10(10);
    MulLe(s, p, Pow10(10) - 1);
    assert Pow10(10) * (ten17 * d) < Pow10(10) * s;
    MulCancel(Pow10(10), ten17 * d, s);
    MulLe(ten17, 1, d);
    MulLe(d, 1, ten17);
  }

  lemma Digits()
    ensures Pow10(10) == 10000000000
    ensures Pow10(17) == 100000000000000000
    ensures Pow10(27) == 1000000000000000000000000000
  {
    assert Pow10(5) == 100000;
    assert Pow10(10) == 10000000000;
    assert Pow10(14) == 100000000000000;
    assert Pow10(17) == 100000000000000000;
    assert Pow10(21) == 1000000000000000000000;
    assert Pow10(24) == 1000000000000000000000000;
    assert Pow10(27) == 1000000000000000000000000000;
  }
}
