/**
 * Fixed-point decimal arithmetic of the generator.
 *
 * A decimal value is held as an integer count of units of 10^-scale: the
 * value 12.3450 at scale 4 is the integer 123450. Every monetary amount is
 * held at scale 4 (`MoneyScale`), rating averages at scale 2.
 */
module Fixed {

  /** Monetary amounts: integer units of 10^-4. */
  type Money = int

  const MoneyScale: nat := 4
  const RatingScale: nat := 2

  function Pow10(k: nat): (r: nat)
    ensures r >= 1
  {
    if k == 0 then 1 else 10 * Pow10(k - 1)
  }

  function Abs(x: int): nat {
    if x < 0 then -x else x
  }

  /**
   * The defining property of ROUND_HALF_UP, stated for the candidate multiple
   * x of the unit: x is within half a unit of num, and when num lies exactly
   * halfway, x is the candidate farther from zero.
   */
  ghost predicate NearestTieAway(num: int, den: int, x: int) {
    && 2 * Abs(num - x) <= den
    && (2 * Abs(num - x) == den ==> Abs(x) > Abs(num))
  }

  /** m is num / den rounded to an integer, ties away from zero. */
  ghost predicate IsHalfUpRounding(num: int, den: nat, m: int)
    requires den > 0
  {
    NearestTieAway(num, den, m * den)
  }

  /** num / den rounded to an integer, ties away from zero. */
  function RoundHalfUp(num: int, den: nat): (r: int)
    requires den > 0
    ensures IsHalfUpRounding(num, den, r)
    ensures num >= 0 ==> r >= 0
    ensures num <= 0 ==> r <= 0
  {
    var a := Abs(num);
    var up: int := RoundUpMagnitude(a, den);
    if num >= 0 then up
    else
      NegMul(up, den);
      -up
  }

  /** Rounding of a non-negative a / den: the quotient, plus one when the remainder is at least half. */
  function RoundUpMagnitude(a: nat, den: nat): (up: nat)
    requires den > 0
    ensures IsHalfUpRounding(a, den, up)
  {
    var q := a / den;
    var rem := a % den;
    var p := q * den;
    assert a == p + rem;
    if 2 * rem >= den then
      assert (q + 1) * den == p + den;
      q + 1
    else
      q
  }

  lemma NegMul(m: int, den: int)
    ensures (-m) * den == -(m * den)
  {
  }

  lemma MulAtLeast(k: int, den: nat)
    requires k >= 1
    ensures k * den >= den
  {
    assert k * den == (k - 1) * den + den;
    assert (k - 1) * den >= 0;
  }

  /** Distinct multiples of den are at least den apart. */
  lemma MultiplesApart(m1: int, m2: int, den: nat)
    requires m1 < m2
    ensures m2 * den - m1 * den >= den
  {
    assert m2 * den - m1 * den == (m2 - m1) * den;
    MulAtLeast(m2 - m1, den);
  }

  /** A multiple of den is non-negative or at most -den. */
  lemma MultipleSign(m: int, den: nat)
    ensures m * den >= 0 || m * den <= -(den as int)
  {
    if m < 0 {
      NegMul(m, den);
      MulAtLeast(-m, den);
    }
  }

  /** For a non-negative num the chosen multiple x lies in (num - den/2, num + den/2]. */
  lemma WindowNonNegative(num: int, den: int, x: int)
    requires den > 0 && num >= 0
    requires NearestTieAway(num, den, x)
    requires x >= 0 || x <= -den
    ensures 2 * num - den < 2 * x <= 2 * num + den
  {
  }

  /** ROUND_HALF_UP is the only integer with the defining property. */
  lemma RoundHalfUpUnique(num: int, den: nat, m: int)
    requires den > 0
    requires IsHalfUpRounding(num, den, m)
    ensures m == RoundHalfUp(num, den)
  {
    var r := RoundHalfUp(num, den);
    MultipleSign(m, den);
    MultipleSign(r, den);
    if num >= 0 {
      WindowNonNegative(num, den, m * den);
      WindowNonNegative(num, den, r * den);
    } else {
      NegMul(m, den);
      NegMul(r, den);
      MultipleSign(-m, den);
      MultipleSign(-r, den);
      WindowNonNegative(-num, den, (-m) * den);
      WindowNonNegative(-num, den, (-r) * den);
    }
    if m < r {
      MultiplesApart(m, r, den);
    } else if r < m {
      MultiplesApart(r, m, den);
    }
  }

  /** A value that is already a whole number of units is left as it is. */
  lemma RoundHalfUpExact(k: int, den: nat)
    requires den > 0
    ensures RoundHalfUp(k * den, den) == k
  {
    assert k * den - k * den == 0;
    RoundHalfUpUnique(k * den, den, k);
  }

  /** ROUND_HALF_UP is monotone. */
  lemma RoundHalfUpMonotone(a: int, b: int, den: nat)
    requires den > 0 && a <= b
    ensures RoundHalfUp(a, den) <= RoundHalfUp(b, den)
  {
    var ra, rb := RoundHalfUp(a, den), RoundHalfUp(b, den);
    if ra > rb {
      MultiplesApart(rb, ra, den);
      SpreadOfRoundings(a, b, ra * den, rb * den, den);
    }
  }

  /** Two candidates within den/2 of a <= b that are den apart the wrong way force a == b. */
  lemma SpreadOfRoundings(a: int, b: int, x: int, y: int, den: int)
    requires a <= b && x - y >= den
    requires NearestTieAway(a, den, x) && NearestTieAway(b, den, y)
    ensures a == b
  {
  }

  /**
   * quantize_decimal: the value digits * 10^-scale rounded half-up to k
   * decimal places, as a count of units of 10^-k.
   */
  function Quantize(digits: int, scale: nat, k: nat): (r: int)
  {
    if scale <= k then digits * Pow10(k - scale)
    else RoundHalfUp(digits, Pow10(scale - k))
  }

  lemma Pow10Add(a: nat, b: nat)
    ensures Pow10(a + b) == Pow10(a) * Pow10(b)
  {
    if a > 0 {
      Pow10Add(a - 1, b);
      assert Pow10(a + b) == 10 * Pow10(a - 1 + b);
    }
  }

  lemma AbsMul(x: int, p: nat)
    ensures Abs(x * p) == Abs(x) * p
  {
    if x < 0 {
      assert x * p == -((-x) * p);
    }
  }

  /**
   * The quantized result r (units of 10^-k) is within half a unit of the
   * input digits * 10^-scale, and a value exactly halfway between two
   * multiples of 10^-k goes to the one farther from zero.
   */
  lemma QuantizeWithinHalfUnit(digits: int, scale: nat, k: nat)
    ensures var r := Quantize(digits, scale, k);
      NearestTieAway(digits * Pow10(k), Pow10(scale), r * Pow10(scale))
  {
    if scale <= k {
      QuantizeExactScale(digits, scale, k);
    } else {
      QuantizeFinerScale(digits, scale, k);
    }
  }

  lemma QuantizeExactScale(digits: int, scale: nat, k: nat)
    requires scale <= k
    ensures Quantize(digits, scale, k) * Pow10(scale) == digits * Pow10(k)
  {
    var d, u, p := Pow10(k - scale), Pow10(scale), Pow10(k);
    Pow10Split(k, scale);
    MulAssoc(digits, d, u);
  }

  lemma QuantizeFinerScale(digits: int, scale: nat, k: nat)
    requires scale > k
    ensures var r := Quantize(digits, scale, k);
      NearestTieAway(digits * Pow10(k), Pow10(scale), r * Pow10(scale))
  {
    var r := Quantize(digits, scale, k);
    var d, p := Pow10(scale - k), Pow10(k);
    assert IsHalfUpRounding(digits, d, r);
    ScaleRounding(digits, d, r * d, p);
    Pow10Split(scale, k);
    MulAssoc(r, d, p);
  }

  /** 10^n == 10^(n-m) * 10^m. */
  lemma Pow10Split(n: nat, m: nat)
    requires m <= n
    ensures Pow10(n) == Pow10(n - m) * Pow10(m)
  {
    Pow10Add(n - m, m);
    assert n - m + m == n;
  }

  lemma MulAssoc(a: int, b: int, c: int)
    ensures (a * b) * c == a * (b * c)
  {
  }

  /** Scaling num, the candidate and the unit by the same positive factor keeps the rounding relation. */
  lemma ScaleRounding(num: int, d: int, x: int, p: nat)
    requires d > 0 && p > 0
    requires NearestTieAway(num, d, x)
    ensures NearestTieAway(num * p, d * p, x * p)
  {
    var e := num - x;
    var ae := Abs(e);
    assert num * p - x * p == e * p;
    assert Abs(e * p) == ae * p by { AbsMul(e, p); }
    assert 2 * (ae * p) <= d * p by {
      assert 2 * (ae * p) == (2 * ae) * p;
      MulMonotone(2 * ae, d, p);
    }
    if 2 * Abs(num * p - x * p) == d * p {
      assert (2 * ae) * p == d * p by { assert 2 * (ae * p) == (2 * ae) * p; }
      MulCancel(2 * ae, d, p);
      assert Abs(x) > Abs(num);
      AbsMul(x, p);
      AbsMul(num, p);
      MulStrict(Abs(num), Abs(x), p);
    }
  }

  lemma MulMonotone(x: int, y: int, p: nat)
    requires x <= y
    ensures x * p <= y * p
  {
    assert y * p - x * p == (y - x) * p;
  }

  lemma MulStrict(x: int, y: int, p: nat)
    requires x < y && p > 0
    ensures x * p < y * p
  {
    assert y * p - x * p == (y - x) * p;
    MulAtLeast(y - x, p);
  }

  lemma MulCancel(x: int, y: int, p: nat)
    requires p > 0 && x * p == y * p
    ensures x == y
  {
    if x < y { MulStrict(x, y, p); }
    if y < x { MulStrict(y, x, p); }
  }

  /** Quantizing is idempotent: a value already on the 10^-k grid comes back unchanged. */
  lemma QuantizeOnGrid(m: int, scale: nat, k: nat)
    requires k <= scale
    ensures Quantize(m * Pow10(scale - k), scale, k) == m
  {
    if scale > k {
      RoundHalfUpExact(m, Pow10(scale - k));
    }
  }

  /** Quantizing is monotone in its input. */
  lemma QuantizeMonotone(a: int, b: int, scale: nat, k: nat)
    requires a <= b
    ensures Quantize(a, scale, k) <= Quantize(b, scale, k)
  {
    if scale > k {
      RoundHalfUpMonotone(a, b, Pow10(scale - k));
    } else {
      assert a * Pow10(k - scale) <= b * Pow10(k - scale) by {
        assert (b - a) * Pow10(k - scale) >= 0;
      }
    }
  }

  /** Quantizing to the scale a value already has changes nothing. */
  lemma QuantizeSameScale(x: int, k: nat)
    ensures Quantize(x, k, k) == x
  {
  }

  /** Rounding num / den cannot exceed a bound m with num <= m * den. */
  lemma RoundHalfUpAtMost(num: int, den: nat, m: int)
    requires den > 0 && num <= m * den
    ensures RoundHalfUp(num, den) <= m
  {
    RoundHalfUpMonotone(num, m * den, den);
    RoundHalfUpExact(m, den);
  }
}
