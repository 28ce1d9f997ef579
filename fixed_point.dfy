/**
 * Fixed-point constants and the two decimal scalers of lib/config.ts.
 *
 * A configuration value is an exact decimal `mantissa / 10^fractionDigits`.
 * `toScale` multiplies it by 10^18 and `toUtilizationScale` by 10^5; both
 * then round to 0 decimal places with BigNumber's default mode, which rounds
 * to the nearest integer and sends ties away from zero.
 */
module FixedPoint {

  function Pow10(k: nat): (r: int)
    ensures r >= 1
  {
    if k == 0 then 1 else 10 * Pow10(k - 1)
  }

  /** 10^18: the fixed-point unit of every ratio and rate. */
  const SCALE: int := 1_000_000_000_000_000_000
  /** One percent of SCALE. */
  const PERCENT: int := 10_000_000_000_000_000
  const FRACTION: int := 10_000_000_000_000
  /** A 360-day year, in seconds. */
  const YEAR_IN_SECONDS: int := 360 * 24 * 60 * 60
  /** The factor `toUtilizationScale` multiplies by. */
  const UTILIZATION_SCALE: int := 100000

  lemma ConstantsAgree()
    ensures SCALE == Pow10(18) && PERCENT == Pow10(16) && FRACTION == Pow10(13)
    ensures PERCENT == SCALE / 100
    ensures UTILIZATION_SCALE == Pow10(5)
    ensures YEAR_IN_SECONDS == 31104000
  {
    assert Pow10(5) == 100000 by {
      assert Pow10(1) == 10 && Pow10(2) == 100 && Pow10(3) == 1000 && Pow10(4) == 10000;
    }
    Pow10Add(5, 5);
    Pow10Add(10, 3);
    Pow10Add(13, 3);
    Pow10Add(16, 2);
    assert Pow10(2) == 100 && Pow10(3) == 1000;
  }

  /** The exact decimal `mantissa / 10^fractionDigits`. */
  datatype Decimal = Decimal(mantissa: int, fractionDigits: nat)

  function Negate(d: Decimal): Decimal
  {
    Decimal(-d.mantissa, d.fractionDigits)
  }

  /** `a <= b` as rational numbers. */
  ghost predicate DecimalLe(a: Decimal, b: Decimal)
  {
    a.mantissa * Pow10(b.fractionDigits) <= b.mantissa * Pow10(a.fractionDigits)
  }

  /** `a` and `b` denote the same rational number. */
  ghost predicate SameValue(a: Decimal, b: Decimal)
  {
    a.mantissa * Pow10(b.fractionDigits) == b.mantissa * Pow10(a.fractionDigits)
  }

  /**
   * Reference definition of rounding `num / den` to 0 places, half away
   * from zero: `r` is within one half of `num / den`, and on a tie it is the
   * neighbour farther from zero (above for `num >= 0`, below otherwise).
   */
  ghost predicate IsNearestTiesAway(num: int, den: int, r: int)
    requires den > 0
  {
    if num >= 0 then -den <= 2 * (num - r * den) < den
    else -den < 2 * (num - r * den) <= den
  }

  /** BigNumber's `decimalPlaces(0)` in its default mode, on `num / den`. */
  function RoundHalfAwayFromZero(num: int, den: int): int
    requires den > 0
  {
    if num >= 0 then (2 * num + den) / (2 * den)
    else -((2 * -num + den) / (2 * den))
  }

  lemma MulAtLeast(a: int, b: int)
    requires a >= 1 && b > 0
    ensures a * b >= b
  {
  }

  lemma MulPreservesLe(x: int, y: int, c: int)
    requires x <= y && c > 0
    ensures x * c <= y * c
  {
  }

  lemma MulPreservesLt(x: int, y: int, c: int)
    requires x < y && c > 0
    ensures x * c < y * c
  {
  }

  lemma FloorBounds(x: int, d: int)
    requires d > 0
    ensures (x / d) * d <= x < (x / d) * d + d
  {
  }

  /** On a non-negative numerator the division rounds up from one half. */
  lemma RoundNonNegativeNearest(n: int, den: int)
    requires n >= 0 && den > 0
    ensures -den <= 2 * (n - ((2 * n + den) / (2 * den)) * den) < den
  {
    var q := (2 * n + den) / (2 * den);
    FloorBounds(2 * n + den, 2 * den);
    assert q * (2 * den) == 2 * (q * den);
  }

  lemma RoundIsNearest(num: int, den: int)
    requires den > 0
    ensures IsNearestTiesAway(num, den, RoundHalfAwayFromZero(num, den))
  {
    if num >= 0 {
      RoundNonNegativeNearest(num, den);
    } else {
      var q := (2 * -num + den) / (2 * den);
      RoundNonNegativeNearest(-num, den);
      assert (-q) * den == -(q * den);
    }
  }

  /** The reference definition pins the rounded value down uniquely. */
  lemma RoundUnique(num: int, den: int, r1: int, r2: int)
    requires den > 0
    requires IsNearestTiesAway(num, den, r1) && IsNearestTiesAway(num, den, r2)
    ensures r1 == r2
  {
    if r1 < r2 {
      MulAtLeast(r2 - r1, den);
    } else if r2 < r1 {
      MulAtLeast(r1 - r2, den);
    }
  }

  /** Rounding agrees with the reference definition and with nothing else. */
  lemma RoundCharacterised(num: int, den: int, r: int)
    requires den > 0
    ensures IsNearestTiesAway(num, den, r) <==> r == RoundHalfAwayFromZero(num, den)
  {
    RoundIsNearest(num, den);
    if IsNearestTiesAway(num, den, r) {
      RoundUnique(num, den, r, RoundHalfAwayFromZero(num, den));
    }
  }

  /** A quotient that is already an integer is not rounded. */
  lemma RoundExact(q: int, den: int)
    requires den > 0
    ensures RoundHalfAwayFromZero(q * den, den) == q
  {
    RoundCharacterised(q * den, den, q);
  }

  lemma RoundOdd(num: int, den: int)
    requires den > 0
    ensures RoundHalfAwayFromZero(-num, den) == -RoundHalfAwayFromZero(num, den)
  {
  }

  lemma RoundMonotone(n1: int, n2: int, den: int)
    requires den > 0 && n1 <= n2
    ensures RoundHalfAwayFromZero(n1, den) <= RoundHalfAwayFromZero(n2, den)
  {
    var r1, r2 := RoundHalfAwayFromZero(n1, den), RoundHalfAwayFromZero(n2, den);
    RoundIsNearest(n1, den);
    RoundIsNearest(n2, den);
    if r1 > r2 {
      MulAtLeast(r1 - r2, den);
      MulSubDistributes(r1, r2, den);
      NearestTiesAwayBounds(n1, den, r1);
      NearestTiesAwayBounds(n2, den, r2);
    }
  }

  lemma MulSubDistributes(a: int, b: int, c: int)
    ensures (a - b) * c == a * c - b * c
  {
  }

  /** The two one-sided bounds of the reference rounding, with the strict side by sign. */
  lemma NearestTiesAwayBounds(num: int, den: int, r: int)
    requires den > 0 && IsNearestTiesAway(num, den, r)
    ensures 2 * (r * den) <= 2 * num + den
    ensures 2 * num - den <= 2 * (r * den)
    ensures num >= 0 ==> 2 * num - den < 2 * (r * den)
    ensures num < 0 ==> 2 * (r * den) < 2 * num + den
  {
  }

  /** Multiplying numerator and denominator by the same factor changes nothing. */
  lemma RoundScaleInvariant(num: int, den: int, c: int)
    requires den > 0 && c > 0
    ensures RoundHalfAwayFromZero(num * c, den * c) == RoundHalfAwayFromZero(num, den)
  {
    var r := RoundHalfAwayFromZero(num, den);
    RoundIsNearest(num, den);
    var e := 2 * (num - r * den);
    assert 2 * (num * c - r * (den * c)) == e * c;
    assert (-den) * c == -(den * c);
    if num >= 0 {
      assert num * c >= 0;
      MulPreservesLe(-den, e, c);
      MulPreservesLt(e, den, c);
    } else {
      MulPreservesLt(num, 0, c);
      MulPreservesLt(-den, e, c);
      MulPreservesLe(e, den, c);
    }
    assert IsNearestTiesAway(num * c, den * c, r);
    RoundCharacterised(num * c, den * c, r);
  }

  lemma Pow10Add(a: nat, b: nat)
    ensures Pow10(a + b) == Pow10(a) * Pow10(b)
  {
    if a > 0 {
      Pow10Add(a - 1, b);
      assert Pow10(a + b) == 10 * Pow10(a - 1 + b);
    }
  }

  /** `d * factor`, rounded to 0 places half away from zero. */
  function ScaleDecimal(d: Decimal, factor: int): (r: int)
    requires factor > 0
    ensures IsNearestTiesAway(d.mantissa * factor, Pow10(d.fractionDigits), r)
  {
    RoundIsNearest(d.mantissa * factor, Pow10(d.fractionDigits));
    RoundHalfAwayFromZero(d.mantissa * factor, Pow10(d.fractionDigits))
  }

  /** With at most `e` fractional digits, scaling by 10^e is exact. */
  lemma ScaleDecimalExact(d: Decimal, e: nat)
    ensures d.fractionDigits <= e ==>
      ScaleDecimal(d, Pow10(e)) == d.mantissa * Pow10(e - d.fractionDigits)
  {
    if d.fractionDigits <= e {
      var k := d.fractionDigits;
      Pow10Add(e - k, k);
      assert d.mantissa * Pow10(e) == (d.mantissa * Pow10(e - k)) * Pow10(k);
      RoundExact(d.mantissa * Pow10(e - k), Pow10(k));
    }
  }

  lemma ScaleDecimalOdd(d: Decimal, factor: int)
    requires factor > 0
    ensures ScaleDecimal(Negate(d), factor) == -ScaleDecimal(d, factor)
  {
    assert Negate(d).mantissa * factor == -(d.mantissa * factor);
    RoundOdd(d.mantissa * factor, Pow10(d.fractionDigits));
  }

  lemma ScaleDecimalZero(k: nat, factor: int)
    requires factor > 0
    ensures ScaleDecimal(Decimal(0, k), factor) == 0
  {
    RoundExact(0, Pow10(k));
  }

  lemma MulSwapLast(x: int, y: int, z: int)
    ensures x * y * z == (x * z) * y
  {
  }

  lemma ScaleDecimalMonotone(a: Decimal, b: Decimal, factor: int)
    requires factor > 0 && DecimalLe(a, b)
    ensures ScaleDecimal(a, factor) <= ScaleDecimal(b, factor)
  {
    var pa, pb := Pow10(a.fractionDigits), Pow10(b.fractionDigits);
    var na, nb := a.mantissa * factor, b.mantissa * factor;
    RoundScaleInvariant(na, pa, pb);
    RoundScaleInvariant(nb, pb, pa);
    assert pb * pa == pa * pb;
    MulSwapLast(a.mantissa, factor, pb);
    MulSwapLast(b.mantissa, factor, pa);
    MulPreservesLe(a.mantissa * pb, b.mantissa * pa, factor);
    RoundMonotone(na * pb, nb * pa, pa * pb);
  }

  /** Two spellings of one number (0.8 and 0.80) scale to the same integer. */
  lemma ScaleDecimalRespectsValue(a: Decimal, b: Decimal, factor: int)
    requires factor > 0 && SameValue(a, b)
    ensures ScaleDecimal(a, factor) == ScaleDecimal(b, factor)
  {
    ScaleDecimalMonotone(a, b, factor);
    ScaleDecimalMonotone(b, a, factor);
  }

  /** `toScale`: `d * 10^18` rounded half away from zero; exact for up to 18 fractional digits. */
  function ToScale(d: Decimal): (r: int)
    ensures IsNearestTiesAway(d.mantissa * SCALE, Pow10(d.fractionDigits), r)
    ensures d.fractionDigits <= 18 ==> r == d.mantissa * Pow10(18 - d.fractionDigits)
  {
    ConstantsAgree();
    ScaleDecimalExact(d, 18);
    ScaleDecimal(d, SCALE)
  }

  /** `toUtilizationScale`: `d * 10^5` rounded half away from zero; exact for up to 5 fractional digits. */
  function ToUtilizationScale(d: Decimal): (r: int)
    ensures IsNearestTiesAway(d.mantissa * UTILIZATION_SCALE, Pow10(d.fractionDigits), r)
    ensures d.fractionDigits <= 5 ==> r == d.mantissa * Pow10(5 - d.fractionDigits)
  {
    ConstantsAgree();
    ScaleDecimalExact(d, 5);
    ScaleDecimal(d, UTILIZATION_SCALE)
  }

  /** Both scalers are odd, map zero to zero and are monotone. */
  lemma ScalersOddZeroMonotone(a: Decimal, b: Decimal, k: nat)
    ensures ToScale(Negate(a)) == -ToScale(a)
    ensures ToUtilizationScale(Negate(a)) == -ToUtilizationScale(a)
    ensures ToScale(Decimal(0, k)) == 0 && ToUtilizationScale(Decimal(0, k)) == 0
    ensures DecimalLe(a, b) ==> ToScale(a) <= ToScale(b)
    ensures DecimalLe(a, b) ==> ToUtilizationScale(a) <= ToUtilizationScale(b)
  {
    ScaleDecimalOdd(a, SCALE);
    ScaleDecimalOdd(a, UTILIZATION_SCALE);
    ScaleDecimalZero(k, SCALE);
    ScaleDecimalZero(k, UTILIZATION_SCALE);
    if DecimalLe(a, b) {
      ScaleDecimalMonotone(a, b, SCALE);
      ScaleDecimalMonotone(a, b, UTILIZATION_SCALE);
    }
  }

  /** Worked values: 0.75 and 0.02 at 10^18, 0.8 at 10^5, and ties at +-0.5 going away from zero. */
  lemma ScalerExamples()
    ensures ToScale(Decimal(75, 2)) == 750_000_000_000_000_000
    ensures ToScale(Decimal(2, 2)) == 20_000_000_000_000_000
    ensures ToUtilizationScale(Decimal(8, 1)) == 80000
    ensures ToUtilizationScale(Decimal(5, 6)) == 1
    ensures ToUtilizationScale(Decimal(-5, 6)) == -1
    ensures ToUtilizationScale(Decimal(15, 7)) == 0
  {
    RoundCharacterised(5 * UTILIZATION_SCALE, Pow10(6), 1);
    RoundCharacterised(-5 * UTILIZATION_SCALE, Pow10(6), -1);
    RoundCharacterised(15 * UTILIZATION_SCALE, Pow10(7), 0);
  }
}
