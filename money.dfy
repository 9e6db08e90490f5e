/**
 * Decimal money arithmetic. Amounts are exact rationals (`real`); the only
 * rounding the ERP performs is `Decimal.quantize(Decimal("0.01"))`, which in
 * Python's default decimal context rounds half to even.
 */
module Money {

  /** The nearest integer to `y`, ties going to the even neighbour (ROUND_HALF_EVEN). */
  function RoundHalfEven(y: real): (n: int)
    ensures -0.5 <= n as real - y <= 0.5
    ensures (n as real - y == 0.5 || y - n as real == 0.5) ==> n % 2 == 0
  {
    var f := y.Floor;
    var d := y - f as real;
    if d < 0.5 then f
    else if d > 0.5 then f + 1
    else if f % 2 == 0 then f
    else f + 1
  }

  /** The amount of `n` cents. */
  function CentsValue(n: int): real
  {
    n as real / 100.0
  }

  /** A whole number of cents. */
  ghost predicate IsCents(x: real)
  {
    exists n :: CentsValue(n) == x
  }

  /** `amount.quantize(Decimal("0.01"))`. */
  function Quantize(x: real): (r: real)
    ensures IsCents(r)
  {
    var n := RoundHalfEven(x * 100.0);
    assert CentsValue(n) == n as real / 100.0;
    CentsValue(n)
  }

  /** Rounding to cents moves an amount by at most half a cent. */
  lemma QuantizeClose(x: real)
    ensures -0.005 <= Quantize(x) - x <= 0.005
  {
  }

  lemma FloorOfInt(n: int)
    ensures (n as real).Floor == n
  {
  }

  lemma RoundExact(k: int)
    ensures RoundHalfEven(k as real) == k
  {
    FloorOfInt(k);
  }

  /** Quantizing an amount that is already in cents leaves it unchanged. */
  lemma QuantizeCents(x: real)
    requires IsCents(x)
    ensures Quantize(x) == x
  {
    var k :| CentsValue(k) == x;
    assert x * 100.0 == k as real;
    RoundExact(k);
  }

  lemma CentsAdd(a: real, b: real)
    requires IsCents(a) && IsCents(b)
    ensures IsCents(a + b) && IsCents(a - b)
  {
    var i :| CentsValue(i) == a;
    var j :| CentsValue(j) == b;
    assert CentsValue(i + j) == a + b;
    assert CentsValue(i - j) == a - b;
  }

  lemma IntCents(k: int)
    ensures IsCents(k as real)
  {
    assert CentsValue(k * 100) == k as real;
  }

  /** Larger amounts never round to fewer cents. */
  lemma {:induction false} RoundHalfEvenMonotone(x: real, y: real)
    requires x <= y
    ensures RoundHalfEven(x) <= RoundHalfEven(y)
  {
    var fx, fy := x.Floor, y.Floor;
    if fx < fy {
      assert RoundHalfEven(x) <= fx + 1 <= fy <= RoundHalfEven(y);
    } else {
      assert fx == fy;
    }
  }

  lemma QuantizeMonotone(x: real, y: real)
    requires x <= y
    ensures Quantize(x) <= Quantize(y)
  {
    RoundHalfEvenMonotone(x * 100.0, y * 100.0);
  }

  /** A non-negative amount never rounds below zero. */
  lemma QuantizeNonNegative(x: real)
    requires x >= 0.0
    ensures Quantize(x) >= 0.0
  {
    QuantizeMonotone(0.0, x);
    QuantizeCents(0.0);
  }

  /** A percentage in [0, 100] of a non-negative amount in cents rounds to between 0 and the amount. */
  lemma PercentOfCents(x: real, p: real)
    requires IsCents(x) && x >= 0.0 && 0.0 <= p <= 100.0
    ensures 0.0 <= Quantize(x * p / 100.0) <= x
  {
    var y := x * p / 100.0;
    assert 0.0 <= y <= x by {
      assert x * p <= x * 100.0;
    }
    QuantizeNonNegative(y);
    QuantizeMonotone(y, x);
    QuantizeCents(x);
  }

  /** `(x * p / 100).quantize(Decimal("0.01"))`: a percentage of an amount, rounded to cents. */
  function Percent(x: real, p: real): (r: real)
    ensures IsCents(r)
  {
    Quantize(x * p / 100.0)
  }

  /** A percentage in [0, 100] of a non-negative amount in cents lies between 0 and the amount. */
  lemma PercentWithin(x: real, p: real)
    requires IsCents(x) && x >= 0.0 && 0.0 <= p <= 100.0
    ensures 0.0 <= Percent(x, p) <= x
  {
    PercentOfCents(x, p);
  }

  lemma PercentNonNegative(x: real, p: real)
    requires x >= 0.0 && p >= 0.0
    ensures Percent(x, p) >= 0.0
  {
    assert x * p >= 0.0;
    QuantizeNonNegative(x * p / 100.0);
  }

  lemma ZeroCents()
    ensures IsCents(0.0)
  {
    assert CentsValue(0) == 0.0;
  }
}
