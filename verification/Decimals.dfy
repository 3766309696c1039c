/** Decimal arithmetic the way the backend gets it: exact coefficients, rounded to a 28-digit context. */
module Decimals {
  import opened Common

  /** The number coef / 10^scale. */
  datatype Decimal = Decimal(coef: int, scale: int)

  datatype Rounding = HalfUp | HalfEven

  function Negated(x: Decimal): Decimal {
    Decimal(-x.coef, x.scale)
  }

  const PRECISION: nat := 28
  /** 10^28: a coefficient fits the context exactly when it is smaller than this in magnitude. */
  const LIMIT: nat := 1_0000_0000_0000_0000_0000_0000_0000

  function Pow10(n: nat): (p: nat)
    ensures p >= 1
  {
    if n == 0 then 1 else 10 * Pow10(n - 1)
  }

  function Abs(x: int): nat {
    if x < 0 then -x else x
  }

  /** The number of decimal digits of n (1 for zero). */
  function Digits(n: nat): nat {
    if n < 10 then 1 else 1 + Digits(n / 10)
  }

  function RoundNat(n: nat, d: nat, mode: Rounding): nat
    requires d > 0
  {
    var q, r := n / d, n % d;
    match mode
    case HalfUp => if 2 * r >= d then q + 1 else q
    case HalfEven => if 2 * r > d || (2 * r == d && q % 2 == 1) then q + 1 else q
  }

  /** n / d rounded to an integer; ties are decided on the magnitude, as the decimal library does. */
  function RoundQuotient(n: int, d: nat, mode: Rounding): int
    requires d > 0
  {
    if n < 0 then -(RoundNat(-n, d, mode) as int) else RoundNat(n, d, mode)
  }

  predicate Fits(x: Decimal) {
    Abs(x.coef) < LIMIT
  }

  /** Rounds an exact result to the context's precision (half-even on the digits that do not fit). */
  function Fix(x: Decimal): Decimal {
    if Fits(x) || Digits(Abs(x.coef)) <= PRECISION then x
    else
      var k := Digits(Abs(x.coef)) - PRECISION;
      Decimal(RoundQuotient(x.coef, Pow10(k), HalfEven), x.scale - k)
  }

  function Mul(x: Decimal, y: Decimal): Decimal {
    Fix(Decimal(x.coef * y.coef, x.scale + y.scale))
  }

  /** Division by 10^n, which only moves the point. */
  function Shift(x: Decimal, n: nat): Decimal {
    Fix(Decimal(x.coef, x.scale + n))
  }

  /** Sum and difference of numbers with the same scale. */
  function Add(x: Decimal, y: Decimal): Decimal
    requires x.scale == y.scale
  {
    Fix(Decimal(x.coef + y.coef, x.scale))
  }

  function Sub(x: Decimal, y: Decimal): Decimal
    requires x.scale == y.scale
  {
    Fix(Decimal(x.coef - y.coef, x.scale))
  }

  /** The coefficient x would have at the given scale. */
  function Rescaled(x: Decimal, places: int, mode: Rounding): int {
    if places >= x.scale then x.coef * Pow10(places - x.scale)
    else RoundQuotient(x.coef, Pow10(x.scale - places), mode)
  }

  /** `quantize`: fails (InvalidOperation) when the result would not fit the context. */
  function Quantize(x: Decimal, places: int, mode: Rounding): Option<Decimal> {
    var c := Rescaled(x, places, mode);
    if Abs(c) < LIMIT then Some(Decimal(c, places)) else None
  }

  /** `int(x)`: truncation toward zero. */
  function Truncate(x: Decimal): int {
    if x.scale <= 0 then x.coef * Pow10(-x.scale)
    else if x.coef < 0 then -((-x.coef) / Pow10(x.scale))
    else x.coef / Pow10(x.scale)
  }

  // ---------- facts about the arithmetic ----------

  lemma {:induction false} Pow10Adds(a: nat, b: nat)
    ensures Pow10(a + b) == Pow10(a) * Pow10(b)
  {
    if a > 0 {
      Pow10Adds(a - 1, b);
      assert Pow10(a + b) == 10 * Pow10(a - 1 + b);
    }
  }

  lemma {:induction false} DigitsBound(n: nat)
    requires n > 0
    ensures Pow10(Digits(n) - 1) <= n < Pow10(Digits(n))
  {
    if n >= 10 {
      DigitsBound(n / 10);
    }
  }

  lemma {:induction false} Pow10Monotone(a: nat, b: nat)
    requires a <= b
    ensures Pow10(a) <= Pow10(b)
  {
    if a < b {
      Pow10Monotone(a, b - 1);
    }
  }

  lemma LimitIsPow10()
    ensures Pow10(PRECISION) == LIMIT
  {
    assert Pow10(10) == 1_00_0000_0000;
    Pow10Adds(10, 10);
    Pow10Adds(20, 8);
    assert Pow10(8) == 1_0000_0000;
  }

  /** Digit counts and the context limit say the same thing. */
  lemma FitsIsDigits(n: nat)
    ensures n < LIMIT <==> Digits(n) <= PRECISION
  {
    LimitIsPow10();
    if n > 0 {
      DigitsBound(n);
      if Digits(n) <= PRECISION {
        Pow10Monotone(Digits(n), PRECISION);
      } else {
        Pow10Monotone(PRECISION, Digits(n) - 1);
      }
    }
  }

  /** Rounding to the nearest moves by at most half a unit, strictly less than half downwards when ties go up. */
  lemma RoundingIsNear(n: nat, d: nat, mode: Rounding)
    requires d > 0
    ensures -(d as int) <= 2 * (n - RoundNat(n, d, mode) * d) <= d
    ensures mode == HalfUp ==> 2 * (n - RoundNat(n, d, mode) * d) < d
  {
    assert n == n / d * d + n % d;
    assert (n / d + 1) * d == n / d * d + d;
  }

  lemma RoundingExact(q: nat, d: nat, mode: Rounding)
    requires d > 0
    ensures RoundNat(q * d, d, mode) == q
  {
    assert (q * d) / d == q && (q * d) % d == 0 by {
      DivMulExact(q, d);
    }
  }

  lemma DivMulExact(q: nat, d: nat)
    requires d > 0
    ensures (q * d) / d == q && (q * d) % d == 0
  {
    var n := q * d;
    var k := n / d;
    assert n == k * d + n % d;
    QuotientAtLeast(n, d, q);
    assert (q + 1) * d == n + d;
    if k > q {
      MulMonotone(q + 1, k, d, d);
    }
  }

  /** What does not fit the context is rounded to a number that at its old scale still does not fit. */
  lemma FixKeepsOrOverflows(x: Decimal)
    ensures Fits(x) ==> Fix(x) == x
    ensures !Fits(x) ==> Fix(x).scale < x.scale && Abs(Fix(x).coef) * Pow10(x.scale - Fix(x).scale) >= LIMIT
  {
    FitsIsDigits(Abs(x.coef));
    if !Fits(x) {
      var n := Abs(x.coef);
      var k := Digits(n) - PRECISION;
      DigitsBound(n);
      LimitIsPow10();
      Pow10Adds(PRECISION - 1, k);
      Pow10Adds(PRECISION - 1, 1);
      var r := RoundNat(n, Pow10(k), HalfEven);
      QuotientAtLeast(n, Pow10(k), Pow10(PRECISION - 1));
      assert r >= Pow10(PRECISION - 1);
      Pow10Monotone(1, k);
      MulMonotone(Pow10(PRECISION - 1), r, 10, Pow10(k));
      assert Pow10(1) == 10;
    }
  }

  lemma QuotientAtLeast(n: nat, d: nat, q: nat)
    requires d > 0 && n >= q * d
    ensures n / d >= q
  {
    var k := n / d;
    assert n == k * d + n % d;
    assert (k + 1) * d == k * d + d;
    if k < q {
      MulMonotone(k + 1, q, d, d);
    }
  }

  lemma MulMonotone(a: nat, b: nat, c: nat, d: nat)
    requires a <= b && c <= d
    ensures a * c <= b * d
  {
    assert a * c <= b * c <= b * d;
  }

  lemma SameScale(x: Decimal, mode: Rounding)
    requires Fits(x)
    ensures Quantize(x, x.scale, mode) == Some(x)
  {
    assert Pow10(0) == 1;
  }

  /** A sum or difference followed by quantize is exact, or fails. */
  lemma FixedQuantizeIsExact(x: Decimal, mode: Rounding)
    ensures Fits(x) ==> Quantize(Fix(x), x.scale, mode) == Some(x)
    ensures !Fits(x) ==> Quantize(Fix(x), x.scale, mode) == None
  {
    FixKeepsOrOverflows(x);
    assert Pow10(0) == 1;
    if !Fits(x) {
      var y := Fix(x);
      var p := Pow10(x.scale - y.scale);
      assert Abs(y.coef * p) == Abs(y.coef) * p;
    }
  }
}
