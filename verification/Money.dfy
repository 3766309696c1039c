/** Minor-unit conversion (two independent implementations) and the sandbox exchange. */
module Money {
  import opened Common
  import opened Decimals

  datatype MoneyError = UnsupportedCurrency | NotPositive | InvalidOperation

  datatype Units = Units(n: int) | UnitsError(error: MoneyError)
  datatype Amount = Amount(value: Decimal) | AmountError(error: MoneyError)

  /** Minor-unit exponents of ISO 4217, Table A.1, for the enabled currencies. */
  function CurrencyExponent(currency: string): Option<nat> {
    if Upper(currency) in {"AED", "CAD", "EUR", "GBP", "SAR", "USD"} then Some(2) else None
  }

  function ToMinorUnits(amount: Decimal, currency: string): Units {
    match CurrencyExponent(currency)
    case None => UnitsError(UnsupportedCurrency)
    case Some(exponent) =>
      match Quantize(amount, exponent, HalfUp)
      case None => UnitsError(InvalidOperation)
      case Some(normalized) => Units(Truncate(Mul(normalized, Decimal(Pow10(exponent), 0))))
  }

  function FromMinorUnits(amountMinor: int, currency: string): Amount {
    if amountMinor <= 0 then AmountError(NotPositive)
    else
      match CurrencyExponent(currency)
      case None => AmountError(UnsupportedCurrency)
      case Some(exponent) =>
        match Quantize(Shift(Decimal(amountMinor, 0), exponent), exponent, HalfEven)
        case None => AmountError(InvalidOperation)
        case Some(value) => Amount(value)
  }

  /** The card gateway's own conversion: always two places, rounding half to even. */
  function MoyasarMinorUnits(amount: Decimal): Units {
    match Quantize(Mul(amount, Decimal(100, 0)), 0, HalfEven)
    case None => UnitsError(InvalidOperation)
    case Some(whole) => Units(Truncate(whole))
  }

  // ---------- multiplying by a hundred ----------

  /** Multiplying a number that fits by a hundred is exact: only zeros are ever dropped. */
  lemma HundredfoldIsExact(c: nat, scale: int) returns (k: nat)
    requires c < LIMIT
    ensures k <= 2 && Mul(Decimal(c, scale), Decimal(100, 0)) == Decimal(c * Pow10(2 - k), scale - k)
  {
    var n := c * 100;
    assert Pow10(2) == 100 && Pow10(1) == 10 && Pow10(0) == 1;
    if n < LIMIT {
      k := 0;
    } else {
      assert (c * 100) / 10 == c * 10 && (c * 10) / 10 == c;
      assert Digits(n) == Digits(c) + 2;
      FitsIsDigits(c);
      FitsIsDigits(n);
      k := Digits(n) - PRECISION;
      assert n == (c * Pow10(2 - k)) * Pow10(k) by {
        Pow10Adds(2 - k, k);
      }
      RoundingExact(c * Pow10(2 - k), Pow10(k), HalfEven);
    }
  }

  /** Rounding a quotient does not depend on common factors. */
  lemma RoundingCancels(n: nat, d: nat, m: nat, mode: Rounding)
    requires d > 0 && m > 0
    ensures d * m > 0 && RoundNat(n * m, d * m, mode) == RoundNat(n, d, mode)
  {
    MulMonotone(1, d, 1, m);
    var q, r := n / d, n % d;
    assert n * m == q * (d * m) + r * m by {
      assert n == q * d + r;
      assert (q * d + r) * m == (q * d) * m + r * m;
      assert (q * d) * m == q * (d * m);
    }
    assert r * m < d * m by {
      MulMonotone(r + 1, d, m, m);
      assert (r + 1) * m == r * m + m;
    }
    QuotientIs(n * m, d * m, q, r * m);
    Compare(2 * r, d, m);
    assert (2 * r) * m == 2 * (r * m);
  }

  lemma Compare(a: nat, b: nat, m: nat)
    requires m > 0
    ensures (a >= b <==> a * m >= b * m) && (a == b <==> a * m == b * m)
  {
    assert a * m - b * m == (a - b) * m;
  }

  lemma QuotientIs(n: nat, d: nat, q: nat, r: nat)
    requires d > 0 && r < d && n == q * d + r
    ensures n / d == q && n % d == r
  {
    var k := n / d;
    assert n == k * d + n % d;
    QuotientAtLeast(n, d, q);
    assert (q + 1) * d == q * d + d;
    if k > q {
      MulMonotone(q + 1, k, d, d);
    }
  }

  // ---------- round trips ----------

  /** Minor units convert to an amount exactly when they are positive and have at most 28 digits. */
  lemma FromMinorUnitsIsExact(n: int, currency: string)
    ensures 0 < n < LIMIT && CurrencyExponent(currency).Some? ==> FromMinorUnits(n, currency) == Amount(Decimal(n, 2))
    ensures FromMinorUnits(n, currency).Amount? ==> 0 < n < LIMIT && CurrencyExponent(currency).Some?
  {
    if n > 0 {
      FixedQuantizeIsExact(Decimal(n, 2), HalfEven);
    }
  }

  // Every operation treats a number and its negative alike.

  lemma FixMirror(x: Decimal)
    ensures Fix(Negated(x)) == Negated(Fix(x))
  {
  }

  lemma RescaledMirror(x: Decimal, places: int, mode: Rounding)
    ensures Rescaled(Negated(x), places, mode) == -Rescaled(x, places, mode)
  {
    if places >= x.scale {
      TimesNegated(x.coef, Pow10(places - x.scale));
    }
  }

  lemma TimesNegated(a: int, b: int)
    ensures (-a) * b == -(a * b)
  {
  }

  lemma TruncateMirror(x: Decimal)
    ensures Truncate(Negated(x)) == -Truncate(x)
  {
    if x.scale <= 0 {
      TimesNegated(x.coef, Pow10(-x.scale));
    } else if x.coef == 0 {
      assert 0 / Pow10(x.scale) == 0;
    }
  }

  lemma HundredfoldTruncatesNat(c: nat)
    requires c < LIMIT
    ensures Truncate(Mul(Decimal(c, 2), Decimal(100, 0))) == c
  {
    assert Pow10(2) == 100 && Pow10(1) == 10 && Pow10(0) == 1;
    var k := HundredfoldIsExact(c, 2);
    DivMulExact(c, Pow10(2 - k));
  }

  lemma HundredfoldTruncates(c: int)
    requires Abs(c) < LIMIT
    ensures Truncate(Mul(Decimal(c, 2), Decimal(100, 0))) == c
  {
    HundredfoldTruncatesNat(Abs(c));
    if c < 0 {
      FixMirror(Decimal(-c * 100, 2));
      TruncateMirror(Fix(Decimal(-c * 100, 2)));
    }
  }

  lemma ToMinorUnitsOfCents(c: nat, currency: string)
    requires c < LIMIT && CurrencyExponent(currency).Some?
    ensures ToMinorUnits(Decimal(c, 2), currency) == Units(c)
  {
    HundredfoldTruncates(c);
    SameScale(Decimal(c, 2), HalfUp);
    assert Pow10(2) == 100;
  }

  /** to_minor after from_minor gives back every convertible count of minor units. */
  lemma MinorUnitsRoundTrip(n: nat, currency: string)
    requires FromMinorUnits(n, currency).Amount?
    ensures ToMinorUnits(FromMinorUnits(n, currency).value, currency) == Units(n)
  {
    FromMinorUnitsIsExact(n, currency);
    ToMinorUnitsOfCents(n, currency);
  }

  /** from_minor after to_minor gives back every positive two-decimal amount. */
  lemma AmountsRoundTrip(c: nat, currency: string)
    requires 0 < c < LIMIT && CurrencyExponent(currency).Some?
    ensures var units := ToMinorUnits(Decimal(c, 2), currency);
            units.Units? && FromMinorUnits(units.n, currency) == Amount(Decimal(c, 2))
  {
    ToMinorUnitsOfCents(c, currency);
    FromMinorUnitsIsExact(c, currency);
  }

  // ---------- rounding, and the two implementations compared ----------

  /**
   Every conversion is one half-up rounding to two places, and fails exactly when the count does not fit the context.
   */
  lemma ToMinorUnitsRounds(x: Decimal, currency: string)
    requires CurrencyExponent(currency).Some?
    ensures var n := Rescaled(x, 2, HalfUp);
            ToMinorUnits(x, currency) == if Abs(n) < LIMIT then Units(n) else UnitsError(InvalidOperation)
  {
    var n := Rescaled(x, 2, HalfUp);
    if Abs(n) < LIMIT {
      HundredfoldTruncates(n);
      assert Pow10(2) == 100;
    }
  }

  /** Converting moves an amount by at most half a minor unit, and an amount of at most two decimals not at all. */
  lemma ToMinorUnitsIsNear(x: Decimal, currency: string)
    requires ToMinorUnits(x, currency).Units?
    ensures var n := ToMinorUnits(x, currency).n;
            if x.scale <= 2 then n == x.coef * Pow10(2 - x.scale)
            else Abs(2 * (x.coef - n * Pow10(x.scale - 2))) <= Pow10(x.scale - 2)
  {
    ToMinorUnitsRounds(x, currency);
    if x.scale > 2 {
      QuotientIsNear(x.coef, Pow10(x.scale - 2));
    }
  }

  lemma QuotientIsNear(c: int, unit: nat)
    requires unit > 0
    ensures Abs(2 * (c - RoundQuotient(c, unit, HalfUp) * unit)) <= unit
  {
    RoundingIsNear(Abs(c), unit, HalfUp);
    TimesNegated(RoundNat(Abs(c), unit, HalfUp), unit);
  }

  lemma MoyasarRoundsNat(c: nat, scale: int)
    requires c < LIMIT
    ensures Rescaled(Mul(Decimal(c, scale), Decimal(100, 0)), 0, HalfEven) == Rescaled(Decimal(c, scale), 2, HalfEven)
  {
    var k := HundredfoldIsExact(c, scale);
    if scale <= k {
      MoyasarGrows(c, scale, k);
    } else if scale <= 2 {
      MoyasarShifts(c, scale, k);
    } else {
      Pow10Adds(scale - 2, 2 - k);
      RoundingCancels(c, Pow10(scale - 2), Pow10(2 - k), HalfEven);
    }
  }

  lemma MoyasarGrows(c: nat, scale: int, k: nat)
    requires scale <= k <= 2
    ensures c * Pow10(2 - k) * Pow10(k - scale) == c * Pow10(2 - scale)
  {
    Pow10Adds(2 - k, k - scale);
    assert c * Pow10(2 - k) * Pow10(k - scale) == c * (Pow10(2 - k) * Pow10(k - scale));
  }

  lemma MoyasarShifts(c: nat, scale: int, k: nat)
    requires k < scale <= 2
    ensures RoundNat(c * Pow10(2 - k), Pow10(scale - k), HalfEven) == c * Pow10(2 - scale)
  {
    Pow10Adds(2 - scale, scale - k);
    assert c * Pow10(2 - k) == c * Pow10(2 - scale) * Pow10(scale - k);
    RoundingExact(c * Pow10(2 - scale), Pow10(scale - k), HalfEven);
  }

  /** The gateway's conversion of an amount that fits the context is one half-even rounding to two places. */
  lemma MoyasarRounds(x: Decimal)
    requires Fits(x)
    ensures var n := Rescaled(x, 2, HalfEven);
            MoyasarMinorUnits(x) == if Abs(n) < LIMIT then Units(n) else UnitsError(InvalidOperation)
  {
    MoyasarRoundsNat(Abs(x.coef), x.scale);
    if x.coef < 0 {
      var y := Decimal(-x.coef * 100, x.scale);
      FixMirror(y);
      RescaledMirror(Fix(y), 0, HalfEven);
      RescaledMirror(Negated(x), 2, HalfEven);
    }
    assert Pow10(0) == 1;
  }

  /**
   The gateway's conversion agrees with the service's except on an exact half unit above an even count, where it is one
   unit nearer to zero.
   */
  lemma MoyasarAgreesExceptOnEvenTies(x: Decimal, currency: string)
    requires Fits(x) && ToMinorUnits(x, currency).Units?
    ensures var tie := x.scale > 2 && (var unit := Pow10(x.scale - 2);
                                       2 * (Abs(x.coef) % unit) == unit && (Abs(x.coef) / unit) % 2 == 0);
            var ours := ToMinorUnits(x, currency).n;
            MoyasarMinorUnits(x) == Units(if !tie then ours else if x.coef < 0 then ours + 1 else ours - 1)
  {
    ToMinorUnitsRounds(x, currency);
    MoyasarRounds(x);
  }

  // ---------- exchange ----------

  datatype Conversion = Converted(amount: Decimal, rate: nat) | NoQuote

  /** Sandbox rates to USDT in units of 1e-4; CAD and GBP are enabled for payments but have none. */
  function SandboxRate(currency: string): Option<nat> {
    var base := Upper(currency);
    if base == "SAR" then Some(2667)
    else if base == "USD" then Some(10000)
    else if base == "AED" then Some(2723)
    else if base == "EUR" then Some(10800)
    else None
  }

  function Convert(amount: Decimal, base: string, quote: string): Option<Conversion> {
    if Upper(quote) != "USDT" || SandboxRate(base).None? then Some(NoQuote)
    else
      var rate := SandboxRate(base).value;
      match Quantize(Mul(amount, Decimal(rate, 4)), 8, HalfUp)
      case None => None
      case Some(converted) => Some(Converted(converted, rate))
  }

  /** USDT owed for net cents at a rate in 1e-4, in units of 1e-8. */
  function UsdtUnits(net: int, rate: nat): int {
    net * rate * 100
  }

  /** What a Numeric(24, 8) column does not hold any more, in units of 1e-8 USDT. */
  const USDT_LIMIT: nat := 1_000_000_000_000_000_000_000_000

  /** The largest net in cents whose USDT amount at the rate of the euro fits that column. */
  const EUR_LIMIT: nat := 925_925_925_925_925_925

  /** Only euros buy more USDT than the column holds. */
  predicate TooMuch(net: int, currency: string) {
    Upper(currency) == "EUR" && net > EUR_LIMIT
  }

  /** The settlement row can be stored exactly if something is left and it is not too much. */
  lemma UsdtIsStoredIff(net: int, currency: string)
    requires net < CENTS_LIMIT && SandboxRate(currency).Some?
    ensures 0 < UsdtUnits(net, SandboxRate(currency).value) < USDT_LIMIT <==> net > 0 && !TooMuch(net, currency)
  {
    var rate := SandboxRate(currency).value;
    if Upper(currency) == "EUR" {
      assert UsdtUnits(net, 10800) == net * 1_080_000;
    } else if net <= 0 {
      MulMonotone(0, -net, rate, rate);
      assert (-net) * rate == -(net * rate);
    } else {
      MulMonotone(1, net, 1, rate);
      MulMonotone(net, CENTS_LIMIT - 1, rate, 10000);
    }
  }

  /** Converting an amount in cents never rounds: two and four decimals fit in eight. */
  lemma ConversionIsExact(net: int, base: string)
    requires Abs(net) < CENTS_LIMIT
    ensures Convert(Decimal(net, 2), base, "USDT")
         == match SandboxRate(base)
            case None => Some(NoQuote)
            case Some(rate) => Some(Converted(Decimal(UsdtUnits(net, rate), 8), rate))
  {
    assert Upper("USDT") == "USDT";
    if SandboxRate(base).Some? {
      var rate := SandboxRate(base).value;
      assert rate <= 10800;
      MulMonotone(Abs(net), CENTS_LIMIT, rate, 10800);
      assert Abs(net * rate) == Abs(net) * rate;
      assert Pow10(2) == 100;
    }
  }

  /** A hundred of each currency in USDT; no other currency is quoted. */
  lemma HundredConverts(currency: string)
    ensures var usdt := Convert(Decimal(100_00, 2), currency, "USDT");
            if Upper(currency) == "USD" then usdt == Some(Converted(Decimal(100_0000_0000, 8), 1_0000))
            else if Upper(currency) == "EUR" then usdt == Some(Converted(Decimal(108_0000_0000, 8), 1_0800))
            else if Upper(currency) == "AED" then usdt == Some(Converted(Decimal(27_2300_0000, 8), 2723))
            else if Upper(currency) == "SAR" then usdt == Some(Converted(Decimal(26_6700_0000, 8), 2667))
            else usdt == Some(NoQuote)
  {
    ConversionIsExact(100_00, currency);
  }
}
