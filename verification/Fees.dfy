/** Merchant fees: the decimal computation, the integer rule it amounts to, and how its rounding behaves in bulk. */
module Fees {
  import opened Common
  import opened Decimals

  datatype FeeError = NegativeGross | NegativePercent | InvalidOperation

  datatype FeeResult =
    | Charged(gross: Decimal, percent: Decimal, fee: Decimal, net: Decimal)
    | FeeRefused(error: FeeError)

  function CalculateFee(grossAmount: Decimal, feePercent: Decimal, fixedFee: Decimal): FeeResult {
    if grossAmount.coef < 0 then FeeRefused(NegativeGross)
    else if feePercent.coef < 0 then FeeRefused(NegativePercent)
    else
      match (Quantize(grossAmount, 2, HalfUp), Quantize(feePercent, 4, HalfUp), Quantize(fixedFee, 2, HalfUp))
      case (Some(gross), Some(percent), Some(fixed)) =>
        (match Quantize(Shift(Mul(gross, percent), 2), 2, HalfUp)
         case None => FeeRefused(InvalidOperation)
         case Some(variable) =>
           match Quantize(Add(variable, fixed), 2, HalfUp)
           case None => FeeRefused(InvalidOperation)
           case Some(fee) =>
             match Quantize(Sub(gross, fee), 2, HalfUp)
             case None => FeeRefused(InvalidOperation)
             case Some(net) => Charged(gross, percent, fee, net))
      case _ => FeeRefused(InvalidOperation)
  }

  /** One whole: a hundred percent in units of a ten-thousandth of a percent. */
  const WHOLE: nat := 1_000_000

  /** `percent` (in 1e-4 percent) of `cents`, rounded half up to a cent. */
  function FeeCents(cents: nat, percent: nat): nat {
    (2 * (cents * percent) + WHOLE) / (2 * WHOLE)
  }

  const ZERO_FEE := Decimal(0, 2)

  /** A fee percent, in units of 1e-4 percent, whose product with a stored amount fits the decimal context. */
  type Percent = p: int | 0 <= p < 10_000_000_000 witness 0

  /**
   Whatever is charged, fee and net make up the gross exactly: the context either holds the sums or the computation
   fails, so no cent is ever created or lost, for any inputs at all.
   */
  lemma FeeAndNetMakeGross(grossAmount: Decimal, feePercent: Decimal, fixedFee: Decimal)
    ensures var r := CalculateFee(grossAmount, feePercent, fixedFee);
            r.Charged? ==> r.gross.scale == r.fee.scale == r.net.scale == 2 && r.fee.coef + r.net.coef == r.gross.coef
  {
    var r := CalculateFee(grossAmount, feePercent, fixedFee);
    if r.Charged? {
      FixedQuantizeIsExact(Decimal(r.gross.coef - r.fee.coef, 2), HalfUp);
    }
  }

  lemma VariableIsNotNegative(gross: Decimal, percent: Decimal)
    requires gross.coef >= 0 && percent.coef >= 0
    ensures var variable := Quantize(Shift(Mul(gross, percent), 2), 2, HalfUp);
            variable.Some? ==> variable.value.coef >= 0
  {
    var product := Mul(gross, percent);
    assert gross.coef * percent.coef >= 0;
    FixSign(Decimal(gross.coef * percent.coef, gross.scale + percent.scale));
    FixSign(Decimal(product.coef, product.scale + 2));
    RescaledSign(Shift(product, 2), 2, HalfUp);
  }

  /** A fee without a negative fixed part is never negative. */
  lemma FeeIsNotNegative(grossAmount: Decimal, feePercent: Decimal, fixedFee: Decimal)
    requires fixedFee.coef >= 0
    ensures var r := CalculateFee(grossAmount, feePercent, fixedFee); r.Charged? ==> r.fee.coef >= 0
  {
    var r := CalculateFee(grossAmount, feePercent, fixedFee);
    if r.Charged? {
      var variable := Quantize(Shift(Mul(r.gross, r.percent), 2), 2, HalfUp).value;
      var fixed := Quantize(fixedFee, 2, HalfUp).value;
      RescaledSign(grossAmount, 2, HalfUp);
      RescaledSign(feePercent, 4, HalfUp);
      VariableIsNotNegative(r.gross, r.percent);
      RescaledSign(fixedFee, 2, HalfUp);
      FixedQuantizeIsExact(Decimal(variable.coef + fixed.coef, 2), HalfUp);
    }
  }

  lemma RescaledSign(x: Decimal, places: int, mode: Rounding)
    requires x.coef >= 0
    ensures Rescaled(x, places, mode) >= 0
  {
  }

  lemma FixSign(x: Decimal)
    requires x.coef >= 0
    ensures Fix(x).coef >= 0
  {
  }

  /** Rounding once: with no fixed fee, whenever the product fits the context, the fee is the half-up cent rule. */
  lemma FeeIsRoundedOnce(grossAmount: Decimal, feePercent: Decimal, cents: nat, percent: nat)
    requires grossAmount.coef >= 0 && feePercent.coef >= 0
    requires Quantize(grossAmount, 2, HalfUp) == Some(Decimal(cents, 2))
    requires Quantize(feePercent, 4, HalfUp) == Some(Decimal(percent, 4))
    requires cents * percent < LIMIT
    ensures CalculateFee(grossAmount, feePercent, ZERO_FEE)
         == Charged(Decimal(cents, 2), Decimal(percent, 4), Decimal(FeeCents(cents, percent), 2),
                    Decimal(cents - FeeCents(cents, percent), 2))
  {
    VariableFee(cents, percent);
    var fee := FeeCents(cents, percent);
    FixedQuantizeIsExact(Decimal(fee, 2), HalfUp);
    FixedQuantizeIsExact(Decimal(cents - fee, 2), HalfUp);
    SameScale(ZERO_FEE, HalfUp);
    assert Add(Decimal(fee, 2), ZERO_FEE) == Fix(Decimal(fee, 2));
    assert Sub(Decimal(cents, 2), Decimal(fee, 2)) == Fix(Decimal(cents - fee, 2));
  }

  lemma VariableFee(cents: nat, percent: nat)
    requires cents * percent < LIMIT
    ensures Quantize(Shift(Mul(Decimal(cents, 2), Decimal(percent, 4)), 2), 2, HalfUp)
         == Some(Decimal(FeeCents(cents, percent), 2))
  {
    var product := cents * percent;
    assert Mul(Decimal(cents, 2), Decimal(percent, 4)) == Decimal(product, 6);
    assert Shift(Decimal(product, 6), 2) == Decimal(product, 8);
    CentsFromProduct(product);
  }

  lemma CentsFromProduct(product: nat)
    requires product < LIMIT
    ensures Quantize(Decimal(product, 8), 2, HalfUp) == Some(Decimal((2 * product + WHOLE) / (2 * WHOLE), 2))
  {
    assert Pow10(6) == WHOLE;
    HalfUpRule(product);
  }

  lemma HalfUpRule(product: nat)
    ensures RoundNat(product, WHOLE, HalfUp) == (2 * product + WHOLE) / (2 * WHOLE)
  {
  }

  /** Every amount that a Numeric(18, 2) column holds is within the exact range. */
  lemma StoredAmountsAreExact(cents: nat, percent: Percent)
    requires cents < CENTS_LIMIT
    ensures CalculateFee(Decimal(cents, 2), Decimal(percent, 4), ZERO_FEE)
         == Charged(Decimal(cents, 2), Decimal(percent, 4), Decimal(FeeCents(cents, percent), 2),
                    Decimal(cents - FeeCents(cents, percent), 2))
  {
    MulMonotone(cents, CENTS_LIMIT - 1, percent, 10_000_000_000);
    assert Pow10(0) == 1;
    FeeIsRoundedOnce(Decimal(cents, 2), Decimal(percent, 4), cents, percent);
  }

  // ---------- how the rule behaves ----------

  /** The fee is the only whole number of cents that the exact fee rounds half up to. */
  lemma FeeIsHalfUp(cents: nat, percent: nat, fee: nat)
    ensures fee == FeeCents(cents, percent) <==>
              -(WHOLE as int) <= 2 * (cents * percent) - 2 * WHOLE * fee < WHOLE
  {
  }

  /** Raising an amount raises its fee by no more than the raise, so fee and net both grow with the amount. */
  lemma FeeContracts(a: nat, b: nat, percent: nat)
    requires a <= b && percent <= WHOLE
    ensures 0 <= FeeCents(b, percent) - FeeCents(a, percent) <= b - a
  {
    var raise := (b - a) * percent;
    assert b * percent == a * percent + raise;
    MulMonotone(b - a, b - a, percent, WHOLE);
    HalfUpContracts(a * percent, raise, b - a);
  }

  lemma HalfUpContracts(product: nat, raise: nat, cents: nat)
    requires raise <= cents * 1_000_000
    ensures 0 <= (2 * (product + raise) + 1_000_000) / 2_000_000 - (2 * product + 1_000_000) / 2_000_000 <= cents
  {
  }

  lemma FeeIsWithinGross(cents: nat, percent: nat)
    requires percent <= WHOLE
    ensures 0 <= FeeCents(cents, percent) <= cents
  {
    FeeContracts(0, cents, percent);
    assert 0 * percent == 0;
  }

  /** Something is left for the merchant exactly when the exact net is more than half a cent. */
  lemma NetIsPositive(cents: nat, percent: nat)
    requires percent <= WHOLE
    ensures FeeCents(cents, percent) < cents <==> 2 * (cents * (WHOLE - percent)) > WHOLE
  {
    assert cents * (WHOLE - percent) == cents * WHOLE - cents * percent;
  }

  /** Below fifty percent every amount leaves something, and from fifty percent on a single cent does not. */
  lemma FiftyPercentIsTight(percent: nat)
    requires percent <= WHOLE
    ensures (forall cents: nat :: cents >= 1 ==> FeeCents(cents, percent) < cents) <==> 2 * percent < WHOLE
  {
    if 2 * percent < WHOLE {
      forall cents: nat | cents >= 1
        ensures FeeCents(cents, percent) < cents
      {
        NetIsPositive(cents, percent);
        MulMonotone(1, cents, WHOLE - percent, WHOLE - percent);
      }
    } else {
      assert FeeCents(1, percent) >= 1;
    }
  }

  // ---------- batches ----------

  function Sum(xs: seq<nat>): nat {
    if xs == [] then 0 else Sum(xs[..|xs| - 1]) + xs[|xs| - 1]
  }

  function SumOfFees(amounts: seq<nat>, percent: nat): nat {
    if amounts == [] then 0
    else SumOfFees(amounts[..|amounts| - 1], percent) + FeeCents(amounts[|amounts| - 1], percent)
  }

  function SumOfNets(amounts: seq<nat>, percent: nat): int {
    if amounts == [] then 0
    else
      var last := amounts[|amounts| - 1];
      SumOfNets(amounts[..|amounts| - 1], percent) + (last - FeeCents(last, percent))
  }

  lemma {:induction false} NetsAreTheRest(amounts: seq<nat>, percent: nat)
    ensures SumOfNets(amounts, percent) == Sum(amounts) - SumOfFees(amounts, percent)
  {
    if amounts != [] {
      NetsAreTheRest(amounts[..|amounts| - 1], percent);
    }
  }

  lemma Distributes(a: nat, b: nat, percent: nat)
    ensures (a + b) * percent == a * percent + b * percent
  {
  }

  lemma {:induction false} BatchError(amounts: seq<nat>, percent: nat)
    ensures var error := 2 * (Sum(amounts) * percent) - 2 * WHOLE * SumOfFees(amounts, percent);
            -(WHOLE as int) * |amounts| <= error && (amounts != [] ==> error < WHOLE * |amounts|)
              && (amounts == [] ==> error == 0)
  {
    if amounts != [] {
      var n := |amounts| - 1;
      BatchError(amounts[..n], percent);
      var fee := FeeCents(amounts[n], percent);
      FeeIsHalfUp(amounts[n], percent, fee);
      Distributes(Sum(amounts[..n]), amounts[n], percent);
    }
  }

  /**
   Charging n amounts one by one differs from charging their sum by d cents with |2d| <= n, and so do the nets.
   */
  lemma BatchIsWithinHalfCentEach(amounts: seq<nat>, percent: nat)
    requires amounts != []
    ensures var d := SumOfFees(amounts, percent) - FeeCents(Sum(amounts), percent);
            -|amounts| <= 2 * d <= |amounts|
    ensures var d := SumOfNets(amounts, percent) - (Sum(amounts) - FeeCents(Sum(amounts), percent));
            -|amounts| <= 2 * d <= |amounts|
  {
    NetsAreTheRest(amounts, percent);
    BatchError(amounts, percent);
    FeeIsHalfUp(Sum(amounts), percent, FeeCents(Sum(amounts), percent));
  }

  function OneCents(n: nat): (xs: seq<nat>)
    ensures |xs| == n
  {
    if n == 0 then [] else OneCents(n - 1) + [1]
  }

  lemma HalfRate(cents: nat)
    ensures FeeCents(cents, 500_000) == (cents + 1) / 2
  {
  }

  lemma {:induction false} OneCentsAddUp(n: nat)
    ensures Sum(OneCents(n)) == n && SumOfFees(OneCents(n), 500_000) == n
  {
    if n > 0 {
      OneCentsAddUp(n - 1);
      HalfRate(1);
      assert OneCents(n)[..n - 1] == OneCents(n - 1);
    }
  }

  /** The bound is reached for every batch size: n single cents at fifty percent. */
  lemma BatchBoundIsReached(n: nat)
    ensures var xs := OneCents(n);
            |xs| == n && SumOfFees(xs, 500_000) - FeeCents(Sum(xs), 500_000) == n / 2
  {
    OneCentsAddUp(n);
    HalfRate(n);
  }
}
