/** Integer pricing: int64 arithmetic that detects its own overflow, and costs rounded up to whole micro-euros. */
module Price {
  import opened Common

  const MIN64: int := -0x8000_0000_0000_0000
  const MAX64: int := 0x7FFF_FFFF_FFFF_FFFF
  const TWO64: int := 0x1_0000_0000_0000_0000
  const MILLION: int := 1_000_000

  predicate Fits(x: int) { MIN64 <= x <= MAX64 }

  datatype PriceError = InvalidPrice

  datatype ModelPrice = ModelPrice(inputRate: Int64, outputRate: Int64, maxOutputTokens: Int64)

  /** Two's complement wrap-around. */
  function Wrap(x: int): Int64 { (x - MIN64) % TWO64 + MIN64 }

  function Abs(x: int): nat { if x < 0 then -x else x }

  /** Division truncating toward zero; the one quotient that does not fit wraps. */
  function Quotient(x: Int64, y: Int64): Int64
    requires y != 0
  {
    var q := Abs(x) / Abs(y);
    Wrap(if (x < 0) == (y < 0) then q else -q)
  }

  /** The product, or `None` where the source reports overflow. */
  function MulInt64(a: Int64, b: Int64): Option<Int64> {
    if a == 0 || b == 0 then Some(0)
    else
      var r := Wrap(a * b);
      if Quotient(r, a) != b then None else Some(r)
  }

  function AddInt64(a: Int64, b: Int64): (r: Option<Int64>)
    ensures r.Some? <==> Fits(a + b)
    ensures r.Some? ==> r.value == a + b
  {
    if b > 0 && a > MAX64 - b then None
    else if b < 0 && a < MIN64 - b then None
    else Some(a + b)
  }

  function MulDivCeil(tokens: Int64, rate: Int64, million: Int64): Result<Int64, PriceError> {
    if tokens < 0 || rate <= 0 || million <= 0 then Err(InvalidPrice)
    else if tokens == 0 then Ok(0)
    else
      var product := MulInt64(tokens, rate);
      if product.None? then Err(InvalidPrice)
      else
        var numerator := AddInt64(product.value, million - 1);
        if numerator.None? then Err(InvalidPrice) else Ok(Quotient(numerator.value, million))
  }

  function CostMicros(inputRate: Int64, outputRate: Int64, inputTokens: Int64,
                      outputTokens: Int64): Result<Int64, PriceError> {
    var input := MulDivCeil(inputTokens, inputRate, MILLION);
    if input.Err? then input
    else
      var output := if outputTokens > 0 then MulDivCeil(outputTokens, outputRate, MILLION) else Ok(0);
      if output.Err? then output
      else
        var sum := AddInt64(input.value, output.value);
        if sum.None? || sum.value <= 0 then Err(InvalidPrice) else Ok(sum.value)
  }

  function EstimateMaxCostMicros(price: ModelPrice, inputTokens: Int64): Result<Int64, PriceError> {
    if price.inputRate <= 0 || price.outputRate <= 0 || price.maxOutputTokens <= 0 || inputTokens <= 0
    then Err(InvalidPrice)
    else CostMicros(price.inputRate, price.outputRate, inputTokens, price.maxOutputTokens)
  }

  function ActualCostMicros(price: ModelPrice, promptTokens: Int64,
                            completionTokens: Int64): Result<Int64, PriceError> {
    if price.inputRate <= 0 || price.outputRate <= 0 || promptTokens <= 0 || completionTokens < 0 then Err(InvalidPrice)
    else CostMicros(price.inputRate, price.outputRate, promptTokens, completionTokens)
  }

  // ---------- multiplication ----------

  lemma AbsProduct(a: int, b: int)
    requires a != 0 && b != 0
    ensures Abs(a * b) == Abs(a) * Abs(b)
    ensures (a * b < 0) <==> ((a < 0) != (b < 0))
  {
    if a < 0 && b < 0 { assert a * b == (-a) * (-b); }
    else if a < 0 { assert a * b == -((-a) * b); assert (-a) * b > 0; }
    else if b < 0 { assert a * b == -(a * (-b)); assert a * (-b) > 0; }
  }

  lemma AtLeastFactor(y: int, d: int)
    requires y > 0 && d > 0
    ensures y * d >= y && y * d >= d
  {
    assert y * d == y + y * (d - 1) == d + (y - 1) * d;
    assert y * (d - 1) >= 0 && (y - 1) * d >= 0;
  }

  lemma DivisionIsUnique(x: int, y: int, q: int, r: int)
    requires y > 0 && 0 <= r < y && x == y * q + r
    ensures x / y == q
  {
    var q' := x / y;
    assert y * (q - q') == x % y - r && y * (q' - q) == r - x % y;
    if q > q' { AtLeastFactor(y, q - q'); assert false; }
    if q < q' { AtLeastFactor(y, q' - q); assert false; }
  }

  lemma WrapIsShift(x: int) returns (k: int)
    ensures Wrap(x) == x - k * TWO64 && (k == 0 <==> Fits(x))
  {
    k := (x - MIN64) / TWO64;
  }

  lemma WrapFits(x: int)
    requires Fits(x)
    ensures Wrap(x) == x
  {
  }

  /** Quotients of magnitudes: the defining equation, and the bound by the dividend. */
  lemma MagnitudeQuotient(x: nat, y: nat)
    requires y > 0
    ensures 0 <= x - y * (x / y) < y && x / y <= x
    ensures y >= 2 ==> 2 * (x / y) <= x
  {
    var q := x / y;
    if q > 0 {
      AtLeastFactor(y, q);
      if y >= 2 { AtLeastFactor(q, y - 1); assert y * q == q + q * (y - 1); }
    }
  }

  lemma SignedProduct(x: int, y: int, q: int)
    ensures y * (if (x < 0) == (y < 0) then q else -q) == if x < 0 then -(Abs(y) * q) else Abs(y) * q
  {
  }

  /** The quotient wraps only for the least int64 divided by -1. */
  lemma QuotientValue(x: Int64, y: Int64)
    requires y != 0 && y != -1
    ensures Quotient(x, y) == if (x < 0) == (y < 0) then Abs(x) / Abs(y) else -(Abs(x) / Abs(y))
  {
    MagnitudeQuotient(Abs(x), Abs(y));
    WrapFits(if (x < 0) == (y < 0) then Abs(x) / Abs(y) else -(Abs(x) / Abs(y)));
  }

  lemma SignedRemainder(x: int, y: int, q: int, s: int)
    requires 0 <= Abs(x) - Abs(y) * q < Abs(y)
    requires y * s == if x < 0 then -(Abs(y) * q) else Abs(y) * q
    ensures Abs(x - y * s) < Abs(y)
  {
  }

  /** Truncated division leaves a remainder smaller than the divisor. */
  lemma RemainderSmall(x: Int64, y: Int64)
    requires y != 0 && y != -1
    ensures Abs(x - y * Quotient(x, y)) < Abs(y)
  {
    var q := Abs(x) / Abs(y);
    MagnitudeQuotient(Abs(x), Abs(y));
    QuotientValue(x, y);
    SignedProduct(x, y, q);
    SignedRemainder(x, y, q, Quotient(x, y));
  }

  lemma ExactQuotient(a: Int64, b: Int64)
    requires a != 0 && b != 0 && Fits(a * b)
    ensures Quotient(a * b, a) == b
  {
    AbsProduct(a, b);
    DivisionIsUnique(Abs(a * b), Abs(a), Abs(b), 0);
    WrapFits(b);
  }

  lemma ShiftIsLarge(k: int)
    requires k != 0
    ensures Abs(k * TWO64) >= TWO64
  {
  }

  /**
   The overflow test after a wrapping multiply is exact for all operands but one pair: the product is reported, and is
   the true one, just when it fits. For -1 times the least int64 the test passes although the product does not fit.
   */
  lemma MulDetectsOverflow(a: Int64, b: Int64)
    ensures var r := MulInt64(a, b);
            (r.Some? <==> Fits(a * b) || (a == -1 && b == MIN64)) && (Fits(a * b) ==> r == Some(a * b))
  {
    if a != 0 && b != 0 {
      var k := WrapIsShift(a * b);
      if Fits(a * b) {
        ExactQuotient(a, b);
      } else if a == -1 {
        assert a * b == 0 - b;
      } else {
        var q := Quotient(Wrap(a * b), a);
        RemainderSmall(Wrap(a * b), a);
        if q == b {
          ShiftIsLarge(k);
          assert false;
        }
      }
    }
  }

  // ---------- rounding and the estimate ----------

  lemma PositiveProduct(tokens: int, rate: int)
    requires tokens > 0 && rate > 0
    ensures tokens * rate >= 1
  {
  }

  lemma QuotientOfPositive(x: Int64, y: Int64)
    requires x >= 0 && y > 0
    ensures Quotient(x, y) == x / y
  {
    MagnitudeQuotient(x, y);
    WrapFits(x / y);
  }

  /**
   A leg costs the least whole number of micros that covers tokens * rate / 10^6, or fails just when that overflows.
   */
  lemma LegCostIsLeastCover(tokens: Int64, rate: Int64)
    requires tokens > 0 && rate > 0
    ensures var c := MulDivCeil(tokens, rate, MILLION);
            && (c.Ok? <==> tokens * rate + MILLION - 1 <= MAX64)
            && (c.Ok? ==> 0 < c.value && (c.value - 1) * MILLION < tokens * rate <= c.value * MILLION)
  {
    PositiveProduct(tokens, rate);
    MulDetectsOverflow(tokens, rate);
    if tokens * rate + MILLION - 1 <= MAX64 {
      QuotientOfPositive(tokens * rate + MILLION - 1, MILLION);
    }
  }

  lemma ProductMonotone(few: int, many: int, rate: int)
    requires few <= many && rate > 0
    ensures few * rate <= many * rate
  {
  }

  lemma CoverMonotone(x: int, y: int, c: int, d: int)
    requires x <= y && (c - 1) * MILLION < x && y <= d * MILLION
    ensures c <= d
  {
  }

  lemma LegCostMonotone(few: Int64, many: Int64, rate: Int64)
    requires 0 <= few <= many && 0 < many && rate > 0 && MulDivCeil(many, rate, MILLION).Ok?
    ensures MulDivCeil(few, rate, MILLION).Ok?
    ensures 0 <= MulDivCeil(few, rate, MILLION).value <= MulDivCeil(many, rate, MILLION).value
    ensures few > 0 ==> MulDivCeil(few, rate, MILLION).value > 0
  {
    if few > 0 {
      LegCostIsLeastCover(many, rate);
      LegCostIsLeastCover(few, rate);
      ProductMonotone(few, many, rate);
      CoverMonotone(few * rate, many * rate, MulDivCeil(few, rate, MILLION).value,
                    MulDivCeil(many, rate, MILLION).value);
    } else {
      LegCostIsLeastCover(many, rate);
    }
  }

  /** If the estimate succeeds and usage stays within what it assumed, the actual cost is defined and no larger. */
  lemma ActualWithinEstimate(price: ModelPrice, inputTokens: Int64, promptTokens: Int64, completionTokens: Int64)
    requires EstimateMaxCostMicros(price, inputTokens).Ok?
    requires 0 < promptTokens <= inputTokens && 0 <= completionTokens <= price.maxOutputTokens
    ensures var c := ActualCostMicros(price, promptTokens, completionTokens);
            c.Ok? && 0 < c.value <= EstimateMaxCostMicros(price, inputTokens).value
  {
    LegCostMonotone(promptTokens, inputTokens, price.inputRate);
    LegCostMonotone(completionTokens, price.maxOutputTokens, price.outputRate);
  }

  // ---------- what a request costs, in exact arithmetic ----------

  /** The least whole number of micro-euros that covers `amount` millionths of one. */
  function MicrosFor(amount: nat): (c: nat)
    ensures amount == 0 ==> c == 0
    ensures amount > 0 ==> (c - 1) * 1_000_000 < amount <= c * 1_000_000
  {
    (amount + 999_999) / 1_000_000
  }

  /** Only one number covers an amount that way. */
  lemma MicrosUnique(amount: int, c: int, d: int)
    requires (c - 1) * 1_000_000 < amount <= c * 1_000_000 && (d - 1) * 1_000_000 < amount <= d * 1_000_000
    ensures c == d
  {
  }

  /** Amounts that can be rounded up within int64. */
  predicate Roundable(amount: int) { amount + 999_999 <= 0x7FFF_FFFF_FFFF_FFFF }

  /**
   What `input` and `output` tokens cost: input at the input rate and output at the output rate, each rounded up on its
   own; nothing where a rate or a count is out of range or a number leaves int64.
   */
  function UsagePrice(price: ModelPrice, input: int, output: int): Option<int> {
    if price.inputRate <= 0 || price.outputRate <= 0 || input <= 0 || output < 0 then None
    else
      var i, o := input * price.inputRate, output * price.outputRate;
      Nonnegative(input, price.inputRate);
      Nonnegative(output, price.outputRate);
      if Roundable(i) && Roundable(o) && MicrosFor(i) + MicrosFor(o) <= 0x7FFF_FFFF_FFFF_FFFF
      then Some(MicrosFor(i) + MicrosFor(o)) else None
  }

  lemma Nonnegative(x: int, y: int)
    requires x >= 0 && y >= 0
    ensures x * y >= 0
  {
  }

  /** The same in terms of the two legs alone. */
  lemma UsagePriceIsCover(price: ModelPrice, input: int, output: int, a: int, b: int)
    requires price.inputRate > 0 && price.outputRate > 0 && input > 0 && output >= 0
    requires (a - 1) * 1_000_000 < input * price.inputRate <= a * 1_000_000
    requires if output > 0 then (b - 1) * 1_000_000 < output * price.outputRate <= b * 1_000_000 else b == 0
    ensures UsagePrice(price, input, output) ==
            if input * price.inputRate + 999_999 <= 0x7FFF_FFFF_FFFF_FFFF
               && output * price.outputRate + 999_999 <= 0x7FFF_FFFF_FFFF_FFFF && a + b <= 0x7FFF_FFFF_FFFF_FFFF
            then Some(a + b) else None
  {
    Nonnegative(input, price.inputRate);
    Nonnegative(output, price.outputRate);
    PositiveProduct(input, price.inputRate);
    MicrosUnique(input * price.inputRate, a, MicrosFor(input * price.inputRate));
    if output > 0 {
      PositiveProduct(output, price.outputRate);
      MicrosUnique(output * price.outputRate, b, MicrosFor(output * price.outputRate));
    }
  }

  function AsOption(r: Result<Int64, PriceError>): Option<int> { if r.Ok? then Some(r.value) else None }

  lemma LegIsMicros(tokens: Int64, rate: Int64)
    requires tokens >= 0 && rate > 0
    ensures tokens * rate >= 0
    ensures AsOption(MulDivCeil(tokens, rate, MILLION)) ==
            if Roundable(tokens * rate) then Some(MicrosFor(tokens * rate)) else None
  {
    Nonnegative(tokens, rate);
    if tokens > 0 {
      LegCostIsLeastCover(tokens, rate);
      PositiveProduct(tokens, rate);
      if Roundable(tokens * rate) {
        MicrosUnique(tokens * rate, MulDivCeil(tokens, rate, MILLION).value, MicrosFor(tokens * rate));
      }
    }
  }

  lemma CostIsUsagePrice(price: ModelPrice, input: Int64, output: Int64)
    requires price.inputRate > 0 && price.outputRate > 0 && input > 0 && output >= 0
    ensures AsOption(CostMicros(price.inputRate, price.outputRate, input, output)) == UsagePrice(price, input, output)
  {
    hide MulDivCeil, MicrosFor, Roundable;
    LegIsMicros(input, price.inputRate);
    LegIsMicros(output, price.outputRate);
    PositiveProduct(input, price.inputRate);
    if output == 0 { NothingCostsNothing(price.outputRate); }
  }

  lemma NothingCostsNothing(rate: int)
    ensures 0 * rate == 0 && Roundable(0) && MicrosFor(0) == 0
  {
  }

  /**
   For every price and every usage, the settlement cost is the exact price of that usage, and fails just where it has
   none.
   */
  lemma ActualCostIsExact(price: ModelPrice, promptTokens: Int64, completionTokens: Int64)
    ensures AsOption(ActualCostMicros(price, promptTokens, completionTokens)) ==
            UsagePrice(price, promptTokens, completionTokens)
  {
    hide CostMicros, MicrosFor, Roundable;
    if price.inputRate > 0 && price.outputRate > 0 && promptTokens > 0 && completionTokens >= 0 {
      CostIsUsagePrice(price, promptTokens, completionTokens);
    }
  }

  /** For every price and every input, the estimate is the exact price of that input with the model's maximum output. */
  lemma EstimateIsExact(price: ModelPrice, inputTokens: Int64)
    ensures AsOption(EstimateMaxCostMicros(price, inputTokens)) ==
            if price.maxOutputTokens > 0 then UsagePrice(price, inputTokens, price.maxOutputTokens) else None
  {
    hide CostMicros, MicrosFor, Roundable;
    if price.inputRate > 0 && price.outputRate > 0 && inputTokens > 0 && price.maxOutputTokens > 0 {
      CostIsUsagePrice(price, inputTokens, price.maxOutputTokens);
    }
  }

  /** 100 prompt and 10 completion tokens at 2 and 10 euros per million tokens cost 300 micro-euros. */
  lemma PriceSample()
    ensures ActualCostMicros(ModelPrice(2_000_000, 10_000_000, 100), 100, 10) == Ok(300)
  {
    var price := ModelPrice(2_000_000, 10_000_000, 100);
    ActualCostIsExact(price, 100, 10);
    UsagePriceIsCover(price, 100, 10, 200, 100);
  }
}
