/**
 Pure pricing formulas for leveraged futures positions: return ratio of a
 long or a short, the close prices that realise a target ratio, the
 direction dispatch of take-profit and stop-loss levels, the slippage offset
 from a trigger price to an order price, and quantization to a price step.

 Arithmetic is over `real`; IEEE-754 rounding is not modelled.
 */
module Calculator {

  import RealArith

  /** A numeric argument that a JavaScript caller may omit (`undefined`). */
  datatype Arg = Absent | Given(value: real)

  /** JavaScript truthiness of a numeric argument: `undefined` and `0` are falsy. */
  predicate Falsy(a: Arg) {
    a == Absent || a == Given(0.0)
  }

  /** The usual sanity range of the inputs: a positive price, a fee rate in
      [0, 1) and a positive leverage. */
  predicate Sane(price: real, fee: real, leverage: real) {
    price > 0.0 && 0.0 <= fee < 1.0 && leverage > 0.0
  }

  // ---------------------------------------------------------------------
  // Quantization
  // ---------------------------------------------------------------------

  /** Truncation toward zero, which is what `parseInt` does to a finite quotient. */
  function Trunc(x: real): (k: int)
    ensures 0.0 <= x ==> 0 <= k && k as real <= x < k as real + 1.0
    ensures x < 0.0 ==> k <= 0 && k as real - 1.0 < x <= k as real
  {
    if x >= 0.0 then x.Floor else -((-x).Floor)
  }

  /** `x` is an integer multiple of the step `d`. */
  predicate IsStep(x: real, d: real)
    requires d > 0.0
  {
    (x / d).Floor as real == x / d
  }

  lemma StepOfInt(k: int, d: real)
    requires d > 0.0
    ensures IsStep(k as real * d, d)
  {
    assert k as real * d / d == k as real;
  }

  /** A step multiple is its own quotient times the step. */
  lemma StepIsIntTimes(m: real, d: real)
    requires d > 0.0 && IsStep(m, d)
    ensures (m / d).Floor as real * d == m
  {
    RealArith.DivCancel(m, d);
  }

  lemma BelowNextStep(v: real, q: real, k: real, d: real)
    requires d > 0.0 && q * d == v && q < k + 1.0
    ensures v < k * d + d
  {
    RealArith.Scale(q, k + 1.0, d);
    assert (k + 1.0) * d == k * d + d;
  }

  lemma AbovePreviousStep(v: real, q: real, k: real, d: real)
    requires d > 0.0 && q * d == v && k - 1.0 < q
    ensures k * d - d < v
  {
    RealArith.Scale(k - 1.0, q, d);
    assert (k - 1.0) * d == k * d - d;
  }

  /** Scaling the truncation bounds of a quotient `q == v / d` back by `d`. */
  lemma ScaledBounds(v: real, q: real, k: real, d: real)
    requires d > 0.0 && q * d == v
    requires 0.0 <= q ==> 0.0 <= k <= q < k + 1.0
    requires q < 0.0 ==> k <= 0.0 && k - 1.0 < q <= k
    ensures 0.0 <= v ==> 0.0 <= k * d <= v < k * d + d
    ensures v < 0.0 ==> k * d - d < v <= k * d <= 0.0
  {
    if 0.0 <= q {
      RealArith.Scale(0.0, k, d);
      RealArith.Scale(k, q, d);
      BelowNextStep(v, q, k, d);
    } else {
      RealArith.Scale(q, 0.0, d);
      RealArith.Scale(k, 0.0, d);
      RealArith.Scale(q, k, d);
      AbovePreviousStep(v, q, k, d);
    }
  }

  /** `m` is `v` truncated toward zero to a multiple of `d`: a step multiple
      of the same sign as `v`, no further from zero than `v`, and less than
      one step from it. */
  predicate Truncation(v: real, d: real, m: real)
    requires d > 0.0
  {
    IsStep(m, d) &&
    (0.0 <= v ==> 0.0 <= m <= v < m + d) &&
    (v < 0.0 ==> m - d < v <= m <= 0.0)
  }

  /** The quantization of `parseDecimal`: the multiple of `d` obtained by
      truncating `v / d` toward zero. */
  function ParseDecimal(v: real, d: real): (r: real)
    requires d > 0.0
    ensures Truncation(v, d, r)
  {
    var k := Trunc(v / d);
    RealArith.DivCancel(v, d);
    ScaledBounds(v, v / d, k as real, d);
    StepOfInt(k, d);
    k as real * d
  }

  /** `parsePercent`: the ratio `v` expressed in percent, quantized to `d`. */
  function ParsePercent(v: real, d: real): (r: real)
    requires d > 0.0
    ensures r == ParseDecimal(100.0 * v, d)
    ensures Truncation(100.0 * v, d, r)
  {
    assert v / d * 100.0 == 100.0 * v / d;
    Trunc(v / d * 100.0) as real * d
  }

  /** `Truncation` singles out the result of `ParseDecimal`: any step multiple
      that truncates `v` toward zero is that result. */
  lemma ParseDecimalUnique(v: real, d: real, m: real)
    requires d > 0.0 && Truncation(v, d, m)
    ensures m == ParseDecimal(v, d)
  {
    var r := ParseDecimal(v, d);
    var j := (m / d).Floor;
    var k := (r / d).Floor;
    StepIsIntTimes(m, d);
    StepIsIntTimes(r, d);
    if j < k {
      StepGap(j, k, d, m, r);
    } else if k < j {
      StepGap(k, j, d, r, m);
    }
  }

  /** Distinct step multiples are at least one step apart. */
  lemma StepGap(j: int, k: int, d: real, a: real, b: real)
    requires d > 0.0 && j < k
    requires a == j as real * d && b == k as real * d
    ensures a + d <= b
  {
    RealArith.Scale(j as real + 1.0, k as real, d);
    assert (j as real + 1.0) * d == j as real * d + d;
  }

  /** Truncation toward zero, not floor and not rounding: -1.5 goes to -1 and
      1.9 to 1 with a unit step. */
  lemma TruncatesTowardZero()
    ensures ParseDecimal(-1.5, 1.0) == -1.0
    ensures ParseDecimal(1.9, 1.0) == 1.0
  {
    StepOfInt(-1, 1.0);
    StepOfInt(1, 1.0);
    ParseDecimalUnique(-1.5, 1.0, -1.0);
    ParseDecimalUnique(1.9, 1.0, 1.0);
  }

  /** A step multiple is left unchanged by quantization. */
  lemma ParseDecimalOfStep(m: real, d: real)
    requires d > 0.0 && IsStep(m, d)
    ensures ParseDecimal(m, d) == m
  {
    ParseDecimalUnique(m, d, m);
  }

  /** Quantizing twice is quantizing once. */
  lemma ParseDecimalIdempotent(v: real, d: real)
    requires d > 0.0
    ensures ParseDecimal(ParseDecimal(v, d), d) == ParseDecimal(v, d)
  {
    ParseDecimalOfStep(ParseDecimal(v, d), d);
  }

  /** Truncation toward zero is symmetric about zero over the reals. */
  lemma ParseDecimalOdd(v: real, d: real)
    requires d > 0.0
    ensures ParseDecimal(-v, d) == -ParseDecimal(v, d)
  {
    var r := ParseDecimal(v, d);
    StepNeg(r, d);
    ParseDecimalUnique(-v, d, -r);
  }

  lemma StepNeg(m: real, d: real)
    requires d > 0.0 && IsStep(m, d)
    ensures IsStep(-m, d)
  {
    var n := (m / d).Floor;
    assert (-m) / d == -(m / d);
    assert (-m) / d == (-n) as real;
    FloorOfInt(-n);
  }

  lemma FloorOfInt(n: int)
    ensures (n as real).Floor == n
  {
  }

  /** Of two step multiples, the smaller is at least one step below the larger. */
  lemma StepOrder(j: int, k: int, d: real, a: real, b: real)
    requires d > 0.0
    requires a == j as real * d && b == k as real * d
    ensures a < b ==> a + d <= b
  {
    if k <= j {
      RealArith.Scale(k as real, j as real, d);
    } else {
      StepGap(j, k, d, a, b);
    }
  }

  /** A step multiple at or below `v` stays at or below the quantization of
      `v`; one at or above `v` stays at or above it. */
  lemma StepBound(m: real, v: real, d: real)
    requires d > 0.0
    requires IsStep(m, d)
    ensures m <= v ==> m <= ParseDecimal(v, d)
    ensures v <= m ==> ParseDecimal(v, d) <= m
  {
    var r := ParseDecimal(v, d);
    StepIsIntTimes(m, d);
    StepIsIntTimes(r, d);
    StepOrder((m / d).Floor, (r / d).Floor, d, m, r);
    StepOrder((r / d).Floor, (m / d).Floor, d, r, m);
  }

  /** Quantization preserves the order of its inputs. */
  lemma ParseDecimalMonotone(v: real, w: real, d: real)
    requires d > 0.0
    requires v <= w
    ensures ParseDecimal(v, d) <= ParseDecimal(w, d)
  {
    StepBound(ParseDecimal(v, d), w, d);
    StepBound(ParseDecimal(w, d), v, d);
  }

  /** A price with at most three decimals is a multiple of the step 0.001. */
  lemma MilliStep(m: real)
    requires (m * 1000.0).Floor as real == m * 1000.0
    ensures IsStep(m, 0.001)
  {
    assert m / 0.001 == m * 1000.0;
  }

  /** Quantizing to the step 0.001 a price known to lie within the step
      starting at the three-decimal price `m`. */
  lemma MilliPin(v: real, m: real)
    requires 0.0 <= m <= v < m + 0.001
    requires (m * 1000.0).Floor as real == m * 1000.0
    ensures ParseDecimal(v, 0.001) == m
  {
    MilliStep(m);
    ParseDecimalUnique(v, 0.001, m);
  }

  // ---------------------------------------------------------------------
  // Return ratio and its inverse (`calcRatio`, `calcPrice`)
  // ---------------------------------------------------------------------

  /** `l * (x / y - 1)`: the leveraged relative gain of `x` over `y`. */
  function Gain(l: real, x: real, y: real): real
    requires y != 0.0
  {
    l * (x / y - 1.0)
  }

  /** `l * (1 - x / y)`: the leveraged relative shortfall of `x` below `y`. */
  function Shortfall(l: real, x: real, y: real): real
    requires y != 0.0
  {
    l * (1.0 - x / y)
  }

  /** `t * a / f`: the multiple `t` of the amount `a`, divided by `f`. */
  function Multiple(t: real, a: real, f: real): real
    requires f != 0.0
  {
    t * a / f
  }

  /** `calcRatio(...).longRatio`: the leveraged return of a long bought at
      `open` and sold at `close`, the fee charged on both legs. */
  function LongRatio(open: real, close: real, fee: real, leverage: real): real
    requires open != 0.0 && fee != -1.0
  {
    Gain(leverage, close * (1.0 - fee), open * (1.0 + fee))
  }

  /** `calcRatio(...).shortRatio`: the leveraged return of a short sold at
      `open` and bought back at `close`. */
  function ShortRatio(open: real, close: real, fee: real, leverage: real): real
    requires open != 0.0 && fee != 1.0
  {
    Shortfall(leverage, close * (1.0 + fee), open * (1.0 - fee))
  }

  /** `calcPrice(...).upperPrice`: the close price at which a long realises
      `ratio` (and a short loses it). */
  function UpperPrice(open: real, ratio: real, fee: real, leverage: real): real
    requires leverage != 0.0 && fee != 1.0
  {
    Multiple(ratio / leverage + 1.0, open * (1.0 + fee), 1.0 - fee)
  }

  /** `calcPrice(...).lowerPrice`: the close price at which a short realises
      `ratio` (and a long loses it). */
  function LowerPrice(open: real, ratio: real, fee: real, leverage: real): real
    requires leverage != 0.0 && fee != -1.0
  {
    Multiple(1.0 - ratio / leverage, open * (1.0 - fee), 1.0 + fee)
  }

  /** A long gains exactly when the fee-reduced proceeds exceed the
      fee-increased cost, and breaks even exactly when the two are equal. */
  lemma LongRatioSign(open: real, close: real, fee: real, leverage: real)
    requires Sane(open, fee, leverage)
    ensures LongRatio(open, close, fee, leverage) > 0.0 <==> close * (1.0 - fee) > open * (1.0 + fee)
    ensures LongRatio(open, close, fee, leverage) == 0.0 <==> close * (1.0 - fee) == open * (1.0 + fee)
    ensures LongRatio(open, close, fee, leverage) < 0.0 <==> close * (1.0 - fee) < open * (1.0 + fee)
  {
    RealArith.MulPos(open, 1.0 + fee);
    GainSign(leverage, close * (1.0 - fee), open * (1.0 + fee));
  }

  /** A short gains exactly when the fee-increased buy-back costs less than the
      fee-reduced sale, and breaks even exactly when the two are equal. */
  lemma ShortRatioSign(open: real, close: real, fee: real, leverage: real)
    requires Sane(open, fee, leverage)
    ensures ShortRatio(open, close, fee, leverage) > 0.0 <==> close * (1.0 + fee) < open * (1.0 - fee)
    ensures ShortRatio(open, close, fee, leverage) == 0.0 <==> close * (1.0 + fee) == open * (1.0 - fee)
    ensures ShortRatio(open, close, fee, leverage) < 0.0 <==> close * (1.0 + fee) > open * (1.0 - fee)
  {
    RealArith.MulPos(open, 1.0 - fee);
    ShortfallSign(leverage, close * (1.0 + fee), open * (1.0 - fee));
  }

  lemma GainSign(l: real, x: real, y: real)
    requires y > 0.0 && l > 0.0
    ensures Gain(l, x, y) > 0.0 <==> x > y
    ensures Gain(l, x, y) == 0.0 <==> x == y
    ensures Gain(l, x, y) < 0.0 <==> x < y
  {
    RealArith.SignOfProduct(l, x / y - 1.0);
    RealArith.CompareQuotient(x, y, 1.0);
  }

  lemma ShortfallSign(l: real, x: real, y: real)
    requires y > 0.0 && l > 0.0
    ensures Shortfall(l, x, y) > 0.0 <==> x < y
    ensures Shortfall(l, x, y) == 0.0 <==> x == y
    ensures Shortfall(l, x, y) < 0.0 <==> x > y
  {
    RealArith.SignOfProduct(l, 1.0 - x / y);
    RealArith.CompareQuotient(x, y, 1.0);
  }

  /** The short ratio is the long ratio with the fee charged on the opposite
      legs, sign flipped. */
  lemma RatioMirror(open: real, close: real, fee: real, leverage: real)
    requires open != 0.0 && fee != 1.0
    ensures ShortRatio(open, close, fee, leverage) == -LongRatio(open, close, -fee, leverage)
  {
    assert 1.0 - -fee == 1.0 + fee && 1.0 + -fee == 1.0 - fee;
  }

  /** For sane inputs and a non-negative ratio the upper price is at or above
      `open`, strictly above for a positive ratio. */
  lemma UpperPriceAboveOpen(open: real, ratio: real, fee: real, leverage: real)
    requires Sane(open, fee, leverage) && ratio >= 0.0
    ensures open <= UpperPrice(open, ratio, fee, leverage)
    ensures ratio > 0.0 ==> open < UpperPrice(open, ratio, fee, leverage)
  {
    RealArith.DivNonNeg(ratio, leverage);
    AboveOpen(open, ratio / leverage, fee);
  }

  /** For sane inputs and a non-negative ratio the lower price is at or below
      `open`, strictly below for a positive ratio. */
  lemma LowerPriceBelowOpen(open: real, ratio: real, fee: real, leverage: real)
    requires Sane(open, fee, leverage) && ratio >= 0.0
    ensures LowerPrice(open, ratio, fee, leverage) <= open
    ensures ratio > 0.0 ==> LowerPrice(open, ratio, fee, leverage) < open
  {
    RealArith.DivNonNeg(ratio, leverage);
    BelowOpen(open, ratio / leverage, fee);
  }

  lemma AboveOpen(open: real, q: real, fee: real)
    requires open > 0.0 && 0.0 <= fee < 1.0 && q >= 0.0
    ensures open <= Multiple(q + 1.0, open * (1.0 + fee), 1.0 - fee)
    ensures q > 0.0 ==> open < Multiple(q + 1.0, open * (1.0 + fee), 1.0 - fee)
  {
    var x := open * (1.0 + fee);
    RealArith.MulPos(open, 1.0 + fee);
    RealArith.MulNonNeg(open, fee);
    assert x >= open * (1.0 - fee);
    RealArith.Scale(1.0, q + 1.0, x);
    assert (q + 1.0) * x >= open * (1.0 - fee);
    assert q > 0.0 ==> (q + 1.0) * x > open * (1.0 - fee);
    RealArith.CompareQuotient((q + 1.0) * x, 1.0 - fee, open);
  }

  lemma BelowOpen(open: real, q: real, fee: real)
    requires open > 0.0 && 0.0 <= fee < 1.0 && q >= 0.0
    ensures Multiple(1.0 - q, open * (1.0 - fee), 1.0 + fee) <= open
    ensures q > 0.0 ==> Multiple(1.0 - q, open * (1.0 - fee), 1.0 + fee) < open
  {
    var y := open * (1.0 - fee);
    RealArith.MulPos(open, 1.0 - fee);
    RealArith.MulNonNeg(open, fee);
    assert y <= open * (1.0 + fee);
    RealArith.Scale(1.0 - q, 1.0, y);
    assert (1.0 - q) * y <= open * (1.0 + fee);
    assert q > 0.0 ==> (1.0 - q) * y < open * (1.0 + fee);
    RealArith.CompareQuotient((1.0 - q) * y, 1.0 + fee, open);
  }

  /** `calcPrice` inverts `calcRatio`: closing a long at the upper price for
      `ratio` returns exactly `ratio`. */
  lemma LongRatioAtUpperPrice(open: real, ratio: real, fee: real, leverage: real)
    requires open != 0.0 && leverage != 0.0 && fee != 1.0 && fee != -1.0
    ensures LongRatio(open, UpperPrice(open, ratio, fee, leverage), fee, leverage) == ratio
  {
    var a := open * (1.0 + fee);
    var t := ratio / leverage + 1.0;
    var u := UpperPrice(open, ratio, fee, leverage);
    MultipleCancel(t, a, 1.0 - fee);
    assert u * (1.0 - fee) == t * a;
    GainOfMultiple(leverage, t, a, ratio);
    assert LongRatio(open, u, fee, leverage) == Gain(leverage, u * (1.0 - fee), a);
  }

  /** `calcRatio` inverts `calcPrice`: the upper price for the long ratio
      realised at `close` is `close` itself. */
  lemma UpperPriceAtLongRatio(open: real, close: real, fee: real, leverage: real)
    requires open != 0.0 && leverage != 0.0 && fee != 1.0 && fee != -1.0
    ensures UpperPrice(open, LongRatio(open, close, fee, leverage), fee, leverage) == close
  {
    var a := open * (1.0 + fee);
    var r := LongRatio(open, close, fee, leverage);
    MultipleOfGain(leverage, close * (1.0 - fee), a, r);
    var t := r / leverage + 1.0;
    assert t * a == close * (1.0 - fee);
    assert UpperPrice(open, r, fee, leverage) == Multiple(t, a, 1.0 - fee);
    RealArith.MulDivCancel(close, 1.0 - fee);
    assert Multiple(t, a, 1.0 - fee) == close * (1.0 - fee) / (1.0 - fee);
  }

  /** Closing a short at the lower price for `ratio` returns exactly `ratio`. */
  lemma ShortRatioAtLowerPrice(open: real, ratio: real, fee: real, leverage: real)
    requires open != 0.0 && leverage != 0.0 && fee != 1.0 && fee != -1.0
    ensures ShortRatio(open, LowerPrice(open, ratio, fee, leverage), fee, leverage) == ratio
  {
    var c := open * (1.0 - fee);
    var t := 1.0 - ratio / leverage;
    var u := LowerPrice(open, ratio, fee, leverage);
    MultipleCancel(t, c, 1.0 + fee);
    assert u * (1.0 + fee) == t * c;
    ShortfallOfMultiple(leverage, t, c, ratio);
    assert ShortRatio(open, u, fee, leverage) == Shortfall(leverage, u * (1.0 + fee), c);
  }

  /** The lower price for the short ratio realised at `close` is `close`. */
  lemma LowerPriceAtShortRatio(open: real, close: real, fee: real, leverage: real)
    requires open != 0.0 && leverage != 0.0 && fee != 1.0 && fee != -1.0
    ensures LowerPrice(open, ShortRatio(open, close, fee, leverage), fee, leverage) == close
  {
    var c := open * (1.0 - fee);
    var r := ShortRatio(open, close, fee, leverage);
    MultipleOfShortfall(leverage, close * (1.0 + fee), c, r);
    var t := 1.0 - r / leverage;
    assert t * c == close * (1.0 + fee);
    assert LowerPrice(open, r, fee, leverage) == Multiple(t, c, 1.0 + fee);
    RealArith.MulDivCancel(close, 1.0 + fee);
    assert Multiple(t, c, 1.0 + fee) == close * (1.0 + fee) / (1.0 + fee);
  }

  /** Hence the two prices are the only solutions: a long earns `ratio` at
      `close` exactly when `close` is the upper price for `ratio`, and a short
      earns `ratio` exactly when `close` is the lower price. */
  lemma CalcPriceInverse(open: real, close: real, ratio: real, fee: real, leverage: real)
    requires open != 0.0 && leverage != 0.0 && fee != 1.0 && fee != -1.0
    ensures LongRatio(open, close, fee, leverage) == ratio
            <==> close == UpperPrice(open, ratio, fee, leverage)
    ensures ShortRatio(open, close, fee, leverage) == ratio
            <==> close == LowerPrice(open, ratio, fee, leverage)
  {
    LongRatioAtUpperPrice(open, ratio, fee, leverage);
    UpperPriceAtLongRatio(open, close, fee, leverage);
    ShortRatioAtLowerPrice(open, ratio, fee, leverage);
    LowerPriceAtShortRatio(open, close, fee, leverage);
  }

  lemma MultipleCancel(t: real, a: real, f: real)
    requires f != 0.0
    ensures Multiple(t, a, f) * f == t * a
  {
    RealArith.DivCancel(t * a, f);
  }

  lemma GainOfMultiple(l: real, t: real, a: real, ratio: real)
    requires l != 0.0 && a != 0.0 && t == ratio / l + 1.0
    ensures Gain(l, t * a, a) == ratio
  {
    var q := t * a / a;
    RealArith.MulDivCancel(t, a);
    assert q - 1.0 == ratio / l;
    RealArith.DivCancel(ratio, l);
    assert l * (q - 1.0) == ratio;
  }

  lemma ShortfallOfMultiple(l: real, t: real, a: real, ratio: real)
    requires l != 0.0 && a != 0.0 && t == 1.0 - ratio / l
    ensures Shortfall(l, t * a, a) == ratio
  {
    var q := t * a / a;
    RealArith.MulDivCancel(t, a);
    assert 1.0 - q == ratio / l;
    RealArith.DivCancel(ratio, l);
    assert l * (1.0 - q) == ratio;
  }

  lemma MultipleOfGain(l: real, x: real, a: real, r: real)
    requires l != 0.0 && a != 0.0 && r == Gain(l, x, a)
    ensures (r / l + 1.0) * a == x
  {
    var z := x / a - 1.0;
    assert r == l * z;
    RealArith.MulEqIff(l, z, r);
    assert r / l + 1.0 == x / a;
    RealArith.DivCancel(x, a);
  }

  lemma MultipleOfShortfall(l: real, x: real, a: real, r: real)
    requires l != 0.0 && a != 0.0 && r == Shortfall(l, x, a)
    ensures (1.0 - r / l) * a == x
  {
    var z := 1.0 - x / a;
    assert r == l * z;
    RealArith.MulEqIff(l, z, r);
    assert 1.0 - r / l == x / a;
    RealArith.DivCancel(x, a);
  }

  // ---------------------------------------------------------------------
  // Direction dispatch (`triggerLong`, `triggerShort`)
  // ---------------------------------------------------------------------

  /** Take-profit (`triggerWin`) and stop-loss (`triggerLose`) trigger prices. */
  datatype Triggers = Triggers(triggerWin: real, triggerLose: real)

  /** `triggerLong`: a long takes profit above `open` and stops out below it. */
  function TriggerLong(open: real, winRatio: real, loseRatio: real, fee: real, leverage: real): (t: Triggers)
    requires leverage != 0.0 && fee != 1.0 && fee != -1.0
    ensures Sane(open, fee, leverage) && winRatio >= 0.0 && loseRatio >= 0.0 ==>
              t.triggerLose <= open <= t.triggerWin
    ensures Sane(open, fee, leverage) && winRatio > 0.0 && loseRatio > 0.0 ==>
              t.triggerLose < open < t.triggerWin
  {
    var t := Triggers(UpperPrice(open, winRatio, fee, leverage), LowerPrice(open, loseRatio, fee, leverage));
    if Sane(open, fee, leverage) && winRatio >= 0.0 && loseRatio >= 0.0 then
      UpperPriceAboveOpen(open, winRatio, fee, leverage);
      LowerPriceBelowOpen(open, loseRatio, fee, leverage);
      t
    else
      t
  }

  /** `triggerShort`: the roles of the two bounds are swapped; a short takes
      profit below `open` and stops out above it. */
  function TriggerShort(open: real, winRatio: real, loseRatio: real, fee: real, leverage: real): (t: Triggers)
    requires leverage != 0.0 && fee != 1.0 && fee != -1.0
    ensures Sane(open, fee, leverage) && winRatio >= 0.0 && loseRatio >= 0.0 ==>
              t.triggerWin <= open <= t.triggerLose
    ensures Sane(open, fee, leverage) && winRatio > 0.0 && loseRatio > 0.0 ==>
              t.triggerWin < open < t.triggerLose
  {
    var t := Triggers(LowerPrice(open, winRatio, fee, leverage), UpperPrice(open, loseRatio, fee, leverage));
    if Sane(open, fee, leverage) && winRatio >= 0.0 && loseRatio >= 0.0 then
      LowerPriceBelowOpen(open, winRatio, fee, leverage);
      UpperPriceAboveOpen(open, loseRatio, fee, leverage);
      t
    else
      t
  }

  /** What each trigger realises: a long's take-profit is where a long earns
      `winRatio` and a short's take-profit is where a short earns `winRatio`;
      each stop-loss is the price where the opposite direction would earn
      `loseRatio`. */
  lemma TriggerRatios(open: real, winRatio: real, loseRatio: real, fee: real, leverage: real)
    requires open != 0.0 && leverage != 0.0 && fee != 1.0 && fee != -1.0
    ensures LongRatio(open, TriggerLong(open, winRatio, loseRatio, fee, leverage).triggerWin, fee, leverage) == winRatio
    ensures ShortRatio(open, TriggerLong(open, winRatio, loseRatio, fee, leverage).triggerLose, fee, leverage) == loseRatio
    ensures ShortRatio(open, TriggerShort(open, winRatio, loseRatio, fee, leverage).triggerWin, fee, leverage) == winRatio
    ensures LongRatio(open, TriggerShort(open, winRatio, loseRatio, fee, leverage).triggerLose, fee, leverage) == loseRatio
  {
    LongRatioAtUpperPrice(open, winRatio, fee, leverage);
    ShortRatioAtLowerPrice(open, loseRatio, fee, leverage);
    ShortRatioAtLowerPrice(open, winRatio, fee, leverage);
    LongRatioAtUpperPrice(open, loseRatio, fee, leverage);
  }

  /** A short's levels are a long's levels with the two ratios exchanged and the
      two roles exchanged. */
  lemma TriggerShortSwapsLong(open: real, winRatio: real, loseRatio: real, fee: real, leverage: real)
    requires leverage != 0.0 && fee != 1.0 && fee != -1.0
    ensures TriggerShort(open, winRatio, loseRatio, fee, leverage).triggerWin
         == TriggerLong(open, loseRatio, winRatio, fee, leverage).triggerLose
    ensures TriggerShort(open, winRatio, loseRatio, fee, leverage).triggerLose
         == TriggerLong(open, loseRatio, winRatio, fee, leverage).triggerWin
  {
  }

  // ---------------------------------------------------------------------
  // Order prices after slippage (`closeLong`, `closeShort`)
  // ---------------------------------------------------------------------

  /** `p` moved by the fraction `s` toward zero (a sell below the trigger). */
  function Discount(p: real, s: real): (r: real)
    ensures 0.0 < s < 1.0 && p > 0.0 ==> 0.0 < r < p
    ensures s == 0.0 ==> r == p
  {
    var r := p * (1.0 - s);
    if 0.0 < s && p > 0.0 then
      RealArith.MulPos(p, s);
      r
    else
      r
  }

  /** `p` moved by the fraction `s` away from zero (a buy above the trigger). */
  function Markup(p: real, s: real): (r: real)
    ensures 0.0 < s && p > 0.0 ==> r > p
    ensures s == 0.0 ==> r == p
    ensures r == Discount(p, -s)
  {
    var r := p * (1.0 + s);
    if 0.0 < s && p > 0.0 then
      RealArith.MulPos(p, s);
      r
    else
      r
  }

  /** The result of `closeLong`/`closeShort`: one price on the degenerate path
      (falsy slippage), otherwise an order price for each leg. */
  datatype ClosePrices = Single(price: real) | Pair(closeWin: real, closeLose: real)

  /** `closeLong`: a long exits by selling, so with a slippage in (0, 1) both
      order prices sit strictly below their (positive) triggers. With falsy
      slippage the source returns one price, reading its second argument as
      the slippage. */
  function CloseLong(triggerWin: real, triggerLose: real, slippage: Arg): (c: ClosePrices)
    ensures c.Pair? <==> !Falsy(slippage)
    ensures c.Pair? && 0.0 < slippage.value < 1.0 ==>
              (triggerWin > 0.0 ==> 0.0 < c.closeWin < triggerWin) &&
              (triggerLose > 0.0 ==> 0.0 < c.closeLose < triggerLose)
    ensures c.Single? && 0.0 < triggerLose < 1.0 && triggerWin > 0.0 ==>
              0.0 < c.price < triggerWin
  {
    if Falsy(slippage) then Single(Discount(triggerWin, triggerLose))
    else Pair(Discount(triggerWin, slippage.value), Discount(triggerLose, slippage.value))
  }

  /** `closeShort`: a short exits by buying, so with a positive slippage both
      order prices sit strictly above their (positive) triggers. On the
      degenerate path the source multiplies by `1 + slippage` with the slippage
      falsy: for `0` that is the trigger itself; for an absent argument (NaN in
      the source) this model reads the second argument as the slippage,
      mirroring `CloseLong`. */
  function CloseShort(triggerWin: real, triggerLose: real, slippage: Arg): (c: ClosePrices)
    ensures c.Pair? <==> !Falsy(slippage)
    ensures c.Pair? && slippage.value > 0.0 ==>
              (triggerWin > 0.0 ==> c.closeWin > triggerWin) &&
              (triggerLose > 0.0 ==> c.closeLose > triggerLose)
    ensures slippage == Given(0.0) ==> c == Single(triggerWin)
    ensures slippage == Absent && triggerLose > 0.0 && triggerWin > 0.0 ==>
              c.price > triggerWin
  {
    match slippage
    case Absent => Single(Markup(triggerWin, triggerLose))
    case Given(s) =>
      if s == 0.0 then Single(Markup(triggerWin, s))
      else Pair(Markup(triggerWin, s), Markup(triggerLose, s))
  }

  /** With a truthy slippage, a short's order prices are a long's order prices
      for the negated slippage. */
  lemma CloseShortMirrorsLong(triggerWin: real, triggerLose: real, s: real)
    requires s != 0.0
    ensures CloseShort(triggerWin, triggerLose, Given(s)) == CloseLong(triggerWin, triggerLose, Given(-s))
  {
  }

  /** The two-argument call `closeLong(p, s)` gives the take-profit leg of the
      three-argument call with slippage `s`. */
  lemma CloseLongDegenerate(p: real, s: real, other: real)
    requires s != 0.0
    ensures CloseLong(p, s, Absent).price == CloseLong(p, other, Given(s)).closeWin
  {
  }

  /** The two-argument call `closeShort(p, s)` gives the take-profit leg of the
      three-argument call with slippage `s`, as for `CloseLong`. */
  lemma CloseShortDegenerate(p: real, s: real, other: real)
    requires s != 0.0
    ensures CloseShort(p, s, Absent).price == CloseShort(p, other, Given(s)).closeWin
  {
  }

  /** A JavaScript number on the falsy-slippage path: finite, or `NaN`. */
  datatype Num = Finite(value: real) | NaN

  /** The falsy-slippage path of `closeShort` as the source writes it:
      `closeTriggerWin * (1 + slippage)` with the slippage itself falsy, which
      is the trigger for a `0` slippage and `NaN` for an omitted one, so the
      two-argument call never prices anything. */
  function CloseShortAsWritten(triggerWin: real, triggerLose: real, slippage: Arg): (n: Num)
    requires Falsy(slippage)
    ensures n == NaN <==> slippage == Absent
    ensures n != NaN ==> n.value == triggerWin
  {
    match slippage
    case Absent => NaN
    case Given(s) => Finite(triggerWin * (1.0 + s))
  }

  /** The moving engine's two-argument call for a short stop at 10 with
      0.05% slippage: `NaN` as written, 10.005 once the second argument is
      read as the slippage. */
  lemma ShortOrderPriceExample()
    ensures CloseShortAsWritten(10.0, 0.0005, Absent) == NaN
    ensures CloseShort(10.0, 0.0005, Absent) == Single(10.005)
  {
  }
}
