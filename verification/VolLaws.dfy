/** What the volatility measures are: log returns that add up over the window,
    a sample variance that agrees with its one-pass form, and volatility tags
    that are bands of the short range in terms of the long one. */
module VolLaws {
  import opened Basics
  import opened Contracts
  import opened Slippage
  import opened Indicators
  import opened IndicatorLaws
  import opened Regimes

  // -------------------------------------------------------------------- log returns

  predicate SameSign(x: real, y: real) {
    x * y > 0.0
  }

  /** Consecutive closes have one sign, and none of them is zero. */
  predicate OneSign(closes: seq<real>) {
    forall i :: 0 <= i < |closes| - 1 ==> SameSign(closes[i], closes[i + 1])
  }

  lemma {:induction false} OneSignSnoc(closes: seq<real>)
    requires |closes| >= 2
    ensures
      var k := |closes| - 1;
      OneSign(closes) <==> OneSign(closes[..k]) && SameSign(closes[k - 1], closes[k])
  {
    var before := closes[..|closes| - 1];
    hide SameSign;
    assert forall i :: 0 <= i < |before| - 1 ==>
      SameSign(before[i], before[i + 1]) == SameSign(closes[i], closes[i + 1]);
  }

  lemma {:induction false} LogReturnOkIff(maths: Maths, prev: real, close: real)
    ensures LogReturn(maths, prev, close).Ok? <==> SameSign(prev, close)
    ensures LogReturn(maths, prev, close).Ok? ==>
      prev != 0.0 && LogReturn(maths, prev, close).value == maths.log(Ratio(close, prev)) && Ratio(close, prev) > 0.0
  {
    if prev != 0.0 {
      var q := close / prev;
      assert q * prev == close;
      assert prev * close == q * (prev * prev);
      assert prev * prev > 0.0;
    }
  }

  /** The returns of a window exist exactly when its closes have one sign, one
      for each pair of them. */
  lemma {:induction false} LogReturnsOkIff(maths: Maths, closes: seq<real>)
    requires |closes| >= 1
    ensures LogReturns(maths, closes).Ok? <==> OneSign(closes)
    ensures LogReturns(maths, closes).Ok? ==>
      var rets := LogReturns(maths, closes).value;
      && |rets| == |closes| - 1
      && forall i :: 0 <= i < |rets| ==> LogReturn(maths, closes[i], closes[i + 1]) == Ok(rets[i])
    decreases |closes|
  {
    if |closes| > 1 {
      var k := |closes| - 1;
      LogReturnsOkIff(maths, closes[..k]);
      LogReturnOkIff(maths, closes[k - 1], closes[k]);
      OneSignSnoc(closes);
      hide LogReturn, OneSign;
    }
  }

  /** A logarithm. */
  ghost predicate TrueLog(maths: Maths) {
    maths.log(1.0) == 0.0 && forall x, y :: x > 0.0 && y > 0.0 ==> maths.log(Times(x, y)) == maths.log(x) + maths.log(y)
  }

  lemma {:induction false} SelfRatio(x: real)
    requires x != 0.0
    ensures Ratio(x, x) == 1.0
  {
    var q := Ratio(x, x);
    assert q * x == x;
    assert (q - 1.0) * x == 0.0;
  }

  /** The returns of a window add up to the logarithm of its whole growth. */
  lemma {:induction false} ReturnsTelescope(maths: Maths, closes: seq<real>)
    requires TrueLog(maths) && |closes| >= 1 && OneSign(closes) && closes[0] != 0.0
    ensures LogReturns(maths, closes).Ok? && Ratio(closes[|closes| - 1], closes[0]) > 0.0
    ensures Sum(LogReturns(maths, closes).value) == maths.log(Ratio(closes[|closes| - 1], closes[0]))
    decreases |closes|
  {
    LogReturnsOkIff(maths, closes);
    if |closes| == 1 {
      SelfRatio(closes[0]);
    } else {
      var k := |closes| - 1;
      var before := closes[..k];
      ReturnsTelescope(maths, before);
      LogReturnOkIff(maths, closes[k - 1], closes[k]);
      assert SameSign(closes[k - 1], closes[k]);
      var rets, last := LogReturns(maths, before).value, LogReturn(maths, closes[k - 1], closes[k]).value;
      hide LogReturn, OneSign, Ratio, TrueLog;
      assert LogReturns(maths, closes).value == rets + [last];
      SumSnoc(rets, last);
      GrowthChains(maths, closes[0], closes[k - 1], closes[k]);
    }
  }

  lemma {:induction false} GrowthChains(maths: Maths, a: real, b: real, c: real)
    requires TrueLog(maths) && a != 0.0 && b != 0.0 && Ratio(b, a) > 0.0 && Ratio(c, b) > 0.0
    ensures Ratio(c, a) > 0.0
    ensures maths.log(Ratio(b, a)) + maths.log(Ratio(c, b)) == maths.log(Ratio(c, a))
  {
    var x, y, z := Ratio(b, a), Ratio(c, b), Ratio(c, a);
    assert x * a == b && y * b == c && z * a == c;
    assert y * (x * a) == z * a;
    assert (y * x - z) * a == 0.0;
    assert z == Times(x, y);
  }

  // ----------------------------------------------------------------------- variance

  lemma {:induction false} SquaresPrefix(xs: seq<real>, mean: real, k: nat)
    requires k <= |xs|
    ensures Squares(xs, mean)[..k] == Squares(xs[..k], mean)
  {
    forall i | 0 <= i < k ensures Squares(xs, mean)[i] == Squares(xs[..k], mean)[i] {
      assert xs[..k][i] == xs[i];
    }
  }

  lemma {:induction false} SquaresShift(xs: seq<real>, mean: real)
    ensures Sum(Squares(xs, mean))
         == Sum(Squares(xs, 0.0)) - Times(2.0 * mean, Sum(xs)) + Times(|xs| as real, Times(mean, mean))
    decreases |xs|
  {
    if xs != [] {
      var k := |xs| - 1;
      SquaresShift(xs[..k], mean);
      SquaresPrefix(xs, mean, k);
      SquaresPrefix(xs, 0.0, k);
      ShiftOne(xs[k], mean, Sum(xs[..k]), k as real);
      hide Times;
    }
  }

  lemma {:induction false} ShiftOne(x: real, mean: real, sum: real, k: real)
    ensures (x - mean) * (x - mean) - (x - 0.0) * (x - 0.0)
         == Times(2.0 * mean, sum) - Times(2.0 * mean, sum + x) + Times(k + 1.0, Times(mean, mean))
            - Times(k, Times(mean, mean))
  {
    assert (x - mean) * (x - mean) == x * x - 2.0 * mean * x + mean * mean;
  }

  /** The deviations from the mean, in one pass: n times their squares is n times
      the squares less the square of the sum. */
  lemma {:induction false} DeviationsInOnePass(xs: seq<real>)
    requires xs != []
    ensures
      var n := |xs| as real;
      Times(n, Sum(Squares(xs, Mean(Sum(xs), |xs|)))) == Times(n, Sum(Squares(xs, 0.0))) - Times(Sum(xs), Sum(xs))
  {
    var n, mean := |xs| as real, Mean(Sum(xs), |xs|);
    SquaresShift(xs, mean);
    assert mean * n == Sum(xs);
    OnePass(n, mean, Sum(xs), Sum(Squares(xs, 0.0)));
  }

  lemma {:induction false} OnePass(n: real, mean: real, sum: real, squares: real)
    requires mean * n == sum
    ensures Times(n, squares - Times(2.0 * mean, sum) + Times(n, Times(mean, mean)))
         == Times(n, squares) - Times(sum, sum)
  {
    assert n * (2.0 * mean * sum) == 2.0 * (mean * n) * sum;
    assert n * (n * (mean * mean)) == (mean * n) * (mean * n);
  }

  lemma {:induction false} SquaresNonNegative(xs: seq<real>, mean: real)
    ensures Sum(Squares(xs, mean)) >= 0.0
  {
    forall i | 0 <= i < |xs| ensures Squares(xs, mean)[i] >= 0.0 {
      SquareSign(xs[i] - mean);
    }
    SumNonNegative(Squares(xs, mean));
  }

  lemma {:induction false} SquareSign(x: real)
    ensures x * x >= 0.0
  {
  }

  /** Realized volatility exists exactly when the closes of its window have one
      sign: the variance is never negative. */
  lemma {:induction false} RealizedVolOkIff(maths: Maths, bars: seq<Bar>, n: nat)
    requires n >= 2 && |bars| >= n + 1
    ensures RealizedVol(maths, bars, n).Ok? <==> OneSign(Closes(bars[|bars| - n - 1..]))
  {
    var closes := Closes(bars[|bars| - n - 1..]);
    LogReturnsOkIff(maths, closes);
    if LogReturns(maths, closes).Ok? {
      var rets := LogReturns(maths, closes).value;
      var mean := Mean(Sum(rets), |rets|);
      SquaresNonNegative(rets, mean);
      assert Mean(Sum(Squares(rets, mean)), |rets| - 1) >= 0.0;
    }
  }

  /** Main result on volatility: its square times n (n - 1) is n times the squared
      returns of the window less the square of the window's whole growth. */
  lemma {:induction false} RealizedVolSquared(maths: Maths, bars: seq<Bar>, n: nat)
    requires TrueRoot(maths) && TrueLog(maths)
    requires n >= 2 && |bars| >= n + 1 && RealizedVol(maths, bars, n).Ok?
    ensures
      var closes := Closes(bars[|bars| - n - 1..]);
      && LogReturns(maths, closes).Ok? && closes[0] != 0.0 && Ratio(closes[n], closes[0]) > 0.0
      && var k, vol := n as real, RealizedVol(maths, bars, n).value;
         var rets, growth := LogReturns(maths, closes).value, maths.log(Ratio(closes[n], closes[0]));
         && vol >= 0.0
         && Times(Times(k, k - 1.0), Times(vol, vol)) == Times(k, Sum(Squares(rets, 0.0))) - Times(growth, growth)
  {
    RealizedVolOkIff(maths, bars, n);
    var closes := Closes(bars[|bars| - n - 1..]);
    LogReturnsOkIff(maths, closes);
    assert SameSign(closes[0], closes[1]);
    ReturnsTelescope(maths, closes);
    var rets := LogReturns(maths, closes).value;
    var mean := Mean(Sum(rets), n);
    var deviations := Sum(Squares(rets, mean));
    SquaresNonNegative(rets, mean);
    DeviationsInOnePass(rets);
    var variance := Mean(deviations, n - 1);
    var vol := RealizedVol(maths, bars, n).value;
    assert vol == maths.sqrt(variance);
    hide RealizedVol, LogReturns, Squares, Sum, OneSign, Closes, TrueLog;
    RootOf(maths, deviations, n, vol);
  }

  lemma {:induction false} RootOf(maths: Maths, deviations: real, n: nat, vol: real)
    requires TrueRoot(maths) && n >= 2 && deviations >= 0.0 && vol == maths.sqrt(Mean(deviations, n - 1))
    ensures vol >= 0.0
    ensures Times(Times(n as real, n as real - 1.0), Times(vol, vol)) == Times(n as real, deviations)
  {
    var k, variance := n as real, Mean(deviations, n - 1);
    assert variance * (k - 1.0) == deviations;
    assert variance >= 0.0;
    assert k * (k - 1.0) * variance == k * (variance * (k - 1.0));
  }

  // --------------------------------------------------------------------------- bands

  /** The tag is the band of the short range in terms of the long one. */
  lemma {:induction false} VolBands(bars: seq<Bar>)
    requires |bars| >= 51
    ensures Atr(bars, 10).Ok? && Atr(bars, 50).Ok? && ClassifyVol(bars).Ok?
    ensures
      var short, long := Atr(bars, 10).value, Atr(bars, 50).value;
      var vol := ClassifyVol(bars).value;
      long > 0.0 ==>
        && (vol == COMPRESSED <==> short < 0.65 * long)
        && (vol == NORMAL <==> 0.65 * long <= short < 1.3 * long)
        && (vol == EXPANDED <==> 1.3 * long <= short < 1.8 * long)
        && (vol == CRISIS <==> 1.8 * long <= short)
  {
    hide WilderMean, TrueRanges, Ratio;
    var short, long := Atr(bars, 10).value, Atr(bars, 50).value;
    if long > 0.0 {
      BelowIff(short, long, 0.65);
      BelowIff(short, long, 1.3);
      BelowIff(short, long, 1.8);
    }
  }

  lemma {:induction false} BelowIff(x: real, y: real, k: real)
    requires y > 0.0
    ensures Ratio(x, y) < k <==> x < k * y
  {
    var q := Ratio(x, y);
    assert q * y == x;
    assert (k - q) * y == k * y - x;
  }

  function Opposite(f: Funding): Funding {
    match f
    case NEUTRAL => NEUTRAL
    case BULL_BIAS => BEAR_BIAS
    case BEAR_BIAS => BULL_BIAS
    case EXTREME_POS => EXTREME_NEG
    case EXTREME_NEG => EXTREME_POS
  }

  function Heat(f: Funding): nat {
    match f
    case NEUTRAL => 0
    case BULL_BIAS => 1
    case BEAR_BIAS => 1
    case EXTREME_POS => 2
    case EXTREME_NEG => 2
  }

  /** The funding tag leans with the sign of the rate, turns round with it, never
      cools as the rate grows, and in an earlier tier heats up no later. */
  lemma {:induction false} FundingLeans(rate: real, more: real, tier: Tier)
    ensures ClassifyFunding(-rate, tier) == Opposite(ClassifyFunding(rate, tier))
    ensures ClassifyFunding(rate, tier) in {BULL_BIAS, EXTREME_POS} ==> rate > 0.0
    ensures rate == 0.0 ==> ClassifyFunding(rate, tier) == NEUTRAL
    ensures 0.0 <= rate <= more ==> Heat(ClassifyFunding(rate, tier)) <= Heat(ClassifyFunding(more, tier))
    ensures Heat(ClassifyFunding(rate, T4)) == Heat(ClassifyFunding(rate, T3)) <= Heat(ClassifyFunding(rate, T2))
      <= Heat(ClassifyFunding(rate, T1))
  {
  }
}
