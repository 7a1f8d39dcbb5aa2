/** Technical indicators over candles. Each indicator is given twice: as a
    recursive definition on the series it smooths, and as the loop that
    computes it, which is proved to return the defined value. */
module Indicators {
  import opened Basics
  import opened Contracts

  function Closes(bars: seq<Bar>): (cs: seq<real>)
    ensures |cs| == |bars|
    ensures forall i :: 0 <= i < |bars| ==> cs[i] == bars[i].close
  {
    seq(|bars|, i requires 0 <= i < |bars| => bars[i].close)
  }

  function Sum(xs: seq<real>): real
    decreases |xs|
  {
    if xs == [] then 0.0 else Sum(xs[..|xs| - 1]) + xs[|xs| - 1]
  }

  method Total(xs: seq<real>) returns (total: real)
    ensures total == Sum(xs)
  {
    total := 0.0;
    for i := 0 to |xs|
      invariant total == Sum(xs[..i])
    {
      assert xs[..i + 1][..i] == xs[..i];
      total := total + xs[i];
    }
    assert xs[..|xs|] == xs;
  }

  // ------------------------------------------------------- moving averages

  function Mix(alpha: real, x: real, value: real): real {
    Times(alpha, x) + Times(1.0 - alpha, value)
  }

  function Alpha(n: nat): real {
    2.0 / (n as real + 1.0)
  }

  /** The exponential average: the mean of the first n, then folded forward. */
  function EmaOf(xs: seq<real>, n: nat): real
    requires 1 <= n <= |xs|
    decreases |xs|
  {
    if |xs| == n then Mean(Sum(xs), n)
    else Mix(Alpha(n), xs[|xs| - 1], EmaOf(xs[..|xs| - 1], n))
  }

  function Ema(bars: seq<Bar>, n: nat): Result<real> {
    if |bars| < n then Err(ValueError)
    else if n == 0 then Err(ZeroDivision)
    else Ok(EmaOf(Closes(bars), n))
  }

  method ComputeEma(bars: seq<Bar>, n: nat) returns (r: Result<real>)
    ensures r == Ema(bars, n)
  {
    var closes := Closes(bars);
    if |closes| < n {
      return Err(ValueError);
    }
    if n == 0 {
      return Err(ZeroDivision);
    }
    var alpha := Alpha(n);
    var total := Total(closes[..n]);
    var value := Mean(total, n);
    for i := n to |closes|
      invariant value == EmaOf(closes[..i], n)
    {
      assert closes[..i + 1][..i] == closes[..i];
      value := Mix(alpha, closes[i], value);
    }
    assert closes[..|closes|] == closes;
    r := Ok(value);
  }

  // ------------------------------------------------------------ true range

  /** True range of a candle given the one before it. */
  function TrueRange(prev: Bar, bar: Bar): real {
    Max(bar.high - bar.low, Max(Abs(bar.high - prev.close), Abs(bar.low - prev.close)))
  }

  function TrueRanges(bars: seq<Bar>): (trs: seq<real>)
    requires |bars| >= 1
    ensures |trs| == |bars| - 1
  {
    seq(|bars| - 1, i requires 0 <= i < |bars| - 1 => TrueRange(bars[i], bars[i + 1]))
  }

  /** One step of Wilder's running mean. */
  function Blend(value: real, x: real, n: nat): real
    requires n >= 1
  {
    Mean(Times(value, n as real - 1.0) + x, n)
  }

  /** Wilder's running mean: the mean of the first n, then blended forward. */
  function WilderMean(xs: seq<real>, n: nat): real
    requires 1 <= n <= |xs|
    decreases |xs|
  {
    if |xs| == n then Mean(Sum(xs), n)
    else Blend(WilderMean(xs[..|xs| - 1], n), xs[|xs| - 1], n)
  }

  lemma {:induction false} WilderMeanSnoc(xs: seq<real>, n: nat, i: nat)
    requires 1 <= n <= i < |xs|
    ensures WilderMean(xs[..i + 1], n) == Blend(WilderMean(xs[..i], n), xs[i], n)
  {
    assert xs[..i + 1][..i] == xs[..i];
  }

  function Atr(bars: seq<Bar>, n: nat): Result<real> {
    if |bars| < n + 1 then Err(ValueError)
    else if n == 0 then Err(ZeroDivision)
    else Ok(WilderMean(TrueRanges(bars), n))
  }

  method ComputeWilderMean(xs: seq<real>, n: nat) returns (value: real)
    requires 1 <= n <= |xs|
    ensures value == WilderMean(xs, n)
  {
    var total := Total(xs[..n]);
    value := Mean(total, n);
    for i := n to |xs|
      invariant value == WilderMean(xs[..i], n)
    {
      WilderMeanSnoc(xs, n, i);
      value := Blend(value, xs[i], n);
    }
    assert xs[..|xs|] == xs;
  }

  method ComputeAtr(bars: seq<Bar>, n: nat) returns (r: Result<real>)
    ensures r == Atr(bars, n)
  {
    if |bars| < n + 1 {
      return Err(ValueError);
    }
    if n == 0 {
      return Err(ZeroDivision);
    }
    var value := ComputeWilderMean(TrueRanges(bars), n);
    r := Ok(value);
  }

  // ------------------------------------------------- relative strength index

  function Gain(prev: Bar, bar: Bar): real {
    Max(bar.close - prev.close, 0.0)
  }

  function Loss(prev: Bar, bar: Bar): real {
    Max(-(bar.close - prev.close), 0.0)
  }

  function Gains(bars: seq<Bar>): (gs: seq<real>)
    requires |bars| >= 1
    ensures |gs| == |bars| - 1
  {
    seq(|bars| - 1, i requires 0 <= i < |bars| - 1 => Gain(bars[i], bars[i + 1]))
  }

  function Losses(bars: seq<Bar>): (ls: seq<real>)
    requires |bars| >= 1
    ensures |ls| == |bars| - 1
  {
    seq(|bars| - 1, i requires 0 <= i < |bars| - 1 => Loss(bars[i], bars[i + 1]))
  }

  function Strength(avgGain: real, avgLoss: real): Result<real> {
    if avgLoss < EPS then Ok(100.0)
    else if 1.0 + avgGain / avgLoss == 0.0 then Err(ZeroDivision)
    else Ok(100.0 - 100.0 / (1.0 + avgGain / avgLoss))
  }

  function Rsi(bars: seq<Bar>, n: nat): Result<real> {
    if |bars| < n + 1 then Err(ValueError)
    else if n == 0 then Err(ZeroDivision)
    else Strength(WilderMean(Gains(bars), n), WilderMean(Losses(bars), n))
  }

  method ComputeRsi(bars: seq<Bar>, n: nat) returns (r: Result<real>)
    ensures r == Rsi(bars, n)
  {
    if |bars| < n + 1 {
      return Err(ValueError);
    }
    if n == 0 {
      return Err(ZeroDivision);
    }
    var gains, losses := Gains(bars), Losses(bars);
    var totalGain := Total(gains[..n]);
    var totalLoss := Total(losses[..n]);
    var avgGain, avgLoss := Mean(totalGain, n), Mean(totalLoss, n);
    assert avgGain == WilderMean(gains[..n], n) && avgLoss == WilderMean(losses[..n], n);
    hide Gains, Losses, Mean, Blend, Strength, WilderMean, Sum;
    for i := n to |gains|
      invariant avgGain == WilderMean(gains[..i], n)
      invariant avgLoss == WilderMean(losses[..i], n)
    {
      WilderMeanSnoc(gains, n, i);
      WilderMeanSnoc(losses, n, i);
      avgGain := Blend(avgGain, gains[i], n);
      avgLoss := Blend(avgLoss, losses[i], n);
    }
    assert gains[..|gains|] == gains && losses[..|losses|] == losses;
    r := Strength(avgGain, avgLoss);
  }

  // ------------------------------------------------ directional movement

  function PlusDm(prev: Bar, bar: Bar): real {
    var up, down := bar.high - prev.high, prev.low - bar.low;
    if up > down && up > 0.0 then up else 0.0
  }

  function MinusDm(prev: Bar, bar: Bar): real {
    var up, down := bar.high - prev.high, prev.low - bar.low;
    if down > up && down > 0.0 then down else 0.0
  }

  function PlusDms(bars: seq<Bar>): (xs: seq<real>)
    requires |bars| >= 1
    ensures |xs| == |bars| - 1
  {
    seq(|bars| - 1, i requires 0 <= i < |bars| - 1 => PlusDm(bars[i], bars[i + 1]))
  }

  function MinusDms(bars: seq<Bar>): (xs: seq<real>)
    requires |bars| >= 1
    ensures |xs| == |bars| - 1
  {
    seq(|bars| - 1, i requires 0 <= i < |bars| - 1 => MinusDm(bars[i], bars[i + 1]))
  }

  /** One step of Wilder's running sum. */
  function Decay(value: real, x: real, n: nat): real
    requires n >= 1
  {
    value - Mean(value, n) + x
  }

  /** Wilder's running sum over a series. */
  function WilderSum(xs: seq<real>, n: nat): real
    requires 1 <= n <= |xs|
    decreases |xs|
  {
    if |xs| == n then Sum(xs) else Decay(WilderSum(xs[..|xs| - 1], n), xs[|xs| - 1], n)
  }

  function Percent(part: real, whole: real): real
    requires whole != 0.0
  {
    100.0 * part / whole
  }

  /** The directional state after some smoothing steps: the index values kept so
      far and the last +DI and -DI. */
  datatype Directional = Directional(dx: seq<real>, plus: real, minus: real)

  function Dx(plus: real, minus: real): real {
    var denominator := plus + minus;
    if denominator > EPS then 100.0 * Abs(plus - minus) / denominator else 0.0
  }

  /** Steps whose smoothed true range is below epsilon are skipped. */
  function Advance(d: Directional, tr: real, plus: real, minus: real): Directional {
    if tr < EPS then d
    else
      var plusDi, minusDi := Percent(plus, tr), Percent(minus, tr);
      Directional(d.dx + [Dx(plusDi, minusDi)], plusDi, minusDi)
  }

  /** The directional state over the series, one step per prefix of at least n. */
  function DirectionalOf(trs: seq<real>, plus: seq<real>, minus: seq<real>, n: nat): Directional
    requires 1 <= n && n - 1 <= |trs| == |plus| == |minus|
    decreases |trs|
  {
    var k := |trs| - 1;
    if |trs| == n - 1 then Directional([], 0.0, 0.0)
    else Advance(DirectionalOf(trs[..k], plus[..k], minus[..k], n), WilderSum(trs, n), WilderSum(plus, n),
      WilderSum(minus, n))
  }

  /** The mean of the first n index values (divided by n even when there are
      fewer), then blended forward. */
  function AdxOf(dx: seq<real>, n: nat): real
    requires n >= 1
    decreases |dx|
  {
    if |dx| <= n then Mean(Sum(dx), n)
    else Blend(AdxOf(dx[..|dx| - 1], n), dx[|dx| - 1], n)
  }

  datatype AdxValue = AdxValue(adx: real, plusDi: real, minusDi: real)

  function Adx(bars: seq<Bar>, n: nat): Result<AdxValue> {
    if |bars| < 2 * n + 1 then Err(ValueError)
    else if n == 0 then Err(ZeroDivision)
    else
      var d := DirectionalOf(TrueRanges(bars), PlusDms(bars), MinusDms(bars), n);
      Ok(AdxValue(AdxOf(d.dx, n), d.plus, d.minus))
  }

  method ComputeAdx(bars: seq<Bar>, n: nat) returns (r: Result<AdxValue>)
    ensures r == Adx(bars, n)
  {
    if |bars| < 2 * n + 1 {
      return Err(ValueError);
    }
    if n == 0 {
      return Err(ZeroDivision);
    }
    var trs, plusDm, minusDm := TrueRanges(bars), PlusDms(bars), MinusDms(bars);
    var trS := Smooth(trs, n);
    var plusS := Smooth(plusDm, n);
    var minusS := Smooth(minusDm, n);
    var dx: seq<real>, plusDi, minusDi := [], 0.0, 0.0;
    hide WilderSum, Percent, Dx, TrueRange, PlusDm, MinusDm, AdxOf;
    for i := 0 to |trS|
      invariant Directional(dx, plusDi, minusDi) == DirectionalOf(trs[..n - 1 + i], plusDm[..n - 1 + i],
        minusDm[..n - 1 + i], n)
    {
      assert trs[..n + i][..n - 1 + i] == trs[..n - 1 + i];
      assert plusDm[..n + i][..n - 1 + i] == plusDm[..n - 1 + i];
      assert minusDm[..n + i][..n - 1 + i] == minusDm[..n - 1 + i];
      if trS[i] < EPS {
        continue;
      }
      plusDi := Percent(plusS[i], trS[i]);
      minusDi := Percent(minusS[i], trS[i]);
      dx := dx + [Dx(plusDi, minusDi)];
    }
    assert trs[..|trs|] == trs && plusDm[..|trs|] == plusDm && minusDm[..|trs|] == minusDm;
    var adx := ComputeAdxMean(dx, n);
    r := Ok(AdxValue(adx, plusDi, minusDi));
  }

  method ComputeAdxMean(dx: seq<real>, n: nat) returns (adx: real)
    requires n >= 1
    ensures adx == AdxOf(dx, n)
  {
    var head := if |dx| <= n then |dx| else n;
    var total := Total(dx[..head]);
    adx := Mean(total, n);
    for i := head to |dx|
      invariant adx == AdxOf(dx[..i], n)
    {
      assert dx[..i + 1][..i] == dx[..i];
      adx := Blend(adx, dx[i], n);
    }
    assert dx[..|dx|] == dx;
  }

  /** All running sums of a series, one per prefix of at least n values. */
  method Smooth(xs: seq<real>, n: nat) returns (smoothed: seq<real>)
    requires 1 <= n <= |xs|
    ensures |smoothed| == |xs| - n + 1
    ensures forall i :: 0 <= i < |smoothed| ==> smoothed[i] == WilderSum(xs[..n + i], n)
  {
    var total := Total(xs[..n]);
    smoothed := [total];
    for i := n to |xs|
      invariant |smoothed| == i - n + 1
      invariant forall k :: 0 <= k < |smoothed| ==> smoothed[k] == WilderSum(xs[..n + k], n)
    {
      assert xs[..i + 1][..i] == xs[..i];
      assert smoothed[|smoothed| - 1] == WilderSum(xs[..i], n);
      smoothed := smoothed + [Decay(smoothed[|smoothed| - 1], xs[i], n)];
    }
  }

  // ------------------------------------------------------- realised volatility

  function LogReturn(maths: Maths, prev: real, close: real): Result<real> {
    if prev == 0.0 then Err(ZeroDivision)
    else if close / prev <= 0.0 then Err(ValueError)
    else Ok(maths.log(close / prev))
  }

  /** The log returns of consecutive closes; the first failing one raises. */
  function LogReturns(maths: Maths, closes: seq<real>): Result<seq<real>>
    requires |closes| >= 1
    decreases |closes|
  {
    if |closes| == 1 then Ok([])
    else
      var k := |closes| - 1;
      var before := LogReturns(maths, closes[..k]);
      if before.Err? then before
      else
        var last := LogReturn(maths, closes[k - 1], closes[k]);
        if last.Err? then Err(last.fault) else Ok(before.value + [last.value])
  }

  function Squares(xs: seq<real>, mean: real): (ys: seq<real>)
    ensures |ys| == |xs|
  {
    seq(|xs|, i requires 0 <= i < |xs| => (xs[i] - mean) * (xs[i] - mean))
  }

  /** Sample standard deviation of the last n log returns. */
  function RealizedVol(maths: Maths, bars: seq<Bar>, n: nat): Result<real> {
    if |bars| < n + 1 then Err(ValueError)
    else
      var rets := LogReturns(maths, Closes(bars[|bars| - n - 1..]));
      if rets.Err? then Err(rets.fault)
      else if |rets.value| <= 1 then Err(ZeroDivision)
      else
        var mean := Mean(Sum(rets.value), |rets.value|);
        var variance := Mean(Sum(Squares(rets.value, mean)), |rets.value| - 1);
        if variance < 0.0 then Err(MathDomain) else Ok(maths.sqrt(variance))
  }
}
