/** What the trend indicators measure: candles that keep climbing have an index
    of 100 and all pressure upwards, a market turned upside down swaps the two
    pressures, and an average trails a straight line by half its length. */
module TrendLaws {
  import opened Basics
  import opened Contracts
  import opened Indicators
  import opened IndicatorLaws
  import opened Regimes

  // ------------------------------------------------------------ one-sided candles

  /** A candle whose low holds and whose high rises, by more than epsilon percent
      of a true range of at least epsilon. */
  predicate Climbs(prev: Bar, bar: Bar) {
    && bar.low >= prev.low && TrueRange(prev, bar) >= EPS
    && 100.0 * (bar.high - prev.high) > EPS * TrueRange(prev, bar)
  }

  predicate Descends(prev: Bar, bar: Bar) {
    && bar.high <= prev.high && TrueRange(prev, bar) >= EPS
    && 100.0 * (prev.low - bar.low) > EPS * TrueRange(prev, bar)
  }

  predicate Climbing(bars: seq<Bar>) {
    forall i :: 0 <= i < |bars| - 1 ==> Climbs(bars[i], bars[i + 1])
  }

  predicate Descending(bars: seq<Bar>) {
    forall i :: 0 <= i < |bars| - 1 ==> Descends(bars[i], bars[i + 1])
  }

  /** Pressure outweighs epsilon percent of the range, everywhere. */
  ghost predicate Outweighs(plus: seq<real>, trs: seq<real>) {
    |plus| == |trs| && forall i :: 0 <= i < |trs| ==> trs[i] >= EPS && 100.0 * plus[i] > EPS * trs[i]
  }

  ghost predicate Silent(minus: seq<real>) {
    forall i :: 0 <= i < |minus| ==> minus[i] == 0.0
  }

  lemma {:induction false} ClimbMovement(prev: Bar, bar: Bar)
    requires Climbs(prev, bar)
    ensures PlusDm(prev, bar) == bar.high - prev.high && MinusDm(prev, bar) == 0.0
  {
    hide TrueRange;
  }

  lemma {:induction false} SumOutweighs(plus: seq<real>, trs: seq<real>)
    requires Outweighs(plus, trs) && trs != []
    ensures Sum(trs) >= EPS && 100.0 * Sum(plus) > EPS * Sum(trs)
    decreases |trs|
  {
    var k := |trs| - 1;
    if k > 0 {
      SumOutweighs(plus[..k], trs[..k]);
    }
  }

  lemma {:induction false} DecayOutweighs(plus: real, tr: real, x: real, y: real, n: nat)
    requires n >= 1 && tr >= EPS && 100.0 * plus > EPS * tr && y >= EPS && 100.0 * x > EPS * y
    ensures Decay(tr, y, n) >= EPS && 100.0 * Decay(plus, x, n) > EPS * Decay(tr, y, n)
  {
    ShareLeft(tr, n);
    ShareLeft(100.0 * plus - EPS * tr, n);
    assert Mean(100.0 * plus - EPS * tr, n) == 100.0 * Mean(plus, n) - EPS * Mean(tr, n);
  }

  lemma {:induction false} SmoothedOutweighs(plus: seq<real>, trs: seq<real>, n: nat)
    requires Outweighs(plus, trs) && 1 <= n <= |trs|
    ensures WilderSum(trs, n) >= EPS && 100.0 * WilderSum(plus, n) > EPS * WilderSum(trs, n)
    decreases |trs|
  {
    if |trs| == n {
      SumOutweighs(plus, trs);
    } else {
      var k := |trs| - 1;
      SmoothedOutweighs(plus[..k], trs[..k], n);
      DecayOutweighs(WilderSum(plus[..k], n), WilderSum(trs[..k], n), plus[k], trs[k], n);
    }
  }

  lemma {:induction false} SmoothedSilent(minus: seq<real>, n: nat)
    requires Silent(minus) && 1 <= n <= |minus|
    ensures WilderSum(minus, n) == 0.0
    decreases |minus|
  {
    if |minus| == n {
      SumWithin(minus, 0.0, 0.0);
    } else {
      SmoothedSilent(minus[..|minus| - 1], n);
    }
  }

  /** One step with all the pressure on one side counts 100. */
  lemma {:induction false} AdvanceOneSided(d: Directional, tr: real, plus: real)
    requires tr >= EPS && 100.0 * plus > EPS * tr
    ensures
      var after := Advance(d, tr, plus, 0.0);
      after.dx == d.dx + [100.0] && after.minus == 0.0 && after.plus == Percent(plus, tr) > EPS
  {
    var p := Percent(plus, tr);
    assert p * tr == 100.0 * plus;
    assert p <= EPS ==> (EPS - p) * tr >= 0.0;
    assert Percent(0.0, tr) == 0.0;
    assert 100.0 * p / p == 100.0;
  }

  lemma {:induction false} DirectionalOneSided(trs: seq<real>, plus: seq<real>, minus: seq<real>, n: nat)
    requires Outweighs(plus, trs) && Silent(minus) && |minus| == |trs| && 1 <= n && n - 1 <= |trs|
    ensures
      var d := DirectionalOf(trs, plus, minus, n);
      && |d.dx| == |trs| - (n - 1) && Within(d.dx, 100.0, 100.0) && d.minus == 0.0
      && (|trs| >= n ==> WilderSum(trs, n) >= EPS && d.plus == Percent(WilderSum(plus, n), WilderSum(trs, n)))
    decreases |trs|
  {
    if |trs| >= n {
      var k := |trs| - 1;
      DirectionalOneSided(trs[..k], plus[..k], minus[..k], n);
      SmoothedOutweighs(plus, trs, n);
      SmoothedSilent(minus, n);
      hide Advance, WilderSum, Percent;
      AdvanceOneSided(DirectionalOf(trs[..k], plus[..k], minus[..k], n), WilderSum(trs, n), WilderSum(plus, n));
    }
  }

  /** With at least n values the index lies within any bounds on them. */
  lemma {:induction false} AdxWithinBounds(dx: seq<real>, n: nat, lo: real, hi: real)
    requires 1 <= n <= |dx| && Within(dx, lo, hi)
    ensures lo <= AdxOf(dx, n) <= hi
    decreases |dx|
  {
    if |dx| == n {
      SumWithin(dx, lo, hi);
      MeanWithin(Sum(dx), n, lo, hi);
    } else {
      AdxWithinBounds(dx[..|dx| - 1], n, lo, hi);
      BlendWithin(AdxOf(dx[..|dx| - 1], n), dx[|dx| - 1], n, lo, hi);
    }
  }

  lemma {:induction false} ClimbSeries(bars: seq<Bar>)
    requires Climbing(bars) && |bars| >= 1
    ensures Outweighs(PlusDms(bars), TrueRanges(bars)) && Silent(MinusDms(bars))
  {
    forall i | 0 <= i < |bars| - 1
      ensures TrueRanges(bars)[i] >= EPS && 100.0 * PlusDms(bars)[i] > EPS * TrueRanges(bars)[i]
      ensures MinusDms(bars)[i] == 0.0
    {
      assert Climbs(bars[i], bars[i + 1]);
      ClimbMovement(bars[i], bars[i + 1]);
    }
  }

  /** Main result on the index: on candles that keep climbing it is 100, and all
      the pressure is upwards. */
  lemma {:induction false} ClimbingIsFull(bars: seq<Bar>, n: nat)
    requires Climbing(bars) && n >= 1 && |bars| >= 2 * n + 1
    ensures Adx(bars, n).Ok?
    ensures
      var v := Adx(bars, n).value;
      v.adx == 100.0 && v.minusDi == 0.0 && v.plusDi > EPS
  {
    var trs, plus, minus := TrueRanges(bars), PlusDms(bars), MinusDms(bars);
    ClimbSeries(bars);
    DirectionalOneSided(trs, plus, minus, n);
    SmoothedOutweighs(plus, trs, n);
    AdvanceOneSided(Directional([], 0.0, 0.0), WilderSum(trs, n), WilderSum(plus, n));
    AdxWithinBounds(DirectionalOf(trs, plus, minus, n).dx, n, 100.0, 100.0);
  }

  /** And where every candle rises by the same step with the same true range, the
      upward pressure is the step in percent of the range. */
  lemma {:induction false} SteadyClimb(bars: seq<Bar>, n: nat, step: real, range: real)
    requires Climbing(bars) && n >= 1 && |bars| >= 2 * n + 1
    requires forall i :: 0 <= i < |bars| - 1 ==>
      bars[i + 1].high - bars[i].high == step && TrueRange(bars[i], bars[i + 1]) == range
    ensures range > 0.0 && Adx(bars, n) == Ok(AdxValue(100.0, Percent(step, range), 0.0))
  {
    var trs, plus, minus := TrueRanges(bars), PlusDms(bars), MinusDms(bars);
    AdxIs(bars, n);
    hide *;
    ClimbingIsFull(bars, n);
    ClimbSeries(bars);
    SteadySeries(bars, step, range);
    DirectionalOneSided(trs, plus, minus, n);
    WilderMeanWithin(trs, n, range, range);
    WilderMeanWithin(plus, n, step, step);
    WilderFormsAgree(trs, n);
    WilderFormsAgree(plus, n);
    SameRatio(n as real, step, range);
  }

  lemma {:induction false} AdxIs(bars: seq<Bar>, n: nat)
    requires n >= 1 && |bars| >= 2 * n + 1
    ensures
      var d := DirectionalOf(TrueRanges(bars), PlusDms(bars), MinusDms(bars), n);
      Adx(bars, n) == Ok(AdxValue(AdxOf(d.dx, n), d.plus, d.minus))
  {
    hide DirectionalOf, AdxOf, TrueRanges, PlusDms, MinusDms;
  }

  lemma {:induction false} SteadySeries(bars: seq<Bar>, step: real, range: real)
    requires Climbing(bars) && |bars| >= 2
    requires forall i :: 0 <= i < |bars| - 1 ==>
      bars[i + 1].high - bars[i].high == step && TrueRange(bars[i], bars[i + 1]) == range
    ensures range > 0.0 && Within(TrueRanges(bars), range, range) && Within(PlusDms(bars), step, step)
  {
    assert Climbs(bars[0], bars[1]);
    forall i | 0 <= i < |bars| - 1 ensures PlusDms(bars)[i] == step && TrueRanges(bars)[i] == range {
      assert Climbs(bars[i], bars[i + 1]);
      ClimbMovement(bars[i], bars[i + 1]);
    }
  }

  lemma {:induction false} SameRatio(k: real, x: real, y: real)
    requires k > 0.0 && y > 0.0
    ensures Times(k, y) != 0.0 && Percent(Times(k, x), Times(k, y)) == Percent(x, y)
  {
    var q := 100.0 * x / y;
    assert q * y == 100.0 * x;
    assert k * y > 0.0;
    assert q * (k * y) == 100.0 * (k * x);
  }

  // -------------------------------------------------------- a market upside down

  function Flip(bar: Bar, c: real): Bar {
    bar.(open := c - bar.open, high := c - bar.low, low := c - bar.high, close := c - bar.close)
  }

  function FlipAll(bars: seq<Bar>, c: real): (r: seq<Bar>)
    ensures |r| == |bars|
  {
    seq(|bars|, i requires 0 <= i < |bars| => Flip(bars[i], c))
  }

  lemma {:induction false} FlipSwaps(prev: Bar, bar: Bar, c: real)
    ensures TrueRange(Flip(prev, c), Flip(bar, c)) == TrueRange(prev, bar)
    ensures PlusDm(Flip(prev, c), Flip(bar, c)) == MinusDm(prev, bar)
    ensures MinusDm(Flip(prev, c), Flip(bar, c)) == PlusDm(prev, bar)
    ensures Gain(Flip(prev, c), Flip(bar, c)) == Loss(prev, bar)
    ensures Loss(Flip(prev, c), Flip(bar, c)) == Gain(prev, bar)
    ensures Climbs(Flip(prev, c), Flip(bar, c)) <==> Descends(prev, bar)
  {
  }

  lemma {:induction false} SeriesSwap(bars: seq<Bar>, c: real)
    requires |bars| >= 1
    ensures TrueRanges(FlipAll(bars, c)) == TrueRanges(bars)
    ensures PlusDms(FlipAll(bars, c)) == MinusDms(bars) && MinusDms(FlipAll(bars, c)) == PlusDms(bars)
    ensures Gains(FlipAll(bars, c)) == Losses(bars) && Losses(FlipAll(bars, c)) == Gains(bars)
    ensures Climbing(FlipAll(bars, c)) <==> Descending(bars)
  {
    forall i | 0 <= i < |bars| - 1
      ensures
        var x, y := FlipAll(bars, c)[i], FlipAll(bars, c)[i + 1];
        && TrueRange(x, y) == TrueRange(bars[i], bars[i + 1])
        && PlusDm(x, y) == MinusDm(bars[i], bars[i + 1]) && MinusDm(x, y) == PlusDm(bars[i], bars[i + 1])
        && Gain(x, y) == Loss(bars[i], bars[i + 1]) && Loss(x, y) == Gain(bars[i], bars[i + 1])
        && (Climbs(x, y) <==> Descends(bars[i], bars[i + 1]))
    {
      FlipSwaps(bars[i], bars[i + 1], c);
    }
    hide Climbs, Descends, TrueRange, PlusDm, MinusDm, Gain, Loss, Flip, FlipAll;
  }

  function Swapped(d: Directional): Directional {
    Directional(d.dx, d.minus, d.plus)
  }

  lemma {:induction false} AdvanceSwaps(d: Directional, tr: real, plus: real, minus: real)
    ensures Advance(Swapped(d), tr, minus, plus) == Swapped(Advance(d, tr, plus, minus))
  {
    hide Percent;
  }

  lemma {:induction false} DirectionalSwaps(trs: seq<real>, plus: seq<real>, minus: seq<real>, n: nat)
    requires 1 <= n && n - 1 <= |trs| == |plus| == |minus|
    ensures DirectionalOf(trs, minus, plus, n) == Swapped(DirectionalOf(trs, plus, minus, n))
    decreases |trs|
  {
    if |trs| >= n {
      var k := |trs| - 1;
      DirectionalSwaps(trs[..k], plus[..k], minus[..k], n);
      hide Advance, WilderSum;
      AdvanceSwaps(DirectionalOf(trs[..k], plus[..k], minus[..k], n), WilderSum(trs, n), WilderSum(plus, n),
        WilderSum(minus, n));
    }
  }

  /** Main result on direction: turning the prices upside down swaps the two
      pressures and leaves the index alone, on any candles. */
  lemma {:induction false} AdxMirrors(bars: seq<Bar>, n: nat, c: real)
    ensures
      var there, here := Adx(FlipAll(bars, c), n), Adx(bars, n);
      there == if here.Ok? then Ok(AdxValue(here.value.adx, here.value.minusDi, here.value.plusDi)) else here
  {
    if |bars| >= 2 * n + 1 && n >= 1 {
      SeriesSwap(bars, c);
      hide FlipAll, DirectionalOf, AdxOf;
      DirectionalSwaps(TrueRanges(bars), PlusDms(bars), MinusDms(bars), n);
    }
  }

  /** So on candles that keep descending the index is 100 and all the pressure is
      downwards. */
  lemma {:induction false} DescendingIsFull(bars: seq<Bar>, n: nat)
    requires Descending(bars) && n >= 1 && |bars| >= 2 * n + 1
    ensures Adx(bars, n).Ok?
    ensures
      var v := Adx(bars, n).value;
      v.adx == 100.0 && v.plusDi == 0.0 && v.minusDi > EPS
  {
    SeriesSwap(bars, 0.0);
    AdxMirrors(bars, n, 0.0);
    hide Adx, Climbing, Descending, FlipAll;
    ClimbingIsFull(FlipAll(bars, 0.0), n);
  }

  // --------------------------------------------------- relative strength, mirrored

  /** Unless the losses vanish, the index is the gains in percent of all moves. */
  lemma {:induction false} RsiIsShare(bars: seq<Bar>, n: nat)
    requires n >= 1 && |bars| >= n + 1
    ensures
      var gain, loss := WilderMean(Gains(bars), n), WilderMean(Losses(bars), n);
      && Rsi(bars, n).Ok?
      && (if loss < EPS then Rsi(bars, n).value == 100.0
          else Times(Rsi(bars, n).value, gain + loss) == Times(100.0, gain))
  {
    var gain, loss := WilderMean(Gains(bars), n), WilderMean(Losses(bars), n);
    RsiBounds(bars, n);
    WilderMeanNonNegative(Gains(bars), n);
    WilderMeanNonNegative(Losses(bars), n);
    hide WilderMean, Gains, Losses;
    if loss >= EPS {
      ShareOf(gain, loss);
    }
  }

  lemma {:induction false} ShareOf(gain: real, loss: real)
    requires gain >= 0.0 && loss > 0.0
    ensures 1.0 + gain / loss != 0.0
    ensures Times(100.0 - 100.0 / (1.0 + gain / loss), gain + loss) == Times(100.0, gain)
  {
    var rs := gain / loss;
    assert rs >= 0.0 && rs * loss == gain;
    var q := 100.0 / (1.0 + rs);
    assert q * (1.0 + rs) == 100.0;
    assert q * (loss * (1.0 + rs)) == 100.0 * loss;
    assert loss * (1.0 + rs) == loss + gain;
  }

  /** Upside down the index reads 100 less what it reads upright, exactly when
      neither average is a trace below epsilon and not both vanish. */
  lemma {:induction false} RsiMirrorsIff(bars: seq<Bar>, n: nat, c: real)
    requires n >= 1 && |bars| >= n + 1
    ensures Rsi(bars, n).Ok? && Rsi(FlipAll(bars, c), n).Ok?
    ensures
      var gain, loss := WilderMean(Gains(bars), n), WilderMean(Losses(bars), n);
      Rsi(FlipAll(bars, c), n).value == 100.0 - Rsi(bars, n).value
      <==> (gain == 0.0 || gain >= EPS) && (loss == 0.0 || loss >= EPS) && (gain >= EPS || loss >= EPS)
  {
    RsiFlipped(bars, n, c);
    RsiIsShare(bars, n);
    WilderMeanNonNegative(Gains(bars), n);
    WilderMeanNonNegative(Losses(bars), n);
    var gain, loss := WilderMean(Gains(bars), n), WilderMean(Losses(bars), n);
    hide *;
    SharesAdd(gain, loss, Rsi(bars, n).value, Rsi(FlipAll(bars, c), n).value);
  }

  lemma {:induction false} RsiFlipped(bars: seq<Bar>, n: nat, c: real)
    requires n >= 1 && |bars| >= n + 1
    ensures
      var gain, loss := WilderMean(Gains(bars), n), WilderMean(Losses(bars), n);
      && Rsi(FlipAll(bars, c), n).Ok?
      && (if gain < EPS then Rsi(FlipAll(bars, c), n).value == 100.0
          else Times(Rsi(FlipAll(bars, c), n).value, loss + gain) == Times(100.0, loss))
  {
    hide *;
    SeriesSwap(bars, c);
    RsiIsShare(FlipAll(bars, c), n);
  }

  lemma {:induction false} SharesAdd(gain: real, loss: real, r: real, s: real)
    requires gain >= 0.0 && loss >= 0.0
    requires if loss < EPS then r == 100.0 else Times(r, gain + loss) == Times(100.0, gain)
    requires if gain < EPS then s == 100.0 else Times(s, loss + gain) == Times(100.0, loss)
    ensures s == 100.0 - r
       <==> (gain == 0.0 || gain >= EPS) && (loss == 0.0 || loss >= EPS) && (gain >= EPS || loss >= EPS)
  {
    hide Times;
    if gain >= EPS && loss >= EPS {
      SharesTogether(gain, loss, gain + loss, r, s);
    } else if gain >= EPS {
      ShareVanishes(loss, gain + loss, s);
    } else if loss >= EPS {
      ShareVanishes(gain, gain + loss, r);
    }
  }

  lemma {:induction false} SharesTogether(x: real, y: real, all: real, r: real, s: real)
    requires all == x + y > 0.0 && Times(r, all) == Times(100.0, x) && Times(s, all) == Times(100.0, y)
    ensures r + s == 100.0
  {
    assert (r + s - 100.0) * all == 0.0;
  }

  lemma {:induction false} ShareVanishes(part: real, all: real, r: real)
    requires all > 0.0 && Times(r, all) == Times(100.0, part)
    ensures r == 0.0 <==> part == 0.0
  {
  }

  lemma {:induction false} ZeroMean(xs: seq<real>, n: nat)
    requires Silent(xs) && 1 <= n <= |xs|
    ensures WilderMean(xs, n) == 0.0
  {
    WilderMeanWithin(xs, n, 0.0, 0.0);
  }

  /** Closes that never fall read 100. */
  lemma {:induction false} NeverFallingReads100(bars: seq<Bar>, n: nat)
    requires n >= 1 && |bars| >= n + 1
    requires forall i :: 0 <= i < |bars| - 1 ==> bars[i].close <= bars[i + 1].close
    ensures Rsi(bars, n) == Ok(100.0)
  {
    assert Silent(Losses(bars));
    ZeroMean(Losses(bars), n);
    RsiIsShare(bars, n);
  }

  // --------------------------------------------------------------- how far behind

  /** Closes on a straight line. */
  predicate Straight(xs: seq<real>, step: real) {
    forall i :: 0 <= i < |xs| - 1 ==> xs[i + 1] == xs[i] + step
  }

  lemma {:induction false} StraightSum(xs: seq<real>, step: real)
    requires Straight(xs, step) && xs != []
    ensures
      var n := |xs| as real;
      Sum(xs) == Times(n, xs[|xs| - 1]) - Times(Times(n, n - 1.0), step / 2.0)
    decreases |xs|
  {
    var k := |xs| - 1;
    if k == 0 {
      assert xs[..0] == [];
    } else {
      StraightSum(xs[..k], step);
      assert xs[k - 1 + 1] == xs[k - 1] + step;
      LineStep((k + 1) as real, xs[k], step);
    }
  }

  lemma {:induction false} LineStep(n: real, last: real, step: real)
    ensures Times(n - 1.0, last - step) - Times(Times(n - 1.0, n - 2.0), step / 2.0) + last
      == Times(n, last) - Times(Times(n, n - 1.0), step / 2.0)
  {
    assert (n - 1.0) * (n - 2.0) == n * (n - 1.0) - 2.0 * (n - 1.0);
    var h := step / 2.0;
    assert (n * (n - 1.0) - 2.0 * (n - 1.0)) * h == n * (n - 1.0) * h - (n - 1.0) * step;
    assert (n - 1.0) * (last - step) == n * last - last - (n - 1.0) * step;
  }

  lemma {:induction false} LineMean(n: nat, last: real, step: real)
    requires n >= 1
    ensures Mean(Times(n as real, last) - Times(Times(n as real, n as real - 1.0), step / 2.0), n)
         == last - Times(n as real - 1.0, step / 2.0)
  {
    var m, h := n as real, step / 2.0;
    assert m * (m - 1.0) * h == m * ((m - 1.0) * h);
    assert m * last - m * ((m - 1.0) * h) == m * (last - (m - 1.0) * h);
    assert m * (last - (m - 1.0) * h) / m == last - (m - 1.0) * h;
  }

  /** A step of the average keeps the lag: the weight of the past is (n - 1) of
      n + 1, and the past lags by (n + 1) / 2 steps. */
  lemma {:induction false} LagKept(n: nat, last: real, step: real)
    requires n >= 1
    ensures Mix(Alpha(n), last, last - step - Times(n as real - 1.0, step / 2.0))
         == last - Times(n as real - 1.0, step / 2.0)
  {
    var m, h := n as real, step / 2.0;
    var w := 1.0 - Alpha(n);
    assert w * (m + 1.0) == m - 1.0;
    assert step + (m - 1.0) * h == (m + 1.0) * h;
    assert w * ((m + 1.0) * h) == (m - 1.0) * h;
    assert Mix(Alpha(n), last, last - (m + 1.0) * h) == last - w * ((m + 1.0) * h);
  }

  lemma {:induction false} EmaOnLine(xs: seq<real>, n: nat, step: real)
    requires Straight(xs, step) && 1 <= n <= |xs|
    ensures EmaOf(xs, n) == xs[|xs| - 1] - Times(n as real - 1.0, step / 2.0)
    decreases |xs|
  {
    var k := |xs| - 1;
    if |xs| == n {
      StraightSum(xs, step);
      LineMean(n, xs[k], step);
    } else {
      EmaOnLine(xs[..k], n, step);
      assert xs[k - 1 + 1] == xs[k - 1] + step;
      LagKept(n, xs[k], step);
    }
  }

  /** Main result on the average: on a straight line it trails the last close by
      (n - 1) / 2 steps, for every number of candles. */
  lemma {:induction false} EmaLag(bars: seq<Bar>, n: nat, step: real)
    requires Straight(Closes(bars), step) && 1 <= n <= |bars|
    ensures Ema(bars, n) == Ok(bars[|bars| - 1].close - Times(n as real - 1.0, step / 2.0))
  {
    EmaOnLine(Closes(bars), n, step);
  }

  // ------------------------------------------------------------------ true ranges

  /** The true range is the span of the candle and the close before it. */
  lemma {:induction false} TrueRangeSpans(prev: Bar, bar: Bar)
    requires bar.low <= bar.high
    ensures TrueRange(prev, bar) == Max(bar.high, prev.close) - Min(bar.low, prev.close)
  {
  }

  /** A further candle moves the ATR one n-th of the way to its own range. */
  lemma {:induction false} AtrMovesOneNth(bars: seq<Bar>, bar: Bar, n: nat)
    requires n >= 1 && |bars| >= n + 1
    ensures Atr(bars, n).Ok? && Atr(bars + [bar], n).Ok?
    ensures
      var before, after, range := Atr(bars, n).value, Atr(bars + [bar], n).value, TrueRange(bars[|bars| - 1], bar);
      Times(n as real, after - before) == range - before
  {
    var more, trs := TrueRanges(bars + [bar]), TrueRanges(bars);
    var range := TrueRange(bars[|bars| - 1], bar);
    hide TrueRange, Blend;
    assert more == trs + [range];
    assert more[..|trs|] == trs;
    BlendMoves(WilderMean(trs, n), range, n);
  }

  lemma {:induction false} BlendMoves(value: real, x: real, n: nat)
    requires n >= 1
    ensures Times(n as real, Blend(value, x, n) - value) == x - value
  {
    var m := n as real;
    assert m * Blend(value, x, n) == value * (m - 1.0) + x;
  }

  /** How many steps of the index have a smoothed range of at least epsilon. */
  function KeptSteps(bars: seq<Bar>, n: nat): nat
    requires n >= 1
    decreases |bars|
  {
    if |bars| < n + 1 then 0
    else
      KeptSteps(bars[..|bars| - 1], n) + (if Times(n as real, WilderMean(TrueRanges(bars), n)) >= EPS then 1 else 0)
  }

  lemma {:induction false} RangesSnoc(bars: seq<Bar>)
    requires |bars| >= 2
    ensures
      var k := |bars| - 1;
      && TrueRanges(bars)[..k - 1] == TrueRanges(bars[..k]) && PlusDms(bars)[..k - 1] == PlusDms(bars[..k])
      && MinusDms(bars)[..k - 1] == MinusDms(bars[..k])
  {
    hide TrueRange, PlusDm, MinusDm;
  }

  lemma {:induction false} StepsKept(bars: seq<Bar>, n: nat)
    requires n >= 1 && |bars| >= n
    ensures |DirectionalOf(TrueRanges(bars), PlusDms(bars), MinusDms(bars), n).dx| == KeptSteps(bars, n)
    decreases |bars|
  {
    if |bars| > n {
      RangesSnoc(bars);
      StepsKept(bars[..|bars| - 1], n);
      WilderFormsAgree(TrueRanges(bars), n);
      hide WilderSum, WilderMean, TrueRanges, PlusDms, MinusDms, Times, Percent, Dx;
    }
  }

  /** The index of one step: the difference of the pressures in percent of both. */
  predicate StepIndex(x: real, plus: real, minus: real) {
    if plus + minus > EPS then Times(x, plus + minus) == Times(100.0, Abs(plus - minus)) else x == 0.0
  }

  lemma {:induction false} DxIsStep(plus: real, minus: real)
    ensures StepIndex(Dx(plus, minus), plus, minus)
  {
  }

  lemma {:induction false} AdxNext(dx: seq<real>, x: real, n: nat)
    requires n >= 1
    ensures Times(n as real, AdxOf(dx + [x], n) - AdxOf(dx, n)) == if |dx| < n then x else x - AdxOf(dx, n)
  {
    assert (dx + [x])[..|dx|] == dx;
    hide Mean, Blend, Times;
    if |dx| < n {
      SumSnoc(dx, x);
      MeanMoves(Sum(dx), x, n);
    } else {
      BlendMoves(AdxOf(dx, n), x, n);
    }
  }

  lemma {:induction false} MeanMoves(sum: real, x: real, n: nat)
    requires n >= 1
    ensures Times(n as real, Mean(sum + x, n) - Mean(sum, n)) == x
  {
    var m := n as real;
    assert Mean(sum + x, n) * m == sum + x;
    assert Mean(sum, n) * m == sum;
  }

  /** Main result on averaging: a further candle whose smoothed range vanishes
      changes nothing; any other moves the index one n-th of the way to its own
      step, or, before the first n steps, by one n-th of it. */
  lemma {:induction false} AdxMovesOneNth(bars: seq<Bar>, bar: Bar, n: nat)
    requires n >= 1 && |bars| >= 2 * n + 1
    ensures Adx(bars, n).Ok? && Adx(bars + [bar], n).Ok? && Atr(bars + [bar], n).Ok?
    ensures
      var before, after := Adx(bars, n).value, Adx(bars + [bar], n).value;
      if Times(n as real, Atr(bars + [bar], n).value) < EPS then after == before
      else
        exists x ::
          && StepIndex(x, after.plusDi, after.minusDi)
          && Times(n as real, after.adx - before.adx) == if KeptSteps(bars, n) < n then x else x - before.adx
  {
    var more := bars + [bar];
    DirectionalNext(bars, bar, n);
    hide *;
    AdxIs(bars, n);
    AdxIs(more, n);
    StepsKept(bars, n);
    SmoothedTrueRangeIsAtr(more, n);
    var d := DirectionalOf(TrueRanges(bars), PlusDms(bars), MinusDms(bars), n);
    var d' := DirectionalOf(TrueRanges(more), PlusDms(more), MinusDms(more), n);
    if Times(n as real, Atr(more, n).value) >= EPS {
      var x := Dx(d'.plus, d'.minus);
      DxIsStep(d'.plus, d'.minus);
      AdxNext(d.dx, x, n);
    }
  }

  lemma {:induction false} DirectionalNext(bars: seq<Bar>, bar: Bar, n: nat)
    requires n >= 1 && |bars| >= n + 1
    ensures
      var more := bars + [bar];
      var d := DirectionalOf(TrueRanges(bars), PlusDms(bars), MinusDms(bars), n);
      var d' := DirectionalOf(TrueRanges(more), PlusDms(more), MinusDms(more), n);
      if WilderSum(TrueRanges(more), n) < EPS then d' == d else d'.dx == d.dx + [Dx(d'.plus, d'.minus)]
  {
    hide WilderSum, TrueRanges, PlusDms, MinusDms, Percent, Dx;
    var more := bars + [bar];
    assert more[..|bars|] == bars;
    RangesSnoc(more);
  }

  // ------------------------------------------------------------------- trend tags

  lemma {:induction false} OneSidedFull(bars: seq<Bar>)
    requires (Climbing(bars) || Descending(bars)) && |bars| >= 29
    ensures Adx(bars, 14).Ok? && Adx(bars, 14).value.adx == 100.0
  {
    hide Adx, Climbing, Descending;
    if Climbing(bars) {
      ClimbingIsFull(bars, 14);
    } else {
      DescendingIsFull(bars, 14);
    }
  }

  /** The tag, in terms of the averages themselves: a trend needs an index of 25
      and averages half a percent apart, whichever way. */
  lemma {:induction false} TagIs(bars: seq<Bar>)
    requires |bars| >= 50
    ensures Ema(bars, 20).Ok? && Ema(bars, 50).Ok? && Adx(bars, 14).Ok? && ClassifyTrend(bars).Ok?
    ensures
      var fast, slow, adx := Ema(bars, 20).value, Ema(bars, 50).value, Adx(bars, 14).value.adx;
      slow > 0.0 ==>
        && (ClassifyTrend(bars) == Ok(UP) <==> adx >= 25.0 && fast >= 1.005 * slow)
        && (ClassifyTrend(bars) == Ok(DOWN) <==> adx >= 25.0 && fast <= 0.995 * slow)
  {
    AdxIs(bars, 14);
    EmaIs(bars, 20);
    EmaIs(bars, 50);
    hide Adx, Ema, EmaOf, Ratio;
    var fast, slow := Ema(bars, 20).value, Ema(bars, 50).value;
    if slow > 0.0 {
      SeparationIs(fast, slow);
    }
  }

  /** On one-sided candles the averages alone decide the tag: up from half a
      percent apart, down from half a percent the other way. */
  lemma {:induction false} OneSidedTag(bars: seq<Bar>)
    requires (Climbing(bars) || Descending(bars)) && |bars| >= 50
    ensures Ema(bars, 20).Ok? && Ema(bars, 50).Ok? && ClassifyTrend(bars).Ok?
    ensures
      var fast, slow := Ema(bars, 20).value, Ema(bars, 50).value;
      slow > 0.0 ==>
        ClassifyTrend(bars) == Ok(if fast >= 1.005 * slow then UP else if fast <= 0.995 * slow then DOWN else RANGE)
  {
    hide *;
    OneSidedFull(bars);
    TagIs(bars);
    var tag := ClassifyTrend(bars).value;
    assert tag == UP || tag == DOWN || tag == RANGE;
  }

  lemma {:induction false} SeparationIs(fast: real, slow: real)
    requires slow > 0.0
    ensures Ratio(fast - slow, slow) >= TREND_EMA_SEPARATION <==> fast >= 1.005 * slow
    ensures Ratio(fast - slow, slow) <= -TREND_EMA_SEPARATION <==> fast <= 0.995 * slow
  {
    var q := Ratio(fast - slow, slow);
    assert q * slow == fast - slow;
    assert (q - TREND_EMA_SEPARATION) * slow == fast - slow - TREND_EMA_SEPARATION * slow;
    assert (q + TREND_EMA_SEPARATION) * slow == fast - slow + TREND_EMA_SEPARATION * slow;
  }

  /** Main result on the tag: climbing candles that close on a straight line are
      tagged up exactly when 15 steps are half a percent of the slow average,
      which trails the last close by 24.5 steps. */
  lemma {:induction false} StraightClimbIsUp(bars: seq<Bar>, step: real)
    requires Climbing(bars) && |bars| >= 50 && Straight(Closes(bars), step) && step >= 0.0
    ensures
      var last := bars[|bars| - 1].close;
      && Ema(bars, 20) == Ok(last - 9.5 * step) && Ema(bars, 50) == Ok(last - 24.5 * step)
      && (last > 24.5 * step ==>
            ClassifyTrend(bars) == Ok(if 15.0 * step >= 0.005 * (last - 24.5 * step) then UP else RANGE))
  {
    hide *;
    OneSidedTag(bars);
    EmaLag(bars, 20, step);
    EmaLag(bars, 50, step);
    Lags(step);
    var last := bars[|bars| - 1].close;
    Apart(last, step);
  }

  lemma {:induction false} Lags(step: real)
    ensures Times(20 as real - 1.0, step / 2.0) == 9.5 * step && Times(50 as real - 1.0, step / 2.0) == 24.5 * step
  {
  }

  lemma {:induction false} Apart(last: real, step: real)
    requires step >= 0.0
    ensures
      var fast, slow := last - 9.5 * step, last - 24.5 * step;
      && (fast >= 1.005 * slow <==> 15.0 * step >= 0.005 * slow)
      && (slow > 0.0 ==> fast > 0.995 * slow)
  {
  }

  /** The 51 hourly candles of a steady rise from 100 by one: an index of 100, an
      average 15 apart, and the tag up. */
  lemma {:induction false} SteadyRise(bars: seq<Bar>)
    requires |bars| == 51
    requires forall i :: 0 <= i < 51 ==>
      && bars[i].low == 100.0 + i as real && bars[i].high == 101.0 + i as real
      && bars[i].close == 100.5 + i as real
    ensures Adx(bars, 14) == Ok(AdxValue(100.0, Percent(1.0, 1.5), 0.0)) && ClassifyTrend(bars) == Ok(UP)
  {
    forall i | 0 <= i < 50
      ensures TrueRange(bars[i], bars[i + 1]) == 1.5 && Climbs(bars[i], bars[i + 1])
    {
    }
    assert Climbing(bars);
    SteadyClimb(bars, 14, 1.0, 1.5);
    assert Straight(Closes(bars), 1.0);
    hide Climbing, Straight, Adx, ClassifyTrend;
    StraightClimbIsUp(bars, 1.0);
    assert bars[50].close == 150.5;
  }
}
