/** The unit prices are quoted in does not matter: quoting everything c times
    higher leaves every decision, notional and leverage alone. */
module PriceUnit {
  import opened Basics
  import opened Contracts
  import opened Indicators
  import opened Regimes
  import opened Stops
  import opened Leverage
  import opened Sizing

  function Requote(bar: Bar, c: real): Bar {
    bar.(open := Times(c, bar.open), high := Times(c, bar.high), low := Times(c, bar.low), close := Times(c, bar.close))
  }

  function RequoteAll(bars: seq<Bar>, c: real): (r: seq<Bar>)
    ensures |r| == |bars|
  {
    seq(|bars|, i requires 0 <= i < |bars| => Requote(bars[i], c))
  }

  /** Two series of which the second is c times the first. */
  ghost predicate Scaled(xs: seq<real>, ys: seq<real>, c: real) {
    |xs| == |ys| && forall i :: 0 <= i < |xs| ==> ys[i] == Times(c, xs[i])
  }

  // ------------------------------------------------------------- smoothing

  lemma {:induction false} TimesAdds(c: real, x: real, y: real)
    ensures Times(c, x) + Times(c, y) == Times(c, x + y)
    ensures Times(c, x) - Times(c, y) == Times(c, x - y)
    ensures Times(c, 0.0) == 0.0
  {
  }

  lemma {:induction false} TimesSwaps(c: real, k: real, x: real)
    ensures Times(k, Times(c, x)) == Times(c, Times(k, x))
    ensures Times(Times(c, x), k) == Times(c, Times(x, k))
  {
  }

  lemma {:induction false} MeanScales(c: real, total: real, n: nat)
    requires n >= 1
    ensures Mean(Times(c, total), n) == Times(c, Mean(total, n))
  {
    var m := n as real;
    assert Mean(total, n) * m == total;
    assert (Mean(Times(c, total), n) - c * Mean(total, n)) * m == 0.0;
  }

  lemma {:induction false} SumScales(xs: seq<real>, ys: seq<real>, c: real)
    requires Scaled(xs, ys, c)
    ensures Sum(ys) == Times(c, Sum(xs))
    decreases |xs|
  {
    hide Times;
    TimesAdds(c, 0.0, 0.0);
    if xs != [] {
      var k := |xs| - 1;
      SumScales(xs[..k], ys[..k], c);
      TimesAdds(c, Sum(xs[..k]), xs[k]);
    }
  }

  lemma {:induction false} BlendScales(c: real, value: real, x: real, n: nat)
    requires n >= 1
    ensures Blend(Times(c, value), Times(c, x), n) == Times(c, Blend(value, x, n))
  {
    hide Times, Mean;
    var k := n as real - 1.0;
    TimesSwaps(c, k, value);
    TimesAdds(c, Times(value, k), x);
    MeanScales(c, Times(value, k) + x, n);
  }

  lemma {:induction false} DecayScales(c: real, value: real, x: real, n: nat)
    requires n >= 1
    ensures Decay(Times(c, value), Times(c, x), n) == Times(c, Decay(value, x, n))
  {
    hide Times, Mean;
    MeanScales(c, value, n);
    TimesAdds(c, value, Mean(value, n));
    TimesAdds(c, value - Mean(value, n), x);
  }

  lemma {:induction false} MixScales(c: real, alpha: real, x: real, value: real)
    ensures Mix(alpha, Times(c, x), Times(c, value)) == Times(c, Mix(alpha, x, value))
  {
    hide Times;
    TimesSwaps(c, alpha, x);
    TimesSwaps(c, 1.0 - alpha, value);
    TimesAdds(c, Times(alpha, x), Times(1.0 - alpha, value));
  }

  lemma {:induction false} WilderMeanScales(xs: seq<real>, ys: seq<real>, n: nat, c: real)
    requires Scaled(xs, ys, c) && 1 <= n <= |xs|
    ensures WilderMean(ys, n) == Times(c, WilderMean(xs, n))
    decreases |xs|
  {
    hide Times, Mean, Blend, Sum;
    if |xs| == n {
      SumScales(xs, ys, c);
      MeanScales(c, Sum(xs), n);
    } else {
      var k := |xs| - 1;
      WilderMeanScales(xs[..k], ys[..k], n, c);
      BlendScales(c, WilderMean(xs[..k], n), xs[k], n);
    }
  }

  lemma {:induction false} WilderSumScales(xs: seq<real>, ys: seq<real>, n: nat, c: real)
    requires Scaled(xs, ys, c) && 1 <= n <= |xs|
    ensures WilderSum(ys, n) == Times(c, WilderSum(xs, n))
    decreases |xs|
  {
    hide Times, Decay, Sum;
    if |xs| == n {
      SumScales(xs, ys, c);
    } else {
      var k := |xs| - 1;
      WilderSumScales(xs[..k], ys[..k], n, c);
      DecayScales(c, WilderSum(xs[..k], n), xs[k], n);
    }
  }

  lemma {:induction false} EmaScales(xs: seq<real>, ys: seq<real>, n: nat, c: real)
    requires Scaled(xs, ys, c) && 1 <= n <= |xs|
    ensures EmaOf(ys, n) == Times(c, EmaOf(xs, n))
    decreases |xs|
  {
    hide Times, Mean, Mix, Alpha, Sum;
    if |xs| == n {
      SumScales(xs, ys, c);
      MeanScales(c, Sum(xs), n);
    } else {
      var k := |xs| - 1;
      EmaScales(xs[..k], ys[..k], n, c);
      MixScales(c, Alpha(n), xs[k], EmaOf(xs[..k], n));
    }
  }

  // --------------------------------------------------------------- per candle

  lemma {:induction false} SignKept(c: real, d: real)
    requires c > 0.0
    ensures c * d > 0.0 <==> d > 0.0
    ensures c * d == 0.0 <==> d == 0.0
  {
  }

  lemma {:induction false} OrderScales(c: real, x: real, y: real)
    requires c > 0.0
    ensures Times(c, x) <= Times(c, y) <==> x <= y
    ensures Times(c, x) < Times(c, y) <==> x < y
    ensures Times(c, x) > 0.0 <==> x > 0.0
    ensures Abs(Times(c, x)) == Times(c, Abs(x))
    ensures Max(Times(c, x), Times(c, y)) == Times(c, Max(x, y))
  {
    SignKept(c, y - x);
    SignKept(c, x - y);
    SignKept(c, x);
    assert c * (y - x) == c * y - c * x;
  }

  lemma {:induction false} TrueRangeScales(prev: Bar, bar: Bar, c: real)
    requires c > 0.0
    ensures TrueRange(Requote(prev, c), Requote(bar, c)) == Times(c, TrueRange(prev, bar))
  {
    hide Times, Abs, Max;
    var h, l, p := bar.high, bar.low, prev.close;
    TimesAdds(c, h, l);
    TimesAdds(c, h, p);
    TimesAdds(c, l, p);
    OrderScales(c, h - p, 0.0);
    OrderScales(c, l - p, 0.0);
    OrderScales(c, Abs(h - p), Abs(l - p));
    OrderScales(c, h - l, Max(Abs(h - p), Abs(l - p)));
  }

  lemma {:induction false} MovementScales(prev: Bar, bar: Bar, c: real)
    requires c > 0.0
    ensures PlusDm(Requote(prev, c), Requote(bar, c)) == Times(c, PlusDm(prev, bar))
    ensures MinusDm(Requote(prev, c), Requote(bar, c)) == Times(c, MinusDm(prev, bar))
  {
    hide Times;
    var up, down := bar.high - prev.high, prev.low - bar.low;
    TimesAdds(c, bar.high, prev.high);
    TimesAdds(c, prev.low, bar.low);
    OrderScales(c, up, down);
    OrderScales(c, down, up);
  }

  lemma {:induction false} SeriesScale(bars: seq<Bar>, c: real)
    requires c > 0.0 && |bars| >= 1
    ensures Scaled(Closes(bars), Closes(RequoteAll(bars, c)), c)
    ensures Scaled(TrueRanges(bars), TrueRanges(RequoteAll(bars, c)), c)
    ensures Scaled(PlusDms(bars), PlusDms(RequoteAll(bars, c)), c)
    ensures Scaled(MinusDms(bars), MinusDms(RequoteAll(bars, c)), c)
  {
    hide Times, TrueRange, PlusDm, MinusDm;
    forall i | 0 <= i < |bars| - 1
      ensures TrueRanges(RequoteAll(bars, c))[i] == Times(c, TrueRanges(bars)[i])
      ensures PlusDms(RequoteAll(bars, c))[i] == Times(c, PlusDms(bars)[i])
      ensures MinusDms(RequoteAll(bars, c))[i] == Times(c, MinusDms(bars)[i])
    {
      TrueRangeScales(bars[i], bars[i + 1], c);
      MovementScales(bars[i], bars[i + 1], c);
    }
  }

  lemma {:induction false} AtrScales(bars: seq<Bar>, n: nat, c: real)
    requires c > 0.0
    ensures Atr(bars, n).Err? ==> Atr(RequoteAll(bars, c), n) == Atr(bars, n)
    ensures Atr(bars, n).Ok? ==> Atr(RequoteAll(bars, c), n) == Ok(Times(c, Atr(bars, n).value))
  {
    hide Times;
    if |bars| >= n + 1 && n >= 1 {
      SeriesScale(bars, c);
      WilderMeanScales(TrueRanges(bars), TrueRanges(RequoteAll(bars, c)), n, c);
    }
  }

  lemma {:induction false} EmaResultScales(bars: seq<Bar>, n: nat, c: real)
    requires c > 0.0
    ensures Ema(bars, n).Err? ==> Ema(RequoteAll(bars, c), n) == Ema(bars, n)
    ensures Ema(bars, n).Ok? ==> Ema(RequoteAll(bars, c), n) == Ok(Times(c, Ema(bars, n).value))
  {
    hide Times;
    if |bars| >= n && n >= 1 {
      SeriesScale(bars, c);
      EmaScales(Closes(bars), Closes(RequoteAll(bars, c)), n, c);
    }
  }

  // -------------------------------------------------------- directional index

  /** The low-range guard of adx falls the same way in both units. */
  ghost predicate SameGuards(bars: seq<Bar>, n: nat, c: real)
    requires n >= 1
  {
    |bars| >= 1 ==>
      forall k :: n <= k <= |bars| - 1 ==>
        (WilderSum(TrueRanges(bars)[..k], n) < EPS <==> Times(c, WilderSum(TrueRanges(bars)[..k], n)) < EPS)
  }

  lemma {:induction false} PercentScales(part: real, whole: real, c: real)
    requires c > 0.0 && whole != 0.0
    ensures Times(c, whole) != 0.0 && Percent(Times(c, part), Times(c, whole)) == Percent(part, whole)
  {
    var q := Percent(part, whole);
    assert q * whole == 100.0 * part;
    assert c * whole != 0.0;
    assert Percent(c * part, c * whole) * (c * whole) == 100.0 * (c * part);
    assert (Percent(c * part, c * whole) - q) * (c * whole) == 0.0;
  }

  lemma {:induction false} AdvanceScales(d: Directional, tr: real, plus: real, minus: real, c: real)
    requires c > 0.0
    requires tr < EPS <==> Times(c, tr) < EPS
    ensures Advance(d, Times(c, tr), Times(c, plus), Times(c, minus)) == Advance(d, tr, plus, minus)
  {
    hide Times, Percent, Dx;
    if tr >= EPS {
      PercentScales(plus, tr, c);
      PercentScales(minus, tr, c);
    }
  }

  lemma {:induction false} DirectionalScales(trs: seq<real>, plus: seq<real>, minus: seq<real>, trs': seq<real>,
                                             plus': seq<real>, minus': seq<real>, n: nat, c: real)
    requires c > 0.0 && 1 <= n && n - 1 <= |trs| == |plus| == |minus|
    requires Scaled(trs, trs', c) && Scaled(plus, plus', c) && Scaled(minus, minus', c)
    requires forall k :: n <= k <= |trs| ==> (WilderSum(trs[..k], n) < EPS <==> Times(c, WilderSum(trs[..k], n)) < EPS)
    ensures DirectionalOf(trs', plus', minus', n) == DirectionalOf(trs, plus, minus, n)
    decreases |trs|
  {
    hide Times, Advance, WilderSum;
    if |trs| >= n {
      var k := |trs| - 1;
      forall i | n <= i <= k
        ensures WilderSum(trs[..k][..i], n) < EPS <==> Times(c, WilderSum(trs[..k][..i], n)) < EPS
      {
        assert trs[..k][..i] == trs[..i];
      }
      DirectionalScales(trs[..k], plus[..k], minus[..k], trs'[..k], plus'[..k], minus'[..k], n, c);
      assert trs[..|trs|] == trs;
      WilderSumScales(trs, trs', n, c);
      WilderSumScales(plus, plus', n, c);
      WilderSumScales(minus, minus', n, c);
      AdvanceScales(DirectionalOf(trs[..k], plus[..k], minus[..k], n), WilderSum(trs, n), WilderSum(plus, n),
        WilderSum(minus, n), c);
    }
  }

  lemma {:induction false} AdxInvariant(bars: seq<Bar>, n: nat, c: real)
    requires c > 0.0 && n >= 1 && SameGuards(bars, n, c)
    ensures Adx(RequoteAll(bars, c), n) == Adx(bars, n)
  {
    hide Times, WilderSum, DirectionalOf, AdxOf;
    if |bars| >= 2 * n + 1 {
      SeriesScale(bars, c);
      var r := RequoteAll(bars, c);
      DirectionalScales(TrueRanges(bars), PlusDms(bars), MinusDms(bars), TrueRanges(r), PlusDms(r), MinusDms(r), n, c);
    }
  }

  // ------------------------------------------------------------------- regime

  lemma {:induction false} RatioScales(x: real, y: real, c: real)
    requires c > 0.0 && y != 0.0
    ensures Times(c, y) != 0.0 && Ratio(Times(c, x), Times(c, y)) == Ratio(x, y)
  {
    PercentScales(x, y, c);
    assert Percent(x, y) == 100.0 * Ratio(x, y);
    assert Percent(Times(c, x), Times(c, y)) == 100.0 * Ratio(Times(c, x), Times(c, y));
  }

  lemma {:induction false} TrendInvariant(bars: seq<Bar>, c: real)
    requires c > 0.0 && SameGuards(bars, 14, c)
    ensures ClassifyTrend(RequoteAll(bars, c)) == ClassifyTrend(bars)
  {
    hide Times, Ema, Adx, Ratio, SameGuards;
    EmaResultScales(bars, 20, c);
    EmaResultScales(bars, 50, c);
    AdxInvariant(bars, 14, c);
    if Ema(bars, 20).Ok? && Ema(bars, 50).Ok? {
      var e20, e50 := Ema(bars, 20).value, Ema(bars, 50).value;
      OrderScales(c, e50, 0.0);
      TimesAdds(c, e20, e50);
      if e50 > 0.0 {
        RatioScales(e20 - e50, e50, c);
      }
    }
  }

  lemma {:induction false} VolInvariant(bars: seq<Bar>, c: real)
    requires c > 0.0
    ensures ClassifyVol(RequoteAll(bars, c)) == ClassifyVol(bars)
  {
    hide Times, Atr, Ratio;
    AtrScales(bars, 10, c);
    AtrScales(bars, 50, c);
    if Atr(bars, 10).Ok? && Atr(bars, 50).Ok? {
      OrderScales(c, Atr(bars, 50).value, 0.0);
      if Atr(bars, 50).value > 0.0 {
        RatioScales(Atr(bars, 10).value, Atr(bars, 50).value, c);
      }
    }
  }

  lemma {:induction false} RegimeInvariant(bars: seq<Bar>, rate: real, tier: Tier, c: real)
    requires c > 0.0 && SameGuards(bars, 14, c)
    ensures Classify(RequoteAll(bars, c), rate, tier) == Classify(bars, rate, tier)
  {
    hide ClassifyTrend, ClassifyVol, SameGuards;
    TrendInvariant(bars, c);
    VolInvariant(bars, c);
  }

  // --------------------------------------------------------------- volatility

  lemma {:induction false} LogReturnInvariant(maths: Maths, prev: real, close: real, c: real)
    requires c > 0.0
    ensures LogReturn(maths, Times(c, prev), Times(c, close)) == LogReturn(maths, prev, close)
  {
    if prev != 0.0 {
      RatioScales(close, prev, c);
      assert Ratio(close, prev) == close / prev;
      assert Ratio(Times(c, close), Times(c, prev)) == Times(c, close) / Times(c, prev);
    }
  }

  lemma {:induction false} LogReturnsInvariant(maths: Maths, xs: seq<real>, ys: seq<real>, c: real)
    requires c > 0.0 && |xs| >= 1 && Scaled(xs, ys, c)
    ensures LogReturns(maths, ys) == LogReturns(maths, xs)
    decreases |xs|
  {
    hide Times, LogReturn;
    if |xs| > 1 {
      var k := |xs| - 1;
      LogReturnsInvariant(maths, xs[..k], ys[..k], c);
      LogReturnInvariant(maths, xs[k - 1], xs[k], c);
    }
  }

  lemma {:induction false} RealizedVolInvariant(maths: Maths, bars: seq<Bar>, n: nat, c: real)
    requires c > 0.0
    ensures RealizedVol(maths, RequoteAll(bars, c), n) == RealizedVol(maths, bars, n)
  {
    hide Times, LogReturns, Sum, Squares, Mean;
    if |bars| >= n + 1 {
      var tail := bars[|bars| - n - 1..];
      assert RequoteAll(bars, c)[|bars| - n - 1..] == RequoteAll(tail, c);
      SeriesScale(tail, c);
      LogReturnsInvariant(maths, Closes(tail), Closes(RequoteAll(tail, c)), c);
    }
  }

  // ------------------------------------------------------------------- sizing

  function RequotePlan(plan: StopTakePlan, c: real): StopTakePlan {
    plan.(stopDistance := Times(c, plan.stopDistance), takeDistance := Times(c, plan.takeDistance))
  }

  lemma {:induction false} PlanScales(entry: real, atr: real, regime: Regime, tier: Tier, side: string, c: real)
    requires c > 0.0
    ensures
      var p := DeriveStopsTakes(entry, atr, regime, tier, side);
      var p' := DeriveStopsTakes(Times(c, entry), Times(c, atr), regime, tier, side);
      p' == if p.Err? then p else Ok(RequotePlan(p.value, c))
  {
    hide Times, AtrMultiplier, RMultiple, StopHardening;
    OrderScales(c, atr, 0.0);
    OrderScales(c, entry, 0.0);
    TimesSwaps(c, AtrMultiplier(tier, regime.vol), atr);
    TimesSwaps(c, RMultiple(regime), Times(AtrMultiplier(tier, regime.vol), atr));
  }

  lemma {:induction false} QuantityScales(budget: real, distance: real, mark: real, c: real)
    requires c > 0.0
    requires GtEps(distance, 0.0) <==> GtEps(Times(c, distance), 0.0)
    ensures Times(c, Quantity(budget, Times(c, distance))) == Quantity(budget, distance)
    ensures Value(Quantity(budget, Times(c, distance)), Times(c, mark)) == Value(Quantity(budget, distance), mark)
  {
    var q, q' := Quantity(budget, distance), Quantity(budget, Times(c, distance));
    if GtEps(distance, 0.0) {
      assert q * distance == budget;
      assert q' * (c * distance) == budget;
      assert (c * q' - q) * distance == 0.0;
      assert c * q' == q;
    }
    assert q' * (c * mark) == (c * q') * mark;
  }

  lemma {:induction false} LevelsScale(side: string, mark: real, distance: real, c: real)
    ensures StopLevel(side, Times(c, mark), Times(c, distance)) == Times(c, StopLevel(side, mark, distance))
    ensures TakeLevel(side, Times(c, mark), Times(c, distance)) == Times(c, TakeLevel(side, mark, distance))
  {
    TimesAdds(c, mark, distance);
  }

  /** A sized trade in another price unit: the same trade with 1/c of the units
      at c times the price. */
  ghost predicate SameTrade(s: Sized, s': Sized, c: real) {
    && s'.regime == s.regime && s'.tier == s.tier && s'.candidate == s.candidate
    && s'.notional == s.notional && s'.leverage == s.leverage
    && s'.caps == s.caps && s'.marginRequired == s.marginRequired
    && Times(c, s'.qty) == s.qty
    && s'.stopPrice == Times(c, s.stopPrice) && s'.takePrice == Times(c, s.takePrice)
    && s'.plan == RequotePlan(s.plan, c)
  }

  lemma {:induction false} AssembleInvariant(sizer: Sizer, cand: Candidate, m: Market, m': Market, regime: Regime,
                                             tier: Tier, budget: real, plan: StopTakePlan, c: real)
    requires c > 0.0 && m.mark > 0.0 && m'.mark == Times(c, m.mark) && m'.fundingRate == m.fundingRate
    requires GtEps(plan.stopDistance, 0.0) <==> GtEps(Times(c, plan.stopDistance), 0.0)
    ensures m'.mark > 0.0
    ensures
      var r := Assemble(sizer, cand, m, regime, tier, budget, plan);
      var r' := Assemble(sizer, cand, m', regime, tier, budget, RequotePlan(plan, c));
      (r.Err? ==> r' == r) && (r.Ok? ==> r'.Ok? && SameTrade(r.value, r'.value, c))
  {
    OrderScales(c, m.mark, 0.0);
    hide Times, Value, Ratio, Quantity, Margin, StopLevel, TakeLevel, GtEps;
    QuantityScales(budget, plan.stopDistance, m.mark, c);
    RatioScales(plan.stopDistance, m.mark, c);
    LevelsScale(cand.side, m.mark, plan.stopDistance, c);
    LevelsScale(cand.side, m.mark, plan.takeDistance, c);
  }

  /** Main result: requoting the candles and the mark c times higher leaves the
      regime, notional, leverage, caps and margin of the sized trade alone,
      divides its quantity by c and multiplies its stop and take by c, as long
      as the stop distance stays on the same side of epsilon. */
  lemma {:induction false} SizeInvariant(sizer: Sizer, cand: Candidate, m: Market, m': Market, bars: seq<Bar>,
                                         equity: real, regime: Regime, tier: Tier, c: real)
    requires c > 0.0 && m'.mark == Times(c, m.mark) && m'.fundingRate == m.fundingRate
    requires
      var atr := Atr(bars, sizer.config.atrPeriod);
      var k := AtrMultiplier(tier, regime.vol);
      atr.Ok? ==> (GtEps(Times(k, atr.value), 0.0) <==> GtEps(Times(c, Times(k, atr.value)), 0.0))
    ensures
      var r := Size(sizer, cand, m, bars, equity, regime, tier);
      var r' := Size(sizer, cand, m', RequoteAll(bars, c), equity, regime, tier);
      (r.Err? ==> r' == r) && (r.Ok? ==> r'.Ok? && SameTrade(r.value, r'.value, c))
  {
    hide Times, Atr, AtrMultiplier, Assemble, RiskBudget, VolScale, GtEps, SameTrade, RealizedVol, RequotePlan;
    OrderScales(c, m.mark, 0.0);
    if m.mark > 0.0 {
      VolIsInvariant(sizer.maths, bars, c);
      AtrScales(bars, sizer.config.atrPeriod, c);
      var vol, atr := RealizedVolAnnualized(sizer.maths, bars), Atr(bars, sizer.config.atrPeriod);
      if vol.Ok? && atr.Ok? {
        PlanScales(m.mark, atr.value, regime, tier, cand.side, c);
        var plan := DeriveStopsTakes(m.mark, atr.value, regime, tier, cand.side);
        if plan.Ok? {
          var budget := RiskBudget(sizer.config, equity, tier, regime, VolScale(sizer.config, vol.value));
          AssembleInvariant(sizer, cand, m, m', regime, tier, budget, plan.value, c);
        }
      }
    }
  }

  lemma {:induction false} VolIsInvariant(maths: Maths, bars: seq<Bar>, c: real)
    requires c > 0.0
    ensures RealizedVolAnnualized(maths, RequoteAll(bars, c)) == RealizedVolAnnualized(maths, bars)
  {
    hide Times, RealizedVol;
    var n := if |bars| - 1 <= 720 then |bars| - 1 else 720;
    if n >= 0 {
      RealizedVolInvariant(maths, bars, n, c);
    }
  }
}
