/** From risk budget to realised loss: what the sizer promises to risk is what
    a stop-out takes away, and an account without equity opens nothing. */
module RiskBudget {
  import opened Basics
  import opened Contracts
  import opened Slippage
  import opened Ledger
  import opened Attribution
  import opened LedgerLaws
  import opened RoundTrip
  import opened Indicators
  import opened Regimes
  import opened Stops
  import opened Leverage
  import opened Sizing

  lemma {:induction false} TimesMonotone(k: real, x: real, y: real)
    requires k >= 0.0 && x <= y
    ensures Times(k, x) <= Times(k, y) && Times(x, k) <= Times(y, k)
  {
  }

  lemma {:induction false} TimesSign(x: real, y: real)
    ensures x >= 0.0 && y >= 0.0 ==> Times(x, y) >= 0.0
    ensures x <= 0.0 && y >= 0.0 ==> Times(x, y) <= 0.0
  {
  }

  lemma {:induction false} RatioSign(x: real, y: real)
    requires y > 0.0
    ensures Times(Ratio(x, y), y) == x
    ensures x >= 0.0 ==> Ratio(x, y) >= 0.0
    ensures x <= 0.0 ==> Ratio(x, y) <= 0.0
    ensures x > 0.0 ==> Ratio(x, y) > 0.0
  {
    assert Ratio(x, y) * y == x;
  }

  /** Everything the rest of the engine relies on about a sized trade. */
  lemma {:induction false} SizedShape(sizer: Sizer, c: Candidate, m: Market, bars: seq<Bar>, equity: real,
                                      regime: Regime, tier: Tier)
    requires Size(sizer, c, m, bars, equity, regime, tier).Ok?
    ensures
      var s := Size(sizer, c, m, bars, equity, regime, tier).value;
      && m.mark > 0.0 && s.candidate == c && s.tier == tier && s.regime == regime
      && (c.side == "long" || c.side == "short")
      && s.notional == Value(s.qty, m.mark)
      && s.plan.stopDistance > 0.0 && s.plan.takeDistance > 0.0 && 1.5 <= s.plan.rMultiple <= 3.0
      && s.stopPrice == StopLevel(c.side, m.mark, s.plan.stopDistance)
      && Sign(c.side) * (m.mark - s.stopPrice) == s.plan.stopDistance
      && Sign(c.side) * (s.takePrice - m.mark) == s.plan.takeDistance == Times(s.plan.rMultiple, s.plan.stopDistance)
      && (s.qty > 0.0 ==> s.notional > 0.0)
      && exists vol ::
           && RealizedVolAnnualized(sizer.maths, bars) == Ok(vol)
           && s.qty == Quantity(RiskBudget(sizer.config, equity, tier, regime, VolScale(sizer.config, vol)),
                                s.plan.stopDistance)
  {
    hide Margin, RealizedVolAnnualized, Atr, VolScale, Sizing.RiskBudget;
    var s := Size(sizer, c, m, bars, equity, regime, tier).value;
    PlanPositive(m.mark, Atr(bars, sizer.config.atrPeriod).value, regime, tier, c.side);
    assert RealizedVolAnnualized(sizer.maths, bars) == Ok(RealizedVolAnnualized(sizer.maths, bars).value);
  }

  lemma {:induction false} PlanPositive(entry: real, atr: real, regime: Regime, tier: Tier, side: string)
    requires DeriveStopsTakes(entry, atr, regime, tier, side).Ok?
    ensures
      var plan := DeriveStopsTakes(entry, atr, regime, tier, side).value;
      plan.stopDistance > 0.0 && plan.takeDistance > 0.0 && (side == "long" || side == "short")
  {
    var d := Times(AtrMultiplier(tier, regime.vol), atr);
    assert d > 0.0;
    assert Times(RMultiple(regime), d) > 0.0;
  }

  /** Quantity times stop distance is the budget, whenever the stop is wider
      than the epsilon below which the sizer returns no quantity. */
  lemma {:induction false} QuantityRisksBudget(budget: real, stopDistance: real)
    ensures GtEps(stopDistance, 0.0) ==> Times(Quantity(budget, stopDistance), stopDistance) == budget
    ensures !GtEps(stopDistance, 0.0) ==> Quantity(budget, stopDistance) == 0.0
  {
    if GtEps(stopDistance, 0.0) {
      RatioSign(budget, stopDistance);
    }
  }

  /** The budget never exceeds 1.3 times the volatility cap times the base risk. */
  lemma {:induction false} BudgetBounded(config: Config, equity: real, tier: Tier, regime: Regime, vol: real)
    requires equity >= 0.0 && config.baseRisk >= 0.0 && config.volScaleCap >= 0.0
    ensures RiskBudget(config, equity, tier, regime, VolScale(config, vol))
         <= Times(Times(1.3, config.volScaleCap), Times(equity, config.baseRisk))
  {
    var base, cap := Times(equity, config.baseRisk), config.volScaleCap;
    var t, p, v := TierRiskMultiplier(tier), PlaybookMultiplier(regime), VolScale(config, vol);
    assert v <= cap;
    hide TierRiskMultiplier, PlaybookMultiplier, VolScale;
    TimesSign(equity, config.baseRisk);
    ScaledDown(base, t, 1.0);
    ScaledDown(Times(base, t), p, 1.3);
    BudgetCapped(Times(Times(base, t), p), base, v, cap);
  }

  lemma {:induction false} BudgetCapped(share: real, base: real, v: real, cap: real)
    requires 0.0 <= share <= 1.3 * base && v <= cap && cap >= 0.0
    ensures Times(share, v) <= Times(Times(1.3, cap), base)
  {
    TimesMonotone(share, v, cap);
    TimesMonotone(cap, share, 1.3 * base);
    assert 1.3 * base * cap == 1.3 * cap * base;
  }

  lemma {:induction false} ScaledDown(x: real, k: real, top: real)
    requires x >= 0.0 && 0.0 <= k <= top
    ensures 0.0 <= Times(x, k) <= top * x
  {
    TimesMonotone(x, k, top);
    TimesSign(x, k);
    assert Times(x, top) == top * x;
  }

  /** With the default configuration the budget is at most 3.25 times the base
      risk of the account. */
  lemma {:induction false} DefaultBudgetBounded(equity: real, tier: Tier, regime: Regime, vol: real)
    requires equity >= 0.0
    ensures RiskBudget(DEFAULT_CONFIG, equity, tier, regime, VolScale(DEFAULT_CONFIG, vol))
         <= 3.25 * (equity * DEFAULT_CONFIG.baseRisk)
  {
    BudgetBounded(DEFAULT_CONFIG, equity, tier, regime, vol);
  }

  /** An account without positive equity is never given a quantity. */
  lemma {:induction false} NoEquityNoQuantity(sizer: Sizer, c: Candidate, m: Market, bars: seq<Bar>, equity: real,
                                              regime: Regime, tier: Tier)
    requires sizer.config.baseRisk >= 0.0 && sizer.config.volTarget >= 0.0 && sizer.config.volScaleCap >= 0.0
    requires equity <= 0.0
    requires Size(sizer, c, m, bars, equity, regime, tier).Ok?
    ensures Size(sizer, c, m, bars, equity, regime, tier).value.qty <= 0.0
  {
    SizedShape(sizer, c, m, bars, equity, regime, tier);
    var s := Size(sizer, c, m, bars, equity, regime, tier).value;
    var vol := RealizedVolAnnualized(sizer.maths, bars).value;
    hide Size;
    BudgetSign(sizer.config, equity, tier, regime, vol);
    var budget := RiskBudget(sizer.config, equity, tier, regime, VolScale(sizer.config, vol));
    hide Sizing.RiskBudget, VolScale;
    if GtEps(s.plan.stopDistance, 0.0) {
      RatioSign(budget, s.plan.stopDistance);
    }
  }

  lemma {:induction false} BudgetSign(config: Config, equity: real, tier: Tier, regime: Regime, vol: real)
    requires config.baseRisk >= 0.0 && config.volTarget >= 0.0 && config.volScaleCap >= 0.0
    requires equity <= 0.0
    ensures RiskBudget(config, equity, tier, regime, VolScale(config, vol)) <= 0.0
  {
    var v := VolScale(config, vol);
    if GtEps(vol, 0.0) {
      RatioSign(config.volTarget, vol);
    }
    assert v >= 0.0;
    hide TierRiskMultiplier, PlaybookMultiplier, VolScale;
    var a := Times(equity, config.baseRisk);
    var b := Times(a, TierRiskMultiplier(tier));
    var d := Times(b, PlaybookMultiplier(regime));
    TimesSign(equity, config.baseRisk);
    TimesSign(a, TierRiskMultiplier(tier));
    TimesSign(b, PlaybookMultiplier(regime));
    TimesSign(d, v);
  }

  // ------------------------------------------------------- volatility targeting

  /** The scale times the volatility is the target, up to the cap. */
  lemma {:induction false} ScaleTargets(config: Config, vol: real)
    ensures GtEps(vol, 0.0) && config.volTarget <= config.volScaleCap * vol ==>
      VolScale(config, vol) * vol == config.volTarget
    ensures !GtEps(vol, 0.0) || config.volTarget > config.volScaleCap * vol ==>
      VolScale(config, vol) == config.volScaleCap
  {
    if GtEps(vol, 0.0) {
      RatioSign(config.volTarget, vol);
      var q := Ratio(config.volTarget, vol);
      assert (q - config.volScaleCap) * vol == config.volTarget - config.volScaleCap * vol;
      assert q < config.volScaleCap ==> (config.volScaleCap - q) * vol > 0.0;
      assert q > config.volScaleCap ==> (q - config.volScaleCap) * vol > 0.0;
    }
  }

  /** The base risk of the equity, scaled by tier and playbook. */
  function Share(config: Config, equity: real, tier: Tier, regime: Regime): real {
    equity * config.baseRisk * TierRiskMultiplier(tier) * PlaybookMultiplier(regime)
  }

  lemma {:induction false} BudgetIsShare(config: Config, equity: real, tier: Tier, regime: Regime, scale: real)
    ensures RiskBudget(config, equity, tier, regime, scale) == Times(Share(config, equity, tier, regime), scale)
  {
    hide TierRiskMultiplier, PlaybookMultiplier;
  }

  lemma {:induction false} Regrouped(a: real, b: real, v: real, vol: real, target: real)
    requires v * vol == target && a == Times(b, v)
    ensures Times(a, vol) == Times(b, target)
  {
    assert b * v * vol == b * (v * vol);
  }

  /** Main result on volatility targeting: what a stop-out would cost, times the
      annual volatility, is the base risk of the equity, scaled by tier and
      playbook, times the target volatility; in a market too calm for that the
      target is replaced by the cap on the scale. */
  lemma {:induction false} RiskTargetsVolatility(sizer: Sizer, c: Candidate, m: Market, bars: seq<Bar>, equity: real,
                                                 regime: Regime, tier: Tier)
    requires Size(sizer, c, m, bars, equity, regime, tier).Ok?
    requires GtEps(Size(sizer, c, m, bars, equity, regime, tier).value.plan.stopDistance, 0.0)
    ensures RealizedVolAnnualized(sizer.maths, bars).Ok?
    ensures
      var s := Size(sizer, c, m, bars, equity, regime, tier).value;
      var vol, config := RealizedVolAnnualized(sizer.maths, bars).value, sizer.config;
      var share := Share(config, equity, tier, regime);
      if vol > EPS && config.volTarget <= config.volScaleCap * vol then
        Times(Times(s.qty, s.plan.stopDistance), vol) == Times(share, config.volTarget)
      else Times(s.qty, s.plan.stopDistance) == Times(share, config.volScaleCap)
  {
    SizedShape(sizer, c, m, bars, equity, regime, tier);
    var s := Size(sizer, c, m, bars, equity, regime, tier).value;
    var vol, config := RealizedVolAnnualized(sizer.maths, bars).value, sizer.config;
    hide Size, RealizedVolAnnualized;
    var budget := RiskBudget(config, equity, tier, regime, VolScale(config, vol));
    QuantityRisksBudget(budget, s.plan.stopDistance);
    ScaleTargets(config, vol);
    BudgetIsShare(config, equity, tier, regime, VolScale(config, vol));
    var share := Share(config, equity, tier, regime);
    assert vol > EPS <==> GtEps(vol, 0.0);
    hide *;
    if vol > EPS && config.volTarget <= config.volScaleCap * vol {
      Regrouped(Times(s.qty, s.plan.stopDistance), share, VolScale(config, vol), vol, config.volTarget);
    }
  }

  lemma {:induction false} ScaleNonIncreasing(config: Config, calm: real, wild: real)
    requires config.volTarget >= 0.0 && config.volScaleCap >= 0.0 && calm <= wild
    ensures 0.0 <= VolScale(config, wild) <= VolScale(config, calm)
  {
    if GtEps(wild, 0.0) {
      RatioSign(config.volTarget, wild);
      if GtEps(calm, 0.0) {
        RatioAntitone(config.volTarget, calm, wild);
      }
    }
  }

  lemma {:induction false} RatioAntitone(x: real, a: real, b: real)
    requires x >= 0.0 && 0.0 < a <= b
    ensures Ratio(x, b) <= Ratio(x, a)
  {
    hide Ratio, Times;
    RatioSign(x, a);
    RatioSign(x, b);
    var p, q := Ratio(x, a), Ratio(x, b);
    TimesMonotone(q, a, b);
    if q > p {
      ProductLess(p, q, a);
    }
  }

  lemma {:induction false} ProductLess(x: real, y: real, k: real)
    requires k > 0.0 && x < y
    ensures Times(x, k) < Times(y, k)
  {
    assert (y - x) * k > 0.0;
  }

  /** At the same stop distance a more volatile market never gets a larger
      quantity. */
  lemma {:induction false} WilderMarketNoLarger(sizer: Sizer, c: Candidate, m: Market, m': Market, calm: seq<Bar>,
                                                wild: seq<Bar>, equity: real, regime: Regime, tier: Tier)
    requires equity >= 0.0 && sizer.config.baseRisk >= 0.0
    requires sizer.config.volTarget >= 0.0 && sizer.config.volScaleCap >= 0.0
    ensures
      var s, s' := Size(sizer, c, m, calm, equity, regime, tier), Size(sizer, c, m', wild, equity, regime, tier);
      s.Ok? && s'.Ok? ==>
        && RealizedVolAnnualized(sizer.maths, calm).Ok? && RealizedVolAnnualized(sizer.maths, wild).Ok?
        && (RealizedVolAnnualized(sizer.maths, calm).value <= RealizedVolAnnualized(sizer.maths, wild).value
            && s.value.plan.stopDistance == s'.value.plan.stopDistance
            ==> s'.value.qty <= s.value.qty)
  {
    var s, s' := Size(sizer, c, m, calm, equity, regime, tier), Size(sizer, c, m', wild, equity, regime, tier);
    if s.Ok? && s'.Ok? {
      SizedShape(sizer, c, m, calm, equity, regime, tier);
      SizedShape(sizer, c, m', wild, equity, regime, tier);
      hide *;
      var v := RealizedVolAnnualized(sizer.maths, calm).value;
      var w := RealizedVolAnnualized(sizer.maths, wild).value;
      if v <= w {
        BudgetNonIncreasing(sizer.config, equity, tier, regime, v, w);
        LargerBudget(Sizing.RiskBudget(sizer.config, equity, tier, regime, VolScale(sizer.config, v)),
          Sizing.RiskBudget(sizer.config, equity, tier, regime, VolScale(sizer.config, w)), s.value.plan.stopDistance);
      }
    }
  }

  lemma {:induction false} BudgetNonIncreasing(config: Config, equity: real, tier: Tier, regime: Regime, v: real,
                                               w: real)
    requires equity >= 0.0 && config.baseRisk >= 0.0 && config.volTarget >= 0.0 && config.volScaleCap >= 0.0
    requires v <= w
    ensures RiskBudget(config, equity, tier, regime, VolScale(config, w))
         <= RiskBudget(config, equity, tier, regime, VolScale(config, v))
  {
    ScaleNonIncreasing(config, v, w);
    hide VolScale, TierRiskMultiplier, PlaybookMultiplier;
    var base := Times(equity, config.baseRisk);
    TimesSign(equity, config.baseRisk);
    TimesSign(base, TierRiskMultiplier(tier));
    TimesSign(Times(base, TierRiskMultiplier(tier)), PlaybookMultiplier(regime));
    TimesMonotone(Times(Times(base, TierRiskMultiplier(tier)), PlaybookMultiplier(regime)), VolScale(config, w),
      VolScale(config, v));
  }

  lemma {:induction false} LargerBudget(x: real, y: real, d: real)
    requires y <= x
    ensures Quantity(y, d) <= Quantity(x, d)
  {
    if GtEps(d, 0.0) {
      RatioSign(x - y, d);
      assert Ratio(x - y, d) == Ratio(x, d) - Ratio(y, d);
    }
  }

  // ------------------------------------------------------------- stopping out

  /** How far past the stop the market traded when the stop fired. */
  function Gap(side: string, stop: real, mark: real): real {
    if side == "long" then stop - mark else mark - stop
  }

  lemma {:induction false} StopMove(side: string, qty: real, entryMark: real, distance: real, mark: real)
    ensures MarkGain(Units(side, qty), entryMark, mark)
         == -Times(qty, distance) - Times(qty, Gap(side, StopLevel(side, entryMark, distance), mark))
  {
    assert side == "long" ==> mark - entryMark == -distance - Gap(side, StopLevel(side, entryMark, distance), mark);
    assert side != "long" ==> mark - entryMark == distance + Gap(side, StopLevel(side, entryMark, distance), mark);
  }

  lemma {:induction false} TakeMove(side: string, qty: real, entryMark: real, distance: real, mark: real)
    ensures MarkGain(Units(side, qty), entryMark, mark)
         == Times(qty, distance) + Times(qty, Gap(side, mark, TakeLevel(side, entryMark, distance)))
  {
    assert side == "long" ==> mark - entryMark == distance + Gap(side, mark, TakeLevel(side, entryMark, distance));
    assert side != "long" ==> mark - entryMark == -distance - Gap(side, mark, TakeLevel(side, entryMark, distance));
  }

  /** Ticks leave the levels of a position alone. */
  lemma {:induction false} TicksKeepLevels(venue: Venue, acct: Account, a: string, ms: seq<Market>)
    requires a in acct.positions
    ensures
      var after := TickAll(venue, acct, ms);
      a in after.positions && after.positions[a].stop == acct.positions[a].stop
        && after.positions[a].take == acct.positions[a].take
    decreases |ms|
  {
    if ms != [] {
      TicksKeepLevels(venue, acct, a, ms[..|ms| - 1]);
    }
  }

  /** The levels of the sized trade are not both clear of the mark. */
  predicate Reached(s: Sized, mark: real) {
    Sign(s.candidate.side) * (mark - s.stopPrice) <= 0.0 || Sign(s.candidate.side) * (s.takePrice - mark) <= 0.0
  }

  lemma {:induction false} OpenedLevels(venue: Venue, acct: Account, s: Sized, m: Market)
    requires OpenSized(venue, acct, s, m).result.Ok?
    ensures
      var after := OpenSized(venue, acct, s, m).account.positions;
      && m.asset in after && after[m.asset].side == s.candidate.side && after[m.asset].qty == s.qty > 0.0
      && after[m.asset].stop == Some(s.stopPrice) && after[m.asset].take == Some(s.takePrice)
  {
    hide SideSlippageBps, EntryPrice, TakerFee;
  }

  /** Once the mark has reached a level of an opened position, the stop check
      closes it. */
  lemma {:induction false} ReachedCloses(venue: Venue, acct: Account, s: Sized, open: Market, ms: seq<Market>,
                                         last: Market)
    requires OpenSized(venue, acct, s, open).result.Ok?
    requires s.candidate.side == "long" || s.candidate.side == "short"
    requires last.asset == open.asset && last.mark >= 0.0 && Reached(s, last.mark)
    ensures
      var ticked := TickAll(venue, OpenSized(venue, acct, s, open).account, ms);
      CheckStops(venue, ticked, last).account == Close(venue, ticked, open.asset, last).account
  {
    var bought := OpenSized(venue, acct, s, open).account;
    var ticked := TickAll(venue, bought, ms);
    OpenedLevels(venue, acct, s, open);
    TicksKeepLevels(venue, bought, open.asset, ms);
    TicksKeepSize(venue, bought, open.asset, ms);
    hide OpenSized, TickAll;
    if CheckStops(venue, ticked, last).result.Ok? {
      StillHeldIff(venue, ticked, last);
    }
    hide Close, StopHit, TakeHit;
  }

  /** What a sized trade comes to when it is bought, ticked and then closed by
      its own levels. */
  lemma {:induction false} LevelExit(venue: Venue, acct: Account, s: Sized, open: Market, ms: seq<Market>, last: Market)
    requires WellKeyed(acct) && OpenSized(venue, acct, s, open).result.Ok?
    requires s.candidate.side == "long" || s.candidate.side == "short"
    requires last.asset == open.asset && forall i :: 0 <= i < |ms| ==> ms[i].asset == open.asset
    requires last.mark >= 0.0 && Reached(s, last.mark)
    ensures
      var after := CheckStops(venue, TickAll(venue, OpenSized(venue, acct, s, open).account, ms), last).account;
      Equity(after) == Equity(acct) + MarkGain(Units(s.candidate.side, s.qty), open.mark, last.mark)
        - LevelCosts(venue, s, open, ms, last)
  {
    ReachedCloses(venue, acct, s, open, ms, last);
    OpenedLevels(venue, acct, s, open);
    assert Value(s.qty, last.mark) >= 0.0;
    SlippageDefined(venue.schedule, venue.maths, Value(s.qty, last.mark), last);
    CostsAre(venue, s, open, ms, last);
    hide *;
    TradeIs(venue, acct, s, open, ms, last);
    TradeResult(venue, acct, s, open, ms, last);
  }

  /** The itemised costs of the round trip: both fees, both slippages, and the
      funding along the way. */
  function LevelCosts(venue: Venue, s: Sized, open: Market, ms: seq<Market>, last: Market): real {
    var slip := SlipFraction(venue, Value(s.qty, last.mark), last);
    TakerFee(venue, s.notional) + EntryImpact(venue, s.notional, open, s.qty)
    + TakerFee(venue, Value(s.qty, ExitPrice(s.candidate.side, last.mark, slip)))
      + Impact(slip, Value(s.qty, last.mark))
    + FundingOver(venue, Units(s.candidate.side, s.qty), open.timestamp, ms + [last])
  }

  lemma {:induction false} CostsAre(venue: Venue, s: Sized, open: Market, ms: seq<Market>, last: Market)
    ensures
      var slip := SlipFraction(venue, Value(s.qty, last.mark), last);
      LevelCosts(venue, s, open, ms, last)
        == TakerFee(venue, s.notional) + EntryImpact(venue, s.notional, open, s.qty)
           + TakerFee(venue, Value(s.qty, ExitPrice(s.candidate.side, last.mark, slip)))
             + Impact(slip, Value(s.qty, last.mark))
           + FundingOver(venue, Units(s.candidate.side, s.qty), open.timestamp, ms + [last])
  {
  }

  /** Main result: a position sized by the pipeline whose stop is reached loses
      exactly its risk budget, plus the gap past the stop, plus the itemised
      fees and slippage, less funding. */
  lemma {:induction false} StopOutLosesBudget(venue: Venue, sizer: Sizer, acct: Account, c: Candidate, open: Market,
                                              bars: seq<Bar>, equity: real, regime: Regime, tier: Tier,
                                              ms: seq<Market>, stop: Market)
    requires WellKeyed(acct)
    requires Size(sizer, c, open, bars, equity, regime, tier).Ok?
    requires OpenSized(venue, acct, Size(sizer, c, open, bars, equity, regime, tier).value, open).result.Ok?
    requires GtEps(Size(sizer, c, open, bars, equity, regime, tier).value.plan.stopDistance, 0.0)
    requires stop.asset == open.asset && forall i :: 0 <= i < |ms| ==> ms[i].asset == open.asset
    requires stop.mark >= 0.0
    requires Sign(c.side) * (stop.mark - Size(sizer, c, open, bars, equity, regime, tier).value.stopPrice) <= 0.0
    ensures
      var s := Size(sizer, c, open, bars, equity, regime, tier).value;
      var after := CheckStops(venue, TickAll(venue, OpenSized(venue, acct, s, open).account, ms), stop).account;
      exists vol ::
        && RealizedVolAnnualized(sizer.maths, bars) == Ok(vol)
        && Equity(after) == Equity(acct)
             - RiskBudget(sizer.config, equity, tier, regime, VolScale(sizer.config, vol))
             - Times(s.qty, Gap(c.side, s.stopPrice, stop.mark)) - LevelCosts(venue, s, open, ms, stop)
  {
    var s := Size(sizer, c, open, bars, equity, regime, tier).value;
    SizedShape(sizer, c, open, bars, equity, regime, tier);
    var vol := RealizedVolAnnualized(sizer.maths, bars).value;
    var budget := RiskBudget(sizer.config, equity, tier, regime, VolScale(sizer.config, vol));
    QuantityRisksBudget(budget, s.plan.stopDistance);
    assert Reached(s, stop.mark);
    hide *;
    LevelExit(venue, acct, s, open, ms, stop);
    StopMove(c.side, s.qty, open.mark, s.plan.stopDistance, stop.mark);
    assert RealizedVolAnnualized(sizer.maths, bars) == Ok(vol);
  }

  /** And one whose take is reached gains its R-multiple of what it risked, plus
      the gap past the take, less the same costs. */
  lemma {:induction false} TakeOutEarnsMultiple(venue: Venue, sizer: Sizer, acct: Account, c: Candidate, open: Market,
                                                bars: seq<Bar>, equity: real, regime: Regime, tier: Tier,
                                                ms: seq<Market>, take: Market)
    requires WellKeyed(acct)
    requires Size(sizer, c, open, bars, equity, regime, tier).Ok?
    requires OpenSized(venue, acct, Size(sizer, c, open, bars, equity, regime, tier).value, open).result.Ok?
    requires take.asset == open.asset && forall i :: 0 <= i < |ms| ==> ms[i].asset == open.asset
    requires take.mark >= 0.0
    ensures
      var s := Size(sizer, c, open, bars, equity, regime, tier).value;
      var after := CheckStops(venue, TickAll(venue, OpenSized(venue, acct, s, open).account, ms), take).account;
      && 1.5 <= s.plan.rMultiple <= 3.0
      && (Sign(c.side) * (s.takePrice - take.mark) <= 0.0 ==>
            Equity(after) == Equity(acct)
              + Times(s.plan.rMultiple, Times(s.qty, s.plan.stopDistance))
              + Times(s.qty, Gap(c.side, take.mark, s.takePrice)) - LevelCosts(venue, s, open, ms, take))
  {
    var s := Size(sizer, c, open, bars, equity, regime, tier).value;
    SizedShape(sizer, c, open, bars, equity, regime, tier);
    LevelIs(c.side, open.mark, s.takePrice, s.plan.takeDistance);
    assert Sign(c.side) * (s.takePrice - take.mark) <= 0.0 ==> Reached(s, take.mark) by {
      hide Size, OpenSized;
    }
    hide *;
    if Reached(s, take.mark) {
      LevelExit(venue, acct, s, open, ms, take);
      TakeMove(c.side, s.qty, open.mark, s.plan.takeDistance, take.mark);
      Multiplied(s.qty, s.plan.stopDistance, s.plan.rMultiple, s.plan.takeDistance);
    }
  }

  lemma {:induction false} LevelIs(side: string, mark: real, take: real, distance: real)
    requires Sign(side) * (take - mark) == distance
    ensures take == TakeLevel(side, mark, distance)
  {
  }

  lemma {:induction false} Multiplied(qty: real, stop: real, r: real, take: real)
    requires take == Times(r, stop)
    ensures Times(qty, take) == Times(r, Times(qty, stop))
  {
    assert qty * (r * stop) == r * (qty * stop);
  }

  lemma {:induction false} TradeIs(venue: Venue, acct: Account, s: Sized, open: Market, ms: seq<Market>, close: Market)
    ensures Trade(venue, acct, s, open, ms, close)
         == Close(venue, TickAll(venue, OpenSized(venue, acct, s, open).account, ms), close.asset, close)
  {
  }

  // -------------------------------------------------------------- funding and margin

  /** What the sizer says about the margin of a trade with a size. */
  lemma {:induction false} MarginShape(sizer: Sizer, c: Candidate, m: Market, bars: seq<Bar>, equity: real,
                                       regime: Regime, tier: Tier)
    requires Size(sizer, c, m, bars, equity, regime, tier).Ok?
    requires Size(sizer, c, m, bars, equity, regime, tier).value.qty > 0.0
    ensures
      var s := Size(sizer, c, m, bars, equity, regime, tier).value;
      && s.leverage >= 1.0 && Times(s.marginRequired, s.leverage) == s.notional > 0.0 && s.marginRequired > 0.0
      && s.leverage == Chosen(s.caps, DragRate(m.fundingRate, sizer.holdHours), sizer.config.dragCeiling)
      && s.caps == Caps(c.asset, sizer.operational(tier), Ratio(s.plan.stopDistance, m.mark))
  {
    SizedShape(sizer, c, m, bars, equity, regime, tier);
    hide RealizedVolAnnualized, Atr, VolScale, Sizing.RiskBudget, Quantity, DeriveStopsTakes, StopLevel, TakeLevel,
      Value, Caps, DragRate, Reduce;
    var s := Size(sizer, c, m, bars, equity, regime, tier).value;
    assert s.notional > 0.0;
    RatioSign(s.notional, s.leverage);
  }

  lemma {:induction false} IntervalsCover(hours: real, hold: real)
    requires hours <= hold
    ensures hours <= Intervals(hold) as real && Intervals(hold) >= 1
  {
    var x := -hold;
    assert x.Floor as real <= x;
  }

  lemma {:induction false} DragBound(margin: real, leverage: real, notional: real, rate: real, intervals: real,
                                     hours: real, ceiling: real)
    requires margin > 0.0 && Times(margin, leverage) == notional > 0.0
    requires rate >= 0.0 && 0.0 <= hours <= intervals
    requires Times(leverage, Times(rate, intervals)) <= ceiling
    ensures Times(notional, Times(rate, hours)) <= Times(ceiling, margin)
  {
    assert rate * hours <= rate * intervals;
    assert notional * (rate * hours) <= notional * (rate * intervals);
    assert notional * (rate * intervals) == margin * (leverage * (rate * intervals));
    assert margin * (leverage * (rate * intervals)) <= margin * ceiling;
  }

  /** The funding of an hourly venue over some hours at one mark and rate. */
  lemma {:induction false} HourlyFunding(venue: Venue, side: string, qty: real, m: Market, from: int, to: int)
    requires venue.schedule.periodHours == 1.0 && qty > 0.0 && m.mark > 0.0 && from <= to
    ensures
      var hours := Minutes(to - from) / 60.0;
      hours >= 0.0
        && Abs(FundingPaid(venue, Units(side, qty), m, from, to))
             == Times(Value(qty, m.mark), Times(Abs(m.fundingRate), hours))
  {
    var hours := Minutes(to - from) / 60.0;
    var n, r := Value(qty, m.mark), m.fundingRate;
    assert FundingPaid(venue, Units(side, qty), m, from, to) == Units(side, qty) * m.mark * r * hours;
    hide FundingPaid;
    assert Units(side, qty) * m.mark == (if side == "long" then n else -n);
    assert n > 0.0;
    Magnitude(n, r, hours);
    assert (if side == "long" then n else -n) * r * hours
        == (if side == "long" then n * r * hours else -(n * r * hours));
  }

  lemma {:induction false} Magnitude(n: real, r: real, hours: real)
    requires n > 0.0 && hours >= 0.0
    ensures Abs(n * r * hours) == n * (Abs(r) * hours)
  {
    if r >= 0.0 {
      assert n * r * hours == n * (r * hours) >= 0.0 by {
        assert r * hours >= 0.0;
      }
    } else {
      assert n * r * hours == -(n * (-r * hours)) by {
        assert n * r * hours == n * (r * hours);
      }
      assert -r * hours >= 0.0;
      assert n * (-r * hours) >= 0.0;
    }
  }

  lemma {:induction false} DragWithin(caps: LeverageCaps, rate: real, hold: real, ceiling: real)
    ensures
      var chosen := Chosen(caps, DragRate(rate, hold), ceiling);
      chosen == 1.0 || Times(chosen, Times(Abs(rate), Intervals(hold) as real)) <= ceiling
  {
    ChosenIsLeastReduction(caps, DragRate(rate, hold), ceiling);
    hide Chosen;
  }

  /** Main result on leverage: whatever leverage above 1 the sizer picks, the
      funding the executor then charges over the expected hold, at the rate and
      mark it was sized at, stays within the drag ceiling of the margin. */
  lemma {:induction false} DragCoversFunding(venue: Venue, sizer: Sizer, c: Candidate, m: Market, bars: seq<Bar>,
                                             equity: real, regime: Regime, tier: Tier, from: int, to: int)
    requires Size(sizer, c, m, bars, equity, regime, tier).Ok?
    requires Size(sizer, c, m, bars, equity, regime, tier).value.qty > 0.0
    requires Size(sizer, c, m, bars, equity, regime, tier).value.leverage > 1.0
    requires venue.schedule.periodHours == 1.0 && from <= to && Minutes(to - from) / 60.0 <= sizer.holdHours
    ensures
      var s := Size(sizer, c, m, bars, equity, regime, tier).value;
      Abs(FundingPaid(venue, Units(c.side, s.qty), m, from, to)) <= Times(sizer.config.dragCeiling, s.marginRequired)
  {
    SizedShape(sizer, c, m, bars, equity, regime, tier);
    MarginShape(sizer, c, m, bars, equity, regime, tier);
    var s := Size(sizer, c, m, bars, equity, regime, tier).value;
    var hours, rate := Minutes(to - from) / 60.0, m.fundingRate;
    DragWithin(s.caps, rate, sizer.holdHours, sizer.config.dragCeiling);
    hide *;
    IntervalsCover(hours, sizer.holdHours);
    HourlyFunding(venue, c.side, s.qty, m, from, to);
    AbsNonNegative(rate);
    DragBound(s.marginRequired, s.leverage, s.notional, Abs(rate), Intervals(sizer.holdHours) as real, hours,
      sizer.config.dragCeiling);
  }

  lemma {:induction false} AbsNonNegative(x: real)
    ensures Abs(x) >= 0.0
  {
  }
}
