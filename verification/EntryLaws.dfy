/** Exactly which entries go through the pipeline, from the raw candles to the
    last limit, and that a crisis stands every coin down. */
module EntryLaws {
  import opened Basics
  import opened Contracts
  import opened Slippage
  import opened Indicators
  import opened IndicatorLaws
  import opened Regimes
  import opened Stops
  import opened Leverage
  import opened Sizing
  import opened RiskBudget
  import opened RiskGate
  import opened VolLaws
  import opened Aggregate
  import opened DecisionLoop
  import opened DeskLaws
  import CostModel
  import RoundTrip

  // ----------------------------------------------------------- what can be sized

  /** A regime can be told from 51 candles on, whatever they show. */
  lemma {:induction false} ClassifyOkIff(bars: seq<Bar>, rate: real, tier: Tier)
    ensures Classify(bars, rate, tier).Ok? <==> |bars| >= 51
  {
    hide EmaOf, WilderMean, DirectionalOf, AdxOf, TrueRanges, PlusDms, MinusDms, TrendOf, VolOf, ClassifyFunding;
  }

  /** The closes the sizer measures volatility on. */
  function VolWindow(bars: seq<Bar>): seq<real> {
    if |bars| <= 720 then Closes(bars) else Closes(bars[|bars| - 721..])
  }

  lemma {:induction false} AnnualVolOkIff(maths: Maths, bars: seq<Bar>)
    requires |bars| >= 21
    ensures RealizedVolAnnualized(maths, bars).Ok? <==> OneSign(VolWindow(bars))
  {
    var n := if |bars| - 1 <= 720 then |bars| - 1 else 720;
    RealizedVolOkIff(maths, bars, n);
    assert bars[|bars| - n - 1..] == if |bars| <= 720 then bars else bars[|bars| - 721..];
    hide RealizedVol, OneSign, Closes;
  }

  /** Main result on annual volatility: over the window of n returns, its square
      times n (n - 1) is 8760 hours of n times the squared returns less the
      square of the window's whole growth. */
  lemma {:induction false} AnnualVolSquared(maths: Maths, bars: seq<Bar>)
    requires TrueRoot(maths) && TrueLog(maths) && |bars| >= 21 && RealizedVolAnnualized(maths, bars).Ok?
    ensures
      var closes := VolWindow(bars);
      var n := |closes| - 1;
      && |closes| == (if |bars| <= 720 then |bars| else 721)
      && LogReturns(maths, closes).Ok? && closes[0] != 0.0 && Ratio(closes[n], closes[0]) > 0.0
      && var k, vol := n as real, RealizedVolAnnualized(maths, bars).value;
         var rets, growth := LogReturns(maths, closes).value, maths.log(Ratio(closes[n], closes[0]));
         Times(Times(k, k - 1.0), Times(vol, vol))
           == 8760.0 * (Times(k, Sum(Squares(rets, 0.0))) - Times(growth, growth))
  {
    AnnualVolOkIff(maths, bars);
    var n := if |bars| - 1 <= 720 then |bars| - 1 else 720;
    assert bars[|bars| - n - 1..] == if |bars| <= 720 then bars else bars[|bars| - 721..];
    hide LogReturns, Closes, Squares, Sum, OneSign, TrueLog;
    RealizedVolSquared(maths, bars, n);
    var per, year := RealizedVol(maths, bars, n).value, maths.sqrt(HOURS_PER_YEAR);
    assert Times(year, year) == 8760.0;
    assert RealizedVolAnnualized(maths, bars).value == Times(per, year);
    hide RealizedVol, RealizedVolAnnualized, TrueRoot;
    AnnualSquare(Times(n as real, n as real - 1.0), per, year, 8760.0);
  }

  lemma {:induction false} AnnualSquare(k: real, per: real, year: real, hours: real)
    requires Times(year, year) == hours
    ensures Times(k, Times(Times(per, year), Times(per, year))) == hours * Times(k, Times(per, per))
  {
    assert (per * year) * (per * year) == (per * per) * (year * year);
    assert k * ((per * per) * hours) == hours * (k * (per * per));
  }

  /** What the sizer needs of the market and of the side it is asked for. */
  predicate Sizable(sizer: Sizer, side: string, m: Market, bars: seq<Bar>) {
    && (side == "long" || side == "short") && m.mark > 0.0
    && |bars| >= 21 && OneSign(VolWindow(bars))
    && Atr(bars, sizer.config.atrPeriod).Ok? && Atr(bars, sizer.config.atrPeriod).value > 0.0
  }

  /** The quantity of a sizable trade: the risk share per stop distance. */
  function PlannedQty(sizer: Sizer, bars: seq<Bar>, equity: real, regime: Regime, tier: Tier): real {
    var vol, atr := RealizedVolAnnualized(sizer.maths, bars), Atr(bars, sizer.config.atrPeriod);
    if vol.Err? || atr.Err? then 0.0
    else
      Quantity(Sizing.RiskBudget(sizer.config, equity, tier, regime, VolScale(sizer.config, vol.value)),
               Times(AtrMultiplier(tier, regime.vol), atr.value))
  }

  lemma {:induction false} MarginOkIff(sizer: Sizer, asset: string, notional: real, tier: Tier, stopPct: real,
                                       rate: real)
    requires stopPct > 0.0
    ensures Margin(sizer, asset, notional, tier, stopPct, rate).Ok? <==> notional > 0.0 ==> sizer.holdHours >= 0.0
  {
    hide Reduce, DragRate, Caps;
  }

  /** The sizer refuses exactly what is not sizable, and a negative hold for a
      trade that has a size. */
  lemma {:induction false} SizeOkIff(sizer: Sizer, c: Candidate, m: Market, bars: seq<Bar>, equity: real,
                                     regime: Regime, tier: Tier)
    requires |bars| >= 21
    ensures
      var sized, qty := Size(sizer, c, m, bars, equity, regime, tier), PlannedQty(sizer, bars, equity, regime, tier);
      && (sized.Ok? <==>
            Sizable(sizer, c.side, m, bars) && (Times(qty, m.mark) > 0.0 ==> sizer.holdHours >= 0.0))
      && (sized.Ok? ==> sized.value.qty == qty && sized.value.notional == Times(qty, m.mark))
  {
    AnnualVolOkIff(sizer.maths, bars);
    hide RealizedVolAnnualized, Atr, VolScale, Sizing.RiskBudget, Quantity, Margin, OneSign, VolWindow, AtrMultiplier,
      RMultiple, StopHardening;
    var vol, atr := RealizedVolAnnualized(sizer.maths, bars), Atr(bars, sizer.config.atrPeriod);
    if m.mark > 0.0 && vol.Ok? && atr.Ok? {
      var plan := DeriveStopsTakes(m.mark, atr.value, regime, tier, c.side);
      if plan.Ok? {
        PlanPositive(m.mark, atr.value, regime, tier, c.side);
        RatioSign(plan.value.stopDistance, m.mark);
        var qty := PlannedQty(sizer, bars, equity, regime, tier);
        assert plan.value.stopDistance == Times(AtrMultiplier(tier, regime.vol), atr.value);
        MarginOkIff(sizer, c.asset, Value(qty, m.mark), tier, Ratio(plan.value.stopDistance, m.mark), m.fundingRate);
      }
    }
  }

  // --------------------------------------------------------- which entries go through

  /** The regime the entry is sized under. */
  function EntryRegime(d: Decision, m: Market, btc: Option<Regime>): Regime
    requires |Hourly(m.bars)| >= 51
  {
    ClassifyOkIff(Hourly(m.bars), m.fundingRate, ClassifyTier(d.asset));
    EffectiveRegime(d.asset, Classify(Hourly(m.bars), m.fundingRate, ClassifyTier(d.asset)).value, btc)
  }

  /** Main result on entries: one goes through exactly when it names a side and
      has a quote for this market, there are 51 hourly candles to size it by, the
      size is positive, and its edge after its own cost, its slot, its notional
      and the exposure are within the limits. Nothing else can stop it: in
      particular the classifier never fails. */
  lemma {:induction false} EntryGoesIff(rig: Rig, d: Decision, m: Market, quote: Option<(Forecast, Cost)>,
                                        btc: Option<Regime>, equity: real, held: bool, open: nat, exposure: real)
    ensures
      var plan := PlanOpen(rig, d, m, quote, btc, equity, held, open, exposure);
      var bars := Hourly(m.bars);
      plan.Go? <==>
        && d.side.Some? && quote.Some? && |bars| >= 51 && Sizable(rig.sizer, d.side.value, m, bars)
        && var qty := PlannedQty(rig.sizer, bars, equity, EntryRegime(d, m, btc), ClassifyTier(d.asset));
           var notional := Times(qty, m.mark);
           var cost := CostModel.Assess(rig.cost, quote.value.0, m, notional);
           && qty > 0.0 && rig.sizer.holdHours >= 0.0 && quote.value.0.asset == m.asset && cost.Ok?
           && RoundTrip.PromisedBps(quote.value.0) - cost.value.roundTripBps >= rig.limits.minEdgeBps
           && !held && open < rig.limits.maxPositions
           && notional <= rig.limits.maxNotional && exposure + notional <= rig.limits.maxExposure
  {
    var bars, tier := Hourly(m.bars), ClassifyTier(d.asset);
    ClassifyOkIff(bars, m.fundingRate, tier);
    if d.side.Some? && quote.Some? && |bars| >= 51 {
      var regime := EntryRegime(d, m, btc);
      var seed := Seed(d, d.side.value, quote.value.1.notional, quote.value);
      var qty := PlannedQty(rig.sizer, bars, equity, regime, tier);
      hide Classify, Hourly, ClassifyTier, EffectiveRegime, Size, PlannedQty, Gate, Sizable, CostModel.Assess,
        RoundTrip.PromisedBps;
      SizeOkIff(rig.sizer, seed, m, bars, equity, regime, tier);
      if Sizable(rig.sizer, d.side.value, m, bars) {
        PositiveNotional(rig.sizer, d.side.value, m, bars, qty);
      }
      var sized := Size(rig.sizer, seed, m, bars, equity, regime, tier);
      if sized.Ok? {
        GatePassed(rig, d, d.side.value, m, quote.value, sized.value, held, open, exposure);
      }
    }
  }

  lemma {:induction false} PositiveNotional(sizer: Sizer, side: string, m: Market, bars: seq<Bar>, qty: real)
    requires Sizable(sizer, side, m, bars)
    ensures Times(qty, m.mark) > 0.0 <==> qty > 0.0
  {
    hide OneSign, VolWindow, Atr;
    assert qty <= 0.0 ==> -qty * m.mark >= 0.0;
    assert qty > 0.0 ==> qty * m.mark > 0.0;
  }

  // -------------------------------------------------------------------- standing down

  lemma {:induction false} NoShareNoQuantity(sizer: Sizer, bars: seq<Bar>, equity: real, regime: Regime, tier: Tier)
    requires PlaybookMultiplier(regime) == 0.0
    ensures PlannedQty(sizer, bars, equity, regime, tier) == 0.0
  {
    hide RealizedVolAnnualized, Atr, VolScale, AtrMultiplier, PlaybookMultiplier;
    assert forall scale :: Sizing.RiskBudget(sizer.config, equity, tier, regime, scale) == 0.0;
  }

  /** An entry whose regime has no share of the budget never goes through. */
  lemma {:induction false} NoShareNoEntry(rig: Rig, d: Decision, m: Market, quote: Option<(Forecast, Cost)>,
                                          btc: Option<Regime>, equity: real, held: bool, open: nat, exposure: real)
    requires |Hourly(m.bars)| >= 51 && PlaybookMultiplier(EntryRegime(d, m, btc)) == 0.0
    ensures !PlanOpen(rig, d, m, quote, btc, equity, held, open, exposure).Go?
  {
    EntryGoesIff(rig, d, m, quote, btc, equity, held, open, exposure);
    hide PlanOpen, EntryRegime, Sizable, PlannedQty, Hourly, CostModel.Assess, PlaybookMultiplier, ClassifyTier;
    NoShareNoQuantity(rig.sizer, Hourly(m.bars), equity, EntryRegime(d, m, btc), ClassifyTier(d.asset));
  }

  lemma {:induction false} LocalTag(bars: seq<Bar>, rate: real, tier: Tier)
    requires |bars| >= 51
    ensures Classify(bars, rate, tier).Ok?
    ensures Classify(bars, rate, tier).value
         == Regime(ClassifyTrend(bars).value, ClassifyVol(bars).value, ClassifyFunding(rate, tier))
  {
    ClassifyOkIff(bars, rate, tier);
    hide ClassifyTrend, ClassifyVol, ClassifyFunding;
  }

  /** Main result on standing down: no coin is entered while its short range is
      1.8 times its long one. No other coin is entered either while that is so
      of BTC, nor, unless it is falling itself, while BTC falls in expanded
      volatility. */
  lemma {:induction false} CrisisStopsEntry(rig: Rig, d: Decision, m: Market, quote: Option<(Forecast, Cost)>,
                                            snaps: map<string, Market>, equity: real, held: bool, open: nat,
                                            exposure: real)
    requires |Hourly(m.bars)| >= 51
    requires
      || Crisis(Hourly(m.bars))
      || (d.asset != "BTC" && "BTC" in snaps && |Hourly(snaps["BTC"].bars)| >= 51 &&
          (Crisis(Hourly(snaps["BTC"].bars))
           || (ClassifyTrend(Hourly(m.bars)) != Ok(DOWN) && Slump(Hourly(snaps["BTC"].bars)))))
    ensures !PlanOpen(rig, d, m, quote, BtcRegime(snaps), equity, held, open, exposure).Go?
  {
    var bars, tier := Hourly(m.bars), ClassifyTier(d.asset);
    LocalTag(bars, m.fundingRate, tier);
    VolBands(bars);
    if "BTC" in snaps && |Hourly(snaps["BTC"].bars)| >= 51 {
      LocalTag(Hourly(snaps["BTC"].bars), snaps["BTC"].fundingRate, ClassifyTier("BTC"));
      VolBands(Hourly(snaps["BTC"].bars));
    }
    hide Classify, Hourly, ClassifyTrend, ClassifyVol, ClassifyFunding, ClassifyTier, PlanOpen, Atr;
    assert EntryRegime(d, m, BtcRegime(snaps)).vol == CRISIS;
    NoShareNoEntry(rig, d, m, quote, BtcRegime(snaps), equity, held, open, exposure);
  }

  /** The short range is 1.8 times the long one, or more. */
  predicate Crisis(bars: seq<Bar>) {
    var short, long := Atr(bars, 10), Atr(bars, 50);
    short.Ok? && long.Ok? && long.value > 0.0 && short.value >= 1.8 * long.value
  }

  /** Falling, with a short range of 1.3 times the long one, or more. */
  predicate Slump(bars: seq<Bar>) {
    var short, long := Atr(bars, 10), Atr(bars, 50);
    && short.Ok? && long.Ok? && long.value > 0.0 && short.value >= 1.3 * long.value
    && ClassifyTrend(bars) == Ok(DOWN)
  }

  /** A crowded BTC stops entries with its crowd on every coin in a normal trend
      that is not itself crowded: its funding is taken over as it is. */
  lemma {:induction false} BtcCrowdStopsEntry(rig: Rig, d: Decision, m: Market, quote: Option<(Forecast, Cost)>,
                                              btc: Regime, equity: real, held: bool, open: nat, exposure: real)
    requires |Hourly(m.bars)| >= 51 && d.asset != "BTC"
    requires ClassifyVol(Hourly(m.bars)) == Ok(NORMAL)
    requires
      var funding := ClassifyFunding(m.fundingRate, ClassifyTier(d.asset));
      funding != EXTREME_POS && funding != EXTREME_NEG
    requires
      || (btc.funding == EXTREME_POS && ClassifyTrend(Hourly(m.bars)) == Ok(UP))
      || (btc.funding == EXTREME_NEG && ClassifyTrend(Hourly(m.bars)) == Ok(DOWN))
    ensures !PlanOpen(rig, d, m, quote, Some(btc), equity, held, open, exposure).Go?
  {
    LocalTag(Hourly(m.bars), m.fundingRate, ClassifyTier(d.asset));
    hide Classify, Hourly, ClassifyTrend, ClassifyVol, ClassifyFunding, ClassifyTier, PlanOpen;
    NoShareNoEntry(rig, d, m, quote, Some(btc), equity, held, open, exposure);
  }

  /** BTC itself is never overridden. */
  lemma {:induction false} BtcIsItsOwn(rig: Rig, d: Decision, m: Market, quote: Option<(Forecast, Cost)>,
                                       btc: Option<Regime>, equity: real, held: bool, open: nat, exposure: real)
    requires d.asset == "BTC"
    ensures PlanOpen(rig, d, m, quote, btc, equity, held, open, exposure)
         == PlanOpen(rig, d, m, quote, None, equity, held, open, exposure)
  {
    hide Hourly, Classify, Size, Gate;
  }

  // --------------------------------------------------------------- tables that agree

  function Rank(tier: Tier): nat {
    match tier
    case T1 => 1
    case T2 => 2
    case T3 => 3
    case T4 => 4
  }

  /** A later tier risks less, on a stop that is no tighter; wilder volatility
      never tightens the stop; and a coin is of the first or second tier exactly
      when its venue allows 25 or 20 times and more. */
  lemma {:induction false} TiersAreOrdered(x: Tier, y: Tier, vol: Vol, asset: string)
    ensures Rank(x) < Rank(y) ==> TierRiskMultiplier(y) < TierRiskMultiplier(x)
    ensures Rank(x) <= Rank(y) ==> AtrMultiplier(x, vol) <= AtrMultiplier(y, vol)
    ensures AtrMultiplier(x, COMPRESSED) == AtrMultiplier(x, NORMAL) < AtrMultiplier(x, EXPANDED)
      == AtrMultiplier(x, CRISIS)
    ensures ClassifyTier(asset) == T1 <==> VenueMaxLeverage(asset) >= 25.0
    ensures VenueMaxLeverage(asset) >= 40.0 <==> asset == "BTC"
    ensures ClassifyTier(asset) == T2 <==> 20.0 <= VenueMaxLeverage(asset) < 25.0
  {
  }

  /** Trends aim further than ranges; furthest exactly where, in normal
      volatility, the playbook also risks most; the same upside down. The soft
      stop goes with the stops of three ranges and more, the limit stop with the
      first two tiers. */
  lemma {:induction false} RewardsAgree(regime: Regime, tier: Tier)
    ensures regime.trend != RANGE ==> RMultiple(regime) >= 2.5
    ensures regime.trend == RANGE ==> RMultiple(regime) == (if regime.vol == COMPRESSED then 2.0 else 1.5)
    ensures regime.vol == NORMAL ==> (RMultiple(regime) == 3.0 <==> PlaybookMultiplier(regime) == 1.3)
    ensures RMultiple(Upended(regime)) == RMultiple(regime)
      == RMultiple(regime.(vol := if regime.trend == RANGE then regime.vol else NORMAL))
    ensures StopHardening(tier, regime) == SoftStopScaled <==> AtrMultiplier(tier, regime.vol) >= 3.0
    ensures StopHardening(tier, regime) == LimitStop <==> Rank(tier) <= 2
  {
  }
}
