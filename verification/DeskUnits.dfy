/** The price unit does not matter to the pipeline as a whole: from the raw
    five-minute candles, through the roll-up, the regime, the BTC override, the
    sizer and the gates, the same trade is stopped or let through. */
module DeskUnits {
  import opened Basics
  import opened Contracts
  import opened Slippage
  import opened Indicators
  import opened Regimes
  import opened Stops
  import opened Sizing
  import opened Aggregate
  import opened AggregateLaws
  import opened PriceUnit
  import opened DecisionLoop
  import CostModel

  /** The same market in another price unit. */
  function Requoted(m: Market, c: real): Market {
    m.(mark := Times(c, m.mark), bars := RequoteAll(m.bars, c))
  }

  /** The stop distance stays on the same side of epsilon. */
  predicate SameStopGuard(sizer: Sizer, bars: seq<Bar>, regime: Regime, tier: Tier, c: real) {
    var atr := Atr(bars, sizer.config.atrPeriod);
    var k := AtrMultiplier(tier, regime.vol);
    atr.Ok? ==> (GtEps(Times(k, atr.value), 0.0) <==> GtEps(Times(c, Times(k, atr.value)), 0.0))
  }

  /** The epsilon guards of the pipeline fall the same way in both units. */
  ghost predicate GuardsAgree(rig: Rig, asset: string, m: Market, btc: Option<Regime>, c: real) {
    var bars := Hourly(m.bars);
    var local := Classify(bars, m.fundingRate, ClassifyTier(asset));
    && SameGuards(bars, 14, c)
    && (local.Ok? ==> SameStopGuard(rig.sizer, bars, EffectiveRegime(asset, local.value, btc), ClassifyTier(asset), c))
  }

  lemma {:induction false} SizeUnitFree(sizer: Sizer, seed: Candidate, m: Market, bars: seq<Bar>, equity: real,
                                        regime: Regime, tier: Tier, c: real)
    requires c > 0.0 && SameStopGuard(sizer, bars, regime, tier, c)
    ensures
      var r := Size(sizer, seed, m, bars, equity, regime, tier);
      var r' := Size(sizer, seed, Requoted(m, c), RequoteAll(bars, c), equity, regime, tier);
      (r.Err? ==> r' == r) && (r.Ok? ==> r'.Ok? && SameTrade(r.value, r'.value, c))
  {
    hide Size, SameTrade, Times, Atr, AtrMultiplier;
    SizeInvariant(sizer, seed, m, Requoted(m, c), bars, equity, regime, tier, c);
  }

  lemma {:induction false} CostUnitFree(model: CostModel.Model, f: Forecast, m: Market, notional: real, c: real)
    ensures CostModel.Assess(model, f, Requoted(m, c), notional) == CostModel.Assess(model, f, m, notional)
  {
    assert forall side :: CostModel.FundingBps(model, Requoted(m, c), side) == CostModel.FundingBps(model, m, side);
    hide DepthSlippageBps, CostModel.FundingBps, CostModel.SignedMoveBps, CostModel.Direction, Times;
  }

  lemma {:induction false} GateUnitFree(rig: Rig, d: Decision, side: string, m: Market, quote: (Forecast, Cost),
                                        s: Sized, s': Sized, held: bool, open: nat, exposure: real, c: real)
    requires c > 0.0 && SameTrade(s, s', c)
    ensures
      var plan := Gate(rig, d, side, m, quote, s, held, open, exposure);
      var plan' := Gate(rig, d, side, Requoted(m, c), quote, s', held, open, exposure);
      plan' == if plan.Go? then Go(s') else plan
  {
    OrderScales(c, s'.qty, 0.0);
    assert Times(c, 0.0) == 0.0;
    CostUnitFree(rig.cost, quote.0, m, s.notional, c);
    hide CostModel.Assess, Times, RequotePlan;
  }

  /** Main result: in another price unit the pipeline reaches the same verdict,
      with the same reason; and a trade it lets through is the same trade. */
  lemma {:induction false} PlanUnitFree(rig: Rig, d: Decision, m: Market, quote: Option<(Forecast, Cost)>,
                                        btc: Option<Regime>, equity: real, held: bool, open: nat, exposure: real,
                                        c: real)
    requires c > 0.0 && GuardsAgree(rig, d.asset, m, btc, c)
    ensures
      var plan := PlanOpen(rig, d, m, quote, btc, equity, held, open, exposure);
      var plan' := PlanOpen(rig, d, Requoted(m, c), quote, btc, equity, held, open, exposure);
      if plan.Go? then plan'.Go? && SameTrade(plan.sized, plan'.sized, c) else plan' == plan
  {
    hide Hourly, Classify, Size, Gate, SameTrade, SameStopGuard, SameGuards, ClassifyTier, EffectiveRegime, RequoteAll;
    HourlyRequotes(m.bars, c);
    var bars, tier := Hourly(m.bars), ClassifyTier(d.asset);
    RegimeInvariant(bars, m.fundingRate, tier, c);
    var local := Classify(bars, m.fundingRate, tier);
    if d.side.Some? && quote.Some? && |bars| >= MIN_1H_BARS && local.Ok? {
      var regime := EffectiveRegime(d.asset, local.value, btc);
      var seed := Seed(d, d.side.value, quote.value.1.notional, quote.value);
      SizeUnitFree(rig.sizer, seed, m, bars, equity, regime, tier, c);
      var s := Size(rig.sizer, seed, m, bars, equity, regime, tier);
      if s.Ok? {
        var s' := Size(rig.sizer, seed, Requoted(m, c), RequoteAll(bars, c), equity, regime, tier);
        GateUnitFree(rig, d, d.side.value, m, quote.value, s.value, s'.value, held, open, exposure, c);
        GateGoes(rig, d, d.side.value, m, quote.value, s.value, held, open, exposure);
      }
    }
  }

  lemma {:induction false} GateGoes(rig: Rig, d: Decision, side: string, m: Market, quote: (Forecast, Cost), s: Sized,
                                    held: bool, open: nat, exposure: real)
    ensures
      var plan := Gate(rig, d, side, m, quote, s, held, open, exposure);
      plan.Go? ==> plan.sized == s
  {
  }

  /** The BTC tag that overrides every other coin is the same in any unit. */
  lemma {:induction false} BtcRegimeUnitFree(snaps: map<string, Market>, snaps': map<string, Market>, c: real)
    requires c > 0.0
    requires "BTC" in snaps <==> "BTC" in snaps'
    requires "BTC" in snaps ==> snaps'["BTC"] == Requoted(snaps["BTC"], c)
    requires "BTC" in snaps ==> SameGuards(Hourly(snaps["BTC"].bars), 14, c)
    ensures BtcRegime(snaps') == BtcRegime(snaps)
  {
    if "BTC" in snaps {
      hide Hourly, Classify, SameGuards, RequoteAll;
      var m := snaps["BTC"];
      HourlyRequotes(m.bars, c);
      RegimeInvariant(Hourly(m.bars), m.fundingRate, ClassifyTier("BTC"), c);
    }
  }
}
