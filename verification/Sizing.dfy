/** Turning a candidate into a sized trade: a dollar risk budget scaled by tier,
    playbook and volatility, spread over the stop distance. */
module Sizing {
  import opened Basics
  import opened Contracts
  import opened Indicators
  import opened Regimes
  import opened Stops
  import opened Leverage

  datatype Config = Config(
    baseRisk: real,
    volTarget: real,
    volScaleCap: real,
    atrPeriod: nat,
    dragCeiling: real)

  const DEFAULT_CONFIG := Config(0.005, 0.30, 2.5, 14, 0.20)

  /** The sizer: its parameters, the expected hold, and the per-tier cap the
      runner may override. */
  datatype Sizer = Sizer(config: Config, maths: Maths, holdHours: real, operational: Tier -> real)

  function TierRiskMultiplier(tier: Tier): (k: real)
    ensures 0.2 <= k <= 1.0
  {
    match tier
    case T1 => 1.0
    case T2 => 0.6
    case T3 => 0.35
    case T4 => 0.2
  }

  const HOURS_PER_YEAR: real := 24.0 * 365.0

  function RealizedVolAnnualized(maths: Maths, bars: seq<Bar>): Result<real> {
    if |bars| < 21 then Err(ValueError)
    else
      var n := if |bars| - 1 <= 720 then |bars| - 1 else 720;
      var perBar := RealizedVol(maths, bars, n);
      if perBar.Err? then perBar else Ok(Times(perBar.value, maths.sqrt(HOURS_PER_YEAR)))
  }

  function VolScale(config: Config, annualVol: real): real {
    if GtEps(annualVol, 0.0) then Min(Ratio(config.volTarget, annualVol), config.volScaleCap) else config.volScaleCap
  }

  /** Equity times base fraction, tier, playbook and volatility scale. */
  function RiskBudget(config: Config, equity: real, tier: Tier, regime: Regime, volScale: real): real {
    Times(Times(Times(Times(equity, config.baseRisk), TierRiskMultiplier(tier)), PlaybookMultiplier(regime)), volScale)
  }

  function Quantity(budget: real, stopDistance: real): real {
    if GtEps(stopDistance, 0.0) then Ratio(budget, stopDistance) else 0.0
  }

  function StopLevel(side: string, mark: real, distance: real): real {
    if side == "long" then mark - distance else mark + distance
  }

  function TakeLevel(side: string, mark: real, distance: real): real {
    if side == "long" then mark + distance else mark - distance
  }

  /** Leverage, margin and caps; a stand-down keeps its shape with zeros. */
  function Margin(sizer: Sizer, asset: string, notional: real, tier: Tier, stopPct: real, fundingRate: real)
    : Result<(real, real, LeverageCaps)>
  {
    if notional > 0.0 then
      var r := Choose(asset, notional, sizer.operational(tier), stopPct, fundingRate, sizer.holdHours,
        sizer.config.dragCeiling);
      if r.Err? then Err(r.fault)
      else if r.value.0 == 0.0 then Err(ZeroDivision)
      else Ok((r.value.0, Ratio(notional, r.value.0), r.value.1))
    else
      Ok((0.0, 0.0, LeverageCaps(VenueMaxLeverage(asset), sizer.operational(tier), VenueMaxLeverage(asset))))
  }

  /** The last two steps of the pipeline: quantity, levels and leverage. */
  function Assemble(sizer: Sizer, c: Candidate, m: Market, regime: Regime, tier: Tier, budget: real,
                    plan: StopTakePlan): Result<Sized>
    requires m.mark > 0.0
  {
    var qty := Quantity(budget, plan.stopDistance);
    var notional := Value(qty, m.mark);
    var margin := Margin(sizer, c.asset, notional, tier, Ratio(plan.stopDistance, m.mark), m.fundingRate);
    if margin.Err? then Err(margin.fault)
    else
      Ok(Sized(c, tier, regime, qty, notional, margin.value.0, margin.value.1,
               StopLevel(c.side, m.mark, plan.stopDistance), TakeLevel(c.side, m.mark, plan.takeDistance), plan,
                 margin.value.2))
  }

  function Size(sizer: Sizer, c: Candidate, m: Market, bars: seq<Bar>, equity: real, regime: Regime,
                tier: Tier): Result<Sized> {
    if m.mark <= 0.0 then Err(ValueError)
    else
      var vol := RealizedVolAnnualized(sizer.maths, bars);
      if vol.Err? then Err(vol.fault)
      else
        var atr := Atr(bars, sizer.config.atrPeriod);
        if atr.Err? then Err(atr.fault)
        else
          var plan := DeriveStopsTakes(m.mark, atr.value, regime, tier, c.side);
          if plan.Err? then Err(plan.fault)
          else
            var budget := RiskBudget(sizer.config, equity, tier, regime, VolScale(sizer.config, vol.value));
            Assemble(sizer, c, m, regime, tier, budget, plan.value)
  }
}
