/** Stop and take-profit distances from the ATR, the tier and the regime. */
module Stops {
  import opened Basics
  import opened Contracts

  function AtrMultiplier(tier: Tier, vol: Vol): (k: real)
    ensures 1.5 <= k <= 3.5
  {
    var wide := vol == EXPANDED || vol == CRISIS;
    match tier
    case T1 => if wide then 2.0 else 1.5
    case T2 => if wide then 2.5 else 2.0
    case T3 => if wide then 3.0 else 2.0
    case T4 => if wide then 3.5 else 2.5
  }

  function RMultiple(regime: Regime): (r: real)
    ensures 1.5 <= r <= 3.0
  {
    if regime.trend == UP || regime.trend == DOWN then
      if (regime.trend == UP && regime.funding == EXTREME_NEG)
        || (regime.trend == DOWN && regime.funding == EXTREME_POS)
      then 3.0
      else 2.5
    else if regime.vol == COMPRESSED then 2.0
    else 1.5
  }

  function StopHardening(tier: Tier, regime: Regime): Hardening {
    if tier == T1 || tier == T2 then LimitStop
    else if regime.vol == EXPANDED || regime.vol == CRISIS then SoftStopScaled
    else MarketStop
  }

  function DeriveStopsTakes(entry: real, atr: real, regime: Regime, tier: Tier, side: string): Result<StopTakePlan> {
    if side != "long" && side != "short" then Err(ValueError)
    else if atr <= 0.0 then Err(ValueError)
    else if entry <= 0.0 then Err(ValueError)
    else
      var stopDistance := Times(AtrMultiplier(tier, regime.vol), atr);
      var r := RMultiple(regime);
      Ok(StopTakePlan(stopDistance, Times(r, stopDistance), r, regime.trend != RANGE, true,
        StopHardening(tier, regime)))
  }
}
