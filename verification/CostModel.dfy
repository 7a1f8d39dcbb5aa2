/** The round-trip cost the engine predicts before a trade. */
module CostModel {
  import opened Basics
  import opened Contracts
  import opened Slippage

  datatype Model = Model(schedule: Schedule, maths: Maths, holdMinutes: real)

  function Direction(f: Forecast): string {
    if GtEps(f.pDown, f.pUp) then "short" else "long"
  }

  function SignedMoveBps(f: Forecast, side: string): real {
    if side == "long" then f.expectedMoveBps else -f.expectedMoveBps
  }

  function FundingBps(model: Model, m: Market, side: string): real {
    var period := model.schedule.periodHours * 60.0;
    if period <= EPS then 0.0
    else
      var raw := m.fundingRate * (model.holdMinutes / period) * BPS;
      if side == "long" then raw else -raw
  }

  function Assess(model: Model, f: Forecast, m: Market, notional: real): Result<Cost> {
    if notional <= 0.0 then Err(ValueError)
    else if f.asset != m.asset then Err(ValueError)
    else
      var slip := SideSlippageBps(model.schedule, model.maths, notional, m);
      if slip.Err? then Err(slip.fault)
      else
        var side := Direction(f);
        var fee := 2.0 * model.schedule.takerBps;
        var slippage := 2.0 * slip.value;
        var funding := FundingBps(model, m, side);
        var total := fee + slippage + funding;
        var edge := SignedMoveBps(f, side) - total;
        Ok(Cost(m.asset, notional, fee, slippage, funding, total, total, edge, GtEps(edge, 0.0)))
  }
}
