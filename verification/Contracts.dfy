/** The records that travel between the engine's components. */
module Contracts {
  import opened Basics

  /** A candle; the timestamp is in microseconds since the epoch. */
  datatype Bar = Bar(timestamp: int, open: real, high: real, low: real, close: real, volume: real)

  datatype Market = Market(
    asset: string,
    timestamp: int,
    mark: real,
    fundingRate: real,
    bars: seq<Bar>,
    depth: Option<real>)

  datatype Forecast = Forecast(asset: string, pUp: real, pDown: real, expectedMoveBps: real, confidence: real)

  datatype Schedule = Schedule(
    takerBps: real,
    periodHours: real,
    slippageK: real,
    flatBps: real)

  /** The two transcendental functions of the engine, left abstract. */
  datatype Maths = Maths(sqrt: real -> real, log: real -> real)

  datatype Cost = Cost(
    asset: string,
    notional: real,
    feeBps: real,
    slippageBps: real,
    fundingBps: real,
    roundTripBps: real,
    breakevenBps: real,
    edgeAfterCostBps: real,
    isTradeable: bool)

  datatype Candidate = Candidate(
    asset: string,
    side: string,
    notional: real,
    forecast: Forecast,
    cost: Cost,
    rank: nat)

  datatype Tier = T1 | T2 | T3 | T4

  datatype Trend = UP | DOWN | RANGE
  datatype Vol = COMPRESSED | NORMAL | EXPANDED | CRISIS
  datatype Funding = NEUTRAL | BULL_BIAS | BEAR_BIAS | EXTREME_POS | EXTREME_NEG

  datatype Regime = Regime(trend: Trend, vol: Vol, funding: Funding)

  datatype Hardening = LimitStop | MarketStop | SoftStopScaled

  datatype StopTakePlan = StopTakePlan(
    stopDistance: real,
    takeDistance: real,
    rMultiple: real,
    scaledExit: bool,
    trailAfterFirstTake: bool,
    stopHardening: Hardening)

  datatype LeverageCaps = LeverageCaps(venue: real, operational: real, liqSafety: real)

  datatype Sized = Sized(
    candidate: Candidate,
    tier: Tier,
    regime: Regime,
    qty: real,
    notional: real,
    leverage: real,
    marginRequired: real,
    stopPrice: real,
    takePrice: real,
    plan: StopTakePlan,
    caps: LeverageCaps)

  datatype Fill = Fill(
    asset: string,
    timestamp: int,
    side: string,
    qty: real,
    price: real,
    feePaid: real,
    isOpen: bool,
    realizedPnl: real)

  /** Quote value of some units at a price. */
  function Value(units: real, price: real): real {
    units * price
  }
}
