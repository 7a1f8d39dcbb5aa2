/** The three-axis regime label of a market, the BTC override and the playbook
    multiplier that turns a label into a share of the risk budget. */
module Regimes {
  import opened Basics
  import opened Contracts
  import opened Indicators

  const VOL_COMPRESSED_MAX: real := 0.65
  const VOL_NORMAL_MAX: real := 1.30
  const VOL_EXPANDED_MAX: real := 1.80
  const TREND_EMA_SEPARATION: real := 0.005
  const TREND_ADX_THRESHOLD: real := 25.0

  function TrendOf(ema20: real, ema50: real, adx: real): Trend {
    var separation := if ema50 > 0.0 then Ratio(ema20 - ema50, ema50) else 0.0;
    if adx < TREND_ADX_THRESHOLD then RANGE
    else if separation >= TREND_EMA_SEPARATION then UP
    else if separation <= -TREND_EMA_SEPARATION then DOWN
    else RANGE
  }

  function ClassifyTrend(bars: seq<Bar>): Result<Trend> {
    var ema20 := Ema(bars, 20);
    if ema20.Err? then Err(ema20.fault)
    else
      var ema50 := Ema(bars, 50);
      if ema50.Err? then Err(ema50.fault)
      else
        var adx := Adx(bars, 14);
        if adx.Err? then Err(adx.fault) else Ok(TrendOf(ema20.value, ema50.value, adx.value.adx))
  }

  function VolOf(atr10: real, atr50: real): Vol {
    var ratio := if atr50 > 0.0 then Ratio(atr10, atr50) else 1.0;
    if ratio < VOL_COMPRESSED_MAX then COMPRESSED
    else if ratio < VOL_NORMAL_MAX then NORMAL
    else if ratio < VOL_EXPANDED_MAX then EXPANDED
    else CRISIS
  }

  function ClassifyVol(bars: seq<Bar>): Result<Vol> {
    var atr10 := Atr(bars, 10);
    if atr10.Err? then Err(atr10.fault)
    else
      var atr50 := Atr(bars, 50);
      if atr50.Err? then Err(atr50.fault) else Ok(VolOf(atr10.value, atr50.value))
  }

  function NeutralBin(tier: Tier): real {
    match tier
    case T1 => 0.0001
    case T2 => 0.0002
    case T3 => 0.0004
    case T4 => 0.0004
  }

  function ExtremeBin(tier: Tier): real {
    match tier
    case T1 => 0.0005
    case T2 => 0.0008
    case T3 => 0.0015
    case T4 => 0.0015
  }

  function ClassifyFunding(rate: real, tier: Tier): Funding {
    if Abs(rate) < NeutralBin(tier) then NEUTRAL
    else if Abs(rate) < ExtremeBin(tier) then (if rate > 0.0 then BULL_BIAS else BEAR_BIAS)
    else if rate > 0.0 then EXTREME_POS
    else EXTREME_NEG
  }

  function Classify(bars: seq<Bar>, rate: real, tier: Tier): Result<Regime> {
    var trend := ClassifyTrend(bars);
    if trend.Err? then Err(trend.fault)
    else
      var vol := ClassifyVol(bars);
      if vol.Err? then Err(vol.fault) else Ok(Regime(trend.value, vol.value, ClassifyFunding(rate, tier)))
  }

  function ApplyBtcOverride(regime: Regime, btc: Regime): Regime {
    if btc.vol == CRISIS then regime.(vol := CRISIS)
    else if btc.trend == DOWN && btc.vol == EXPANDED && regime.trend != DOWN then regime.(vol := CRISIS)
    else if btc.funding in {EXTREME_POS, EXTREME_NEG} && regime.funding in {NEUTRAL, BULL_BIAS, BEAR_BIAS} then
      regime.(funding := btc.funding)
    else regime
  }

  /** Combinations that are not listed stand down. */
  function PlaybookMultiplier(regime: Regime): (share: real)
    ensures 0.0 <= share <= 1.3
  {
    if regime.vol == CRISIS then 0.0
    else
      match regime
      case Regime(UP, NORMAL, NEUTRAL) => 1.0
      case Regime(UP, EXPANDED, NEUTRAL) => 0.5
      case Regime(UP, COMPRESSED, NEUTRAL) => 0.3
      case Regime(UP, NORMAL, BULL_BIAS) => 1.0
      case Regime(UP, NORMAL, EXTREME_POS) => 0.0
      case Regime(UP, NORMAL, EXTREME_NEG) => 1.3
      case Regime(DOWN, NORMAL, NEUTRAL) => 1.0
      case Regime(DOWN, EXPANDED, NEUTRAL) => 0.5
      case Regime(DOWN, NORMAL, BEAR_BIAS) => 1.0
      case Regime(DOWN, NORMAL, EXTREME_POS) => 1.3
      case Regime(DOWN, NORMAL, EXTREME_NEG) => 0.0
      case Regime(RANGE, NORMAL, NEUTRAL) => 0.7
      case Regime(RANGE, COMPRESSED, NEUTRAL) => 0.9
      case _ => 0.0
  }

  /** The taxonomy bucket of a coin; unknown coins are T4. */
  function ClassifyTier(asset: string): Tier {
    if asset in {"BTC", "ETH"} then T1
    else if asset in {"SOL", "BNB", "XRP"} then T2
    else if asset in {"LINK", "AVAX", "OP", "ARB", "DOGE"} then T3
    else T4
  }

  /** The regime of the same market upside down. */
  function Upended(regime: Regime): Regime {
    var trend := match regime.trend case UP => DOWN case DOWN => UP case RANGE => RANGE;
    var funding :=
      match regime.funding
      case NEUTRAL => NEUTRAL
      case BULL_BIAS => BEAR_BIAS
      case BEAR_BIAS => BULL_BIAS
      case EXTREME_POS => EXTREME_NEG
      case EXTREME_NEG => EXTREME_POS;
    Regime(trend, regime.vol, funding)
  }

  /** The playbook treats both directions alike, except that the probe into a
      compressed, uncrowded trend is for rising markets only. */
  lemma {:induction false} PlaybookMirrorsIff(regime: Regime)
    ensures PlaybookMultiplier(Upended(regime)) == PlaybookMultiplier(regime)
       <==> !(regime.trend != RANGE && regime.vol == COMPRESSED && regime.funding == NEUTRAL)
  {
  }
}
