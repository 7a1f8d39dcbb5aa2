/** Predicted against realised cost: what opening, marking and closing one
    position really does to the account, compared with the cost model. */
module RoundTrip {
  import opened Basics
  import opened Contracts
  import opened Slippage
  import opened Ledger
  import opened Attribution
  import opened CostModel

  function TickAll(venue: Venue, acct: Account, ms: seq<Market>): Account
    decreases |ms|
  {
    if ms == [] then acct else Tick(venue, TickAll(venue, acct, ms[..|ms| - 1]), ms[|ms| - 1])
  }

  function RevalueAll(venue: Venue, j: Journal, ms: seq<Market>): Journal
    decreases |ms|
  {
    if ms == [] then j else Revalue(venue, RevalueAll(venue, j, ms[..|ms| - 1]), ms[|ms| - 1])
  }

  /** A snapshot that differs from another only in time and candles. */
  predicate SameMarket(m: Market, n: Market) {
    m.asset == n.asset && m.mark == n.mark && m.fundingRate == n.fundingRate && m.depth == n.depth
  }

  predicate WellKeyed(acct: Account) {
    forall a :: a in acct.positions ==> acct.positions[a].asset == a
  }

  /** The journal of an account whose past is unknown. */
  ghost function Opening(acct: Account): (j: Journal)
    requires WellKeyed(acct)
    ensures Explains(acct, j)
  {
    Journal(
      map a | a in acct.positions :: Holding(SignedUnits(acct.positions[a]), acct.positions[a].lastMark,
        acct.positions[a].lastFundingTs),
      Equity(acct) - acct.starting, 0.0, 0.0, 0.0, acct.balance - acct.starting)
  }

  lemma {:induction false} TicksExplained(venue: Venue, acct: Account, j: Journal, ms: seq<Market>)
    requires Explains(acct, j)
    ensures Explains(TickAll(venue, acct, ms), RevalueAll(venue, j, ms))
    ensures TickAll(venue, acct, ms).starting == acct.starting
    decreases |ms|
  {
    hide Explains, Revalue;
    if ms != [] {
      TicksExplained(venue, acct, j, ms[..|ms| - 1]);
      TickExplained(venue, TickAll(venue, acct, ms[..|ms| - 1]), RevalueAll(venue, j, ms[..|ms| - 1]), ms[|ms| - 1]);
    }
  }

  /** The mark and the funding clock after some snapshots of one asset. */
  function LastMark(mark: real, ms: seq<Market>): real {
    if ms == [] then mark else ms[|ms| - 1].mark
  }

  function ClockOver(venue: Venue, clock: int, ms: seq<Market>): int
    decreases |ms|
  {
    if ms == [] then clock else Clock(venue, ClockOver(venue, clock, ms[..|ms| - 1]), ms[|ms| - 1])
  }

  /** Funding paid by a holding over some snapshots, each stretch of time at the
      rate and mark of the snapshot that ends it. */
  function FundingOver(venue: Venue, units: real, clock: int, ms: seq<Market>): real
    decreases |ms|
  {
    if ms == [] then 0.0
    else
      var before := ms[..|ms| - 1];
      var from := ClockOver(venue, clock, before);
      FundingOver(venue, units, clock, before) + FundingPaid(venue, units, ms[|ms| - 1], from,
        Clock(venue, from, ms[|ms| - 1]))
  }

  lemma {:induction false} MarkGainAdds(units: real, a: real, b: real, c: real)
    ensures MarkGain(units, a, b) + MarkGain(units, b, c) == MarkGain(units, a, c)
    ensures MarkGain(units, a, a) == 0.0
  {
  }

  /** Over any ticks on one asset the mark P&L telescopes to the whole move. */
  lemma {:induction false} TicksTelescope(venue: Venue, j: Journal, a: string, ms: seq<Market>)
    requires a in j.held
    requires forall i :: 0 <= i < |ms| ==> ms[i].asset == a
    ensures
      var k := RevalueAll(venue, j, ms);
      var h := j.held[a];
      && a in k.held
      && k.held[a] == Holding(h.units, LastMark(h.mark, ms), ClockOver(venue, h.clock, ms))
      && k.costs == j.costs
      && k.markPnl == j.markPnl + MarkGain(h.units, h.mark, LastMark(h.mark, ms))
      && k.funding == j.funding - FundingOver(venue, h.units, h.clock, ms)
    decreases |ms|
  {
    var h := j.held[a];
    hide FundingPaid, MarkGain, Clock;
    if ms == [] {
      MarkGainAdds(h.units, h.mark, h.mark, h.mark);
    } else {
      var before := ms[..|ms| - 1];
      TicksTelescope(venue, j, a, before);
      MarkGainAdds(h.units, h.mark, LastMark(h.mark, before), LastMark(h.mark, ms));
      assert ms[|ms| - 1].asset == a;
    }
  }

  /** Ticks change neither the direction nor the size of a position. */
  lemma {:induction false} TicksKeepSize(venue: Venue, acct: Account, a: string, ms: seq<Market>)
    requires a in acct.positions
    ensures
      var after := TickAll(venue, acct, ms);
      a in after.positions && after.positions[a].side == acct.positions[a].side
        && after.positions[a].qty == acct.positions[a].qty
    decreases |ms|
  {
    if ms != [] {
      TicksKeepSize(venue, acct, a, ms[..|ms| - 1]);
    }
  }

  lemma {:induction false} OpenedBy(venue: Venue, acct: Account, j: Journal, s: Sized, open: Market)
    requires Explains(acct, j) && OpenSized(venue, acct, s, open).result.Ok?
    ensures
      var o := OpenSized(venue, acct, s, open);
      Explains(o.account, Enter(venue, j, Units(s.candidate.side, s.qty), s.notional, open, o.result.value))
  {
    hide Explains;
    StepExplained(venue, acct, j, OpenSizedEv(s, open));
  }

  /** Closing a position revalues it and costs the exit legs. */
  lemma {:induction false} ClosedBy(venue: Venue, acct: Account, j: Journal, m: Market)
    requires Explains(acct, j)
    requires m.asset in acct.positions
    requires SideSlippageBps(venue.schedule, venue.maths, Value(acct.positions[m.asset].qty, m.mark), m).Ok?
    ensures
      var p := acct.positions[m.asset];
      var o := Close(venue, acct, m.asset, m);
      var slip := SlipFraction(venue, Value(p.qty, m.mark), m);
      && o.result.Ok?
      && Equity(o.account) == Equity(acct) + MarkGain(SignedUnits(p), p.lastMark, m.mark)
           - TakerFee(venue, Value(p.qty, ExitPrice(p.side, m.mark, slip))) - Impact(slip, Value(p.qty, m.mark))
           - FundingPaid(venue, SignedUnits(p), m, p.lastFundingTs, Clock(venue, p.lastFundingTs, m))
  {
    var p := acct.positions[m.asset];
    Accrued(venue, p, m);
    CloseExplained(venue, acct, j, m.asset, m);
    hide FundingPaid, SlipFraction, TakerFee, ExitPrice, Units, Accrue, MarkGain, Clock, Value, SideSlippageBps, Impact;
    assert Close(venue, acct, m.asset, m).result.Ok?;
  }

  /** The account after open_sized, any number of ticks, and close. */
  function Trade(venue: Venue, acct: Account, s: Sized, open: Market, ms: seq<Market>, close: Market): Outcome<Fill> {
    Close(venue, TickAll(venue, OpenSized(venue, acct, s, open).account, ms), close.asset, close)
  }

  /** The account just before the close. */
  lemma {:induction false} BeforeClose(venue: Venue, acct: Account, s: Sized, open: Market, ms: seq<Market>)
    requires WellKeyed(acct)
    requires OpenSized(venue, acct, s, open).result.Ok?
    requires forall i :: 0 <= i < |ms| ==> ms[i].asset == open.asset
    ensures
      var after := TickAll(venue, OpenSized(venue, acct, s, open).account, ms);
      && open.asset in after.positions
      && var p := after.positions[open.asset];
      && p.side == s.candidate.side && p.qty == s.qty
      && p.lastMark == LastMark(open.mark, ms) && p.lastFundingTs == ClockOver(venue, open.timestamp, ms)
      && (exists j :: Explains(after, j))
      && Equity(after) == Equity(acct) - TakerFee(venue, s.notional) - EntryImpact(venue, s.notional, open, s.qty)
           + MarkGain(SignedUnits(p), open.mark, p.lastMark) - FundingOver(venue, SignedUnits(p), open.timestamp, ms)
  {
    hide FundingOver, TakerFee, EntryImpact, MarkGain, SideSlippageBps, EntryPrice, Revalue, Tick, ClockOver, LastMark;
    var j := Opening(acct);
    var o := OpenSized(venue, acct, s, open);
    var j0 := Enter(venue, j, Units(s.candidate.side, s.qty), s.notional, open, o.result.value);
    OpenedBy(venue, acct, j, s, open);
    TicksExplained(venue, o.account, j0, ms);
    TicksTelescope(venue, j0, open.asset, ms);
    TicksKeepSize(venue, o.account, open.asset, ms);
    assert Explains(TickAll(venue, o.account, ms), RevalueAll(venue, j0, ms));
  }

  /** What a whole trade does to equity, whatever the market did in between:
      the mark move on the units held, less entry and exit fee and impact, less
      the funding paid along the way. */
  lemma {:induction false} TradeResult(venue: Venue, acct: Account, s: Sized, open: Market, ms: seq<Market>,
                                       close: Market)
    requires WellKeyed(acct)
    requires OpenSized(venue, acct, s, open).result.Ok?
    requires close.asset == open.asset && forall i :: 0 <= i < |ms| ==> ms[i].asset == open.asset
    requires SideSlippageBps(venue.schedule, venue.maths, Value(s.qty, close.mark), close).Ok?
    ensures
      var o := Trade(venue, acct, s, open, ms, close);
      var units := Units(s.candidate.side, s.qty);
      var slip := SlipFraction(venue, Value(s.qty, close.mark), close);
      && o.result.Ok?
      && Equity(o.account) == Equity(acct) + MarkGain(units, open.mark, close.mark)
           - TakerFee(venue, s.notional) - EntryImpact(venue, s.notional, open, s.qty)
           - TakerFee(venue, Value(s.qty, ExitPrice(s.candidate.side, close.mark, slip)))
             - Impact(slip, Value(s.qty, close.mark))
           - FundingOver(venue, units, open.timestamp, ms + [close])
  {
    BeforeClose(venue, acct, s, open, ms);
    var after := TickAll(venue, OpenSized(venue, acct, s, open).account, ms);
    var p := after.positions[open.asset];
    var j :| Explains(after, j);
    assert (ms + [close])[..|ms + [close]| - 1] == ms;
    hide Explains, OpenSized, TickAll, FundingPaid, TakerFee, ExitPrice, Value, Units, Impact, EntryImpact,
      SideSlippageBps, Close, MarkGain, Clock;
    ClosedBy(venue, after, j, close);
    MarkGainAdds(SignedUnits(p), open.mark, p.lastMark, close.mark);
  }

  // ------------------------------------------- a market that stands still

  lemma {:induction false} FundingAdds(venue: Venue, units: real, m: Market, n: Market, a: int, b: int, c: int)
    requires SameMarket(m, n)
    ensures FundingPaid(venue, units, m, a, b) + FundingPaid(venue, units, n, b, c)
      == FundingPaid(venue, units, m, a, c)
  {
    var period := venue.schedule.periodHours * 60.0;
    if period > EPS {
      assert Minutes(b - a) / period + Minutes(c - b) / period == Minutes(c - a) / period;
    }
  }

  /** The last moment funding has been settled up to, after some snapshots. */
  function Settled(clock: int, ms: seq<Market>): int
    decreases |ms|
  {
    if ms == [] then clock else Later(Settled(clock, ms[..|ms| - 1]), ms[|ms| - 1].timestamp)
  }

  /** At a constant mark and rate the funding is that of the whole time span. */
  lemma {:induction false} FundingStandsStill(venue: Venue, units: real, m: Market, ms: seq<Market>)
    requires forall i :: 0 <= i < |ms| ==> SameMarket(m, ms[i])
    ensures FundingOver(venue, units, m.timestamp, ms)
      == FundingPaid(venue, units, m, m.timestamp, ClockOver(venue, m.timestamp, ms))
    ensures venue.schedule.periodHours * 60.0 > EPS ==> ClockOver(venue, m.timestamp, ms) == Settled(m.timestamp, ms)
    decreases |ms|
  {
    if ms == [] {
      assert FundingPaid(venue, units, m, m.timestamp, m.timestamp) == 0.0;
    } else {
      var before, n := ms[..|ms| - 1], ms[|ms| - 1];
      FundingStandsStill(venue, units, m, before);
      var from := ClockOver(venue, m.timestamp, before);
      assert SameMarket(m, n);
      hide FundingPaid;
      FundingAdds(venue, units, m, n, m.timestamp, from, Clock(venue, from, n));
    }
  }

  /** What a trade at a constant mark costs, leg by leg. */
  lemma {:induction false} TradeCost(venue: Venue, acct: Account, s: Sized, open: Market, ms: seq<Market>,
                                     close: Market)
    requires WellKeyed(acct)
    requires OpenSized(venue, acct, s, open).result.Ok?
    requires s.notional == Value(s.qty, open.mark)
    requires SameMarket(open, close) && forall i :: 0 <= i < |ms| ==> SameMarket(open, ms[i])
    ensures
      var o := Trade(venue, acct, s, open, ms, close);
      var slip := SlipFraction(venue, s.notional, open);
      && o.result.Ok?
      && Equity(o.account) == Equity(acct)
           - TakerFee(venue, s.notional) - Impact(slip, s.notional)
           - TakerFee(venue, Value(s.qty, ExitPrice(s.candidate.side, open.mark, slip))) - Impact(slip, s.notional)
           - FundingPaid(venue, Units(s.candidate.side, s.qty), open, open.timestamp,
             Settled(open.timestamp, ms + [close]))
  {
    var units := Units(s.candidate.side, s.qty);
    SlippageFromOpen(venue, acct, s, open);
    hide OpenSized, FundingPaid, FundingOver, TakerFee, ExitPrice, Value, Units, Impact, SideSlippageBps, Trade,
      MarkGain, Clock, ClockOver, Settled;
    SameSlippage(venue, s.notional, open, close);
    TradeResult(venue, acct, s, open, ms, close);
    MarkGainAdds(units, open.mark, open.mark, open.mark);
    FundingStandsStill(venue, units, open, ms + [close]);
    FundingEnds(venue, units, open, open.timestamp, ClockOver(venue, open.timestamp, ms + [close]),
      Settled(open.timestamp, ms + [close]));
  }

  lemma {:induction false} SameSlippage(venue: Venue, notional: real, m: Market, n: Market)
    requires SameMarket(m, n)
    ensures SideSlippageBps(venue.schedule, venue.maths, notional, m)
      == SideSlippageBps(venue.schedule, venue.maths, notional, n)
  {
  }

  lemma {:induction false} SlippageFromOpen(venue: Venue, acct: Account, s: Sized, open: Market)
    requires OpenSized(venue, acct, s, open).result.Ok?
    ensures SideSlippageBps(venue.schedule, venue.maths, s.notional, open).Ok?
  {
  }

  /** Without a funding period the clock does not matter. */
  lemma {:induction false} FundingEnds(venue: Venue, units: real, m: Market, from: int, to: int, to': int)
    requires venue.schedule.periodHours * 60.0 > EPS ==> to == to'
    ensures FundingPaid(venue, units, m, from, to) == FundingPaid(venue, units, m, from, to')
  {
  }

  /** The minutes funding was settled for, open to close. */
  function HeldMinutes(open: Market, ms: seq<Market>, close: Market): real {
    Minutes(Settled(open.timestamp, ms + [close]) - open.timestamp)
  }

  /** A cost in basis points, in quote currency. */
  function Usd(notional: real, bps: real): real {
    notional * bps / BPS
  }

  /** The exit fee that slippage saves a long and costs a short. */
  function FeeOnSlippage(venue: Venue, side: string, notional: real, slip: real): real {
    Sign(side) * Impact(slip, notional) * venue.schedule.takerBps / BPS
  }

  lemma {:induction false} Quoted(model: Model, f: Forecast, m: Market, notional: real)
    requires Assess(model, f, m, notional).Ok?
    ensures
      var slip := SideSlippageBps(model.schedule, model.maths, notional, m);
      && slip.Ok?
      && (Direction(f) == "long" || Direction(f) == "short")
      && Assess(model, f, m, notional).value.roundTripBps
           == 2.0 * model.schedule.takerBps + 2.0 * slip.value + FundingBps(model, m, Direction(f))
  {
  }

  /** The arithmetic behind the comparison, in basis points of the notional. */
  lemma {:induction false} LegsAgree(venue: Venue, model: Model, long: bool, qty: real, m: Market, notional: real,
                                     slipBps: real, slip: real, from: int, to: int)
    requires model.schedule == venue.schedule
    requires notional == Value(qty, m.mark)
    requires model.holdMinutes == Minutes(to - from)
    requires slip == slipBps / BPS
    ensures
      var side := if long then "long" else "short";
      var total := 2.0 * venue.schedule.takerBps + 2.0 * slipBps + FundingBps(model, m, side);
      TakerFee(venue, notional) + Impact(slip, notional) + TakerFee(venue, Value(qty, ExitPrice(side, m.mark, slip)))
        + Impact(slip, notional)
        + FundingPaid(venue, Units(side, qty), m, from, to)
      == Usd(notional, total) - FeeOnSlippage(venue, side, notional, slip)
  {
    FeeLegs(venue, long, qty, m.mark, notional, slipBps);
    FundingLeg(venue, model, long, qty, m, notional, from, to);
    var side := if long then "long" else "short";
    var funding := FundingBps(model, m, side);
    hide FundingBps, FundingPaid, Units, TakerFee, ExitPrice, Impact;
    assert notional * (2.0 * venue.schedule.takerBps + 2.0 * slipBps + funding) / BPS
        == notional * (2.0 * venue.schedule.takerBps + 2.0 * slipBps) / BPS + notional * funding / BPS;
  }

  lemma {:induction false} FeeLegs(venue: Venue, long: bool, qty: real, mark: real, notional: real, slipBps: real)
    requires notional == qty * mark
    ensures
      var side := if long then "long" else "short";
      var slip := slipBps / BPS;
      var rebate := Impact(slip, notional) * venue.schedule.takerBps / BPS;
      TakerFee(venue, notional) + TakerFee(venue, Value(qty, ExitPrice(side, mark, slip))) + Impact(slip, notional)
        + Impact(slip, notional)
      == notional * (2.0 * venue.schedule.takerBps + 2.0 * slipBps) / BPS - (if long then rebate else -rebate)
  {
    var slip := slipBps / BPS;
    var t := venue.schedule.takerBps;
    if long {
      assert qty * (mark * (1.0 - slip)) == notional * (1.0 - slip);
    } else {
      assert qty * (mark * (1.0 + slip)) == notional * (1.0 + slip);
    }
  }

  lemma {:induction false} FundingLeg(venue: Venue, model: Model, long: bool, qty: real, m: Market, notional: real,
                                      from: int, to: int)
    requires model.schedule == venue.schedule
    requires notional == Value(qty, m.mark)
    requires model.holdMinutes == Minutes(to - from)
    ensures
      var side := if long then "long" else "short";
      FundingPaid(venue, Units(side, qty), m, from, to) == notional * FundingBps(model, m, side) / BPS
  {
    var side := if long then "long" else "short";
    var period := venue.schedule.periodHours * 60.0;
    if period > EPS {
      var share := model.holdMinutes / period;
      assert FundingPaid(venue, Units(side, qty), m, from, to) == Units(side, qty) * m.mark * m.fundingRate * share;
      assert FundingBps(model, m, side) == (if long then m.fundingRate * share * BPS
        else -(m.fundingRate * share * BPS));
      hide FundingPaid, FundingBps;
      assert Units(side, qty) * m.mark == (if long then notional else -notional);
      assert Units(side, qty) * m.mark * m.fundingRate * share
        == (if long then notional else -notional) * m.fundingRate * share;
    }
  }

  /** What a trade at a constant market costs, as the cost model would put it
      for the side that was actually traded. */
  lemma {:induction false} RealisedOnOwnSide(venue: Venue, model: Model, acct: Account, s: Sized, open: Market,
                                             ms: seq<Market>, close: Market)
    requires WellKeyed(acct)
    requires model.schedule == venue.schedule && model.maths == venue.maths
    requires OpenSized(venue, acct, s, open).result.Ok?
    requires s.notional == Value(s.qty, open.mark)
    requires SameMarket(open, close) && forall i :: 0 <= i < |ms| ==> SameMarket(open, ms[i])
    requires SideSlippageBps(venue.schedule, venue.maths, s.notional, open).Ok?
    requires model.holdMinutes == HeldMinutes(open, ms, close)
    ensures
      var o := Trade(venue, acct, s, open, ms, close);
      var slipBps := SideSlippageBps(venue.schedule, venue.maths, s.notional, open).value;
      var side := if s.candidate.side == "long" then "long" else "short";
      && o.result.Ok?
      && Equity(o.account) == Equity(acct)
           - Usd(s.notional, 2.0 * model.schedule.takerBps + 2.0 * slipBps + FundingBps(model, open, side))
           + FeeOnSlippage(venue, s.candidate.side, s.notional, SlipFraction(venue, s.notional, open))
  {
    hide *;
    TradeCost(venue, acct, s, open, ms, close);
    var side := if s.candidate.side == "long" then "long" else "short";
    var slipBps := SideSlippageBps(venue.schedule, venue.maths, s.notional, open).value;
    var slip := SlipFraction(venue, s.notional, open);
    SlipFractionIs(venue, s.notional, open);
    HeldIs(open, ms, close);
    LegsAgree(venue, model, s.candidate.side == "long", s.qty, open, s.notional, slipBps, slip, open.timestamp,
              Settled(open.timestamp, ms + [close]));
    SideMatters(venue, s.candidate.side, side, s.qty, open.mark, s.notional, slip);
  }

  lemma {:induction false} FundingMirrors(model: Model, m: Market)
    ensures FundingBps(model, m, "short") == -FundingBps(model, m, "long")
  {
  }

  lemma {:induction false} UsdTellsApart(notional: real, x: real, y: real)
    requires notional > 0.0
    ensures Usd(notional, x) == Usd(notional, y) <==> x == y
  {
    if Usd(notional, x) == Usd(notional, y) {
      assert notional * (x - y) == 0.0;
    }
  }

  lemma {:induction false} PricedPositive(model: Model, f: Forecast, m: Market, notional: real)
    requires Assess(model, f, m, notional).Ok?
    ensures notional > 0.0
  {
  }

  /** Main result: at a constant mark, depth and funding rate, the round trip
      moves equity by exactly the predicted cost, except that the exit fee is
      charged on the slipped proceeds (a long pays slippage times fee less, a
      short as much more). It does so exactly when the forecast and the trade
      are on the same side or the funding leg is zero. */
  lemma {:induction false} PredictedEqualsRealised(venue: Venue, model: Model, f: Forecast, acct: Account, s: Sized,
                                                   open: Market, ms: seq<Market>, close: Market)
    requires WellKeyed(acct)
    requires model.schedule == venue.schedule && model.maths == venue.maths
    requires OpenSized(venue, acct, s, open).result.Ok?
    requires s.notional == Value(s.qty, open.mark)
    requires SameMarket(open, close) && forall i :: 0 <= i < |ms| ==> SameMarket(open, ms[i])
    requires Assess(model, f, open, s.notional).Ok?
    requires model.holdMinutes == HeldMinutes(open, ms, close)
    ensures
      var o := Trade(venue, acct, s, open, ms, close);
      var cost := Assess(model, f, open, s.notional).value;
      && o.result.Ok?
      && (Equity(o.account) == Equity(acct) - Usd(s.notional, cost.roundTripBps)
            + FeeOnSlippage(venue, s.candidate.side, s.notional, SlipFraction(venue, s.notional, open))
          <==> (Direction(f) == "long") == (s.candidate.side == "long") || FundingBps(model, open, "long") == 0.0)
  {
    hide *;
    Quoted(model, f, open, s.notional);
    PricedPositive(model, f, open, s.notional);
    RealisedOnOwnSide(venue, model, acct, s, open, ms, close);
    FundingMirrors(model, open);
    var slipBps := SideSlippageBps(venue.schedule, venue.maths, s.notional, open).value;
    var side := if s.candidate.side == "long" then "long" else "short";
    var fixed := 2.0 * model.schedule.takerBps + 2.0 * slipBps;
    UsdTellsApart(s.notional, fixed + FundingBps(model, open, side), fixed + FundingBps(model, open, Direction(f)));
  }

  /** One trade where they differ: a short held a minute at a positive rate,
      priced for a rising forecast. */
  lemma {:induction false} OtherSideCosts(maths: Maths, s: Sized)
    requires s.candidate.asset == "BTC" && s.candidate.side == "short" && s.qty == 1.0 && s.notional == 100.0
    ensures
      var venue := Venue(Schedule(4.5, 1.0, 0.0, 30.0), maths);
      var model := Model(venue.schedule, maths, 1.0);
      var f := Forecast("BTC", 0.6, 0.4, 10.0, 0.5);
      var open := Market("BTC", 0, 100.0, 0.0001, [], None);
      var close := open.(timestamp := 60000000);
      var cost := Assess(model, f, open, 100.0);
      && cost.Ok?
      && Equity(Trade(venue, Empty(1000.0), s, open, [], close).account)
           != 1000.0 - Usd(100.0, cost.value.roundTripBps)
              + FeeOnSlippage(venue, "short", 100.0, SlipFraction(venue, 100.0, open))
  {
    var venue := Venue(Schedule(4.5, 1.0, 0.0, 30.0), maths);
    var model := Model(venue.schedule, maths, 1.0);
    var f := Forecast("BTC", 0.6, 0.4, 10.0, 0.5);
    var open := Market("BTC", 0, 100.0, 0.0001, [], None);
    var close := open.(timestamp := 60000000);
    var acct := Empty(1000.0);
    assert Direction(f) == "long";
    assert Assess(model, f, open, 100.0).Ok?;
    assert FundingBps(model, open, "long") != 0.0;
    assert OpenSized(venue, acct, s, open).result.Ok?;
    assert Equity(acct) == 1000.0;
    OneMinute(open, close);
    hide OpenSized, Assess, Equity, Trade, FeeOnSlippage, Usd, SlipFraction, HeldMinutes, FundingBps;
    PredictedEqualsRealised(venue, model, f, acct, s, open, [], close);
  }

  lemma {:induction false} OneMinute(open: Market, close: Market)
    requires close.timestamp == open.timestamp + 60000000
    ensures HeldMinutes(open, [], close) == 1.0
  {
    var ms := [] + [close];
    assert ms[..|ms| - 1] == [];
    assert Settled(open.timestamp, ms) == close.timestamp;
  }

  lemma {:induction false} SlipFractionIs(venue: Venue, notional: real, m: Market)
    requires SideSlippageBps(venue.schedule, venue.maths, notional, m).Ok?
    ensures SlipFraction(venue, notional, m) == SideSlippageBps(venue.schedule, venue.maths, notional, m).value / BPS
  {
  }

  lemma {:induction false} HeldIs(open: Market, ms: seq<Market>, close: Market)
    ensures HeldMinutes(open, ms, close) == Minutes(Settled(open.timestamp, ms + [close]) - open.timestamp)
  {
  }

  lemma {:induction false} SideMatters(venue: Venue, side: string, side': string, qty: real, mark: real,
                                       notional: real, slip: real)
    requires (side == "long") == (side' == "long")
    ensures Units(side, qty) == Units(side', qty)
    ensures ExitPrice(side, mark, slip) == ExitPrice(side', mark, slip)
    ensures FeeOnSlippage(venue, side, notional, slip) == FeeOnSlippage(venue, side', notional, slip)
  {
  }

  // ------------------------------------------------------------ the edge of a trade

  /** The gross move the forecast promises on the side it favours. */
  function PromisedBps(f: Forecast): real {
    if f.pDown > f.pUp + EPS then -f.expectedMoveBps else f.expectedMoveBps
  }

  /** What a quote says: the edge is the promised move less the round trip, the
      round trip is the sum of its legs, and tradeable means above epsilon. */
  lemma {:induction false} QuoteAdds(model: Model, f: Forecast, m: Market, notional: real)
    requires Assess(model, f, m, notional).Ok?
    ensures
      var cost := Assess(model, f, m, notional).value;
      && cost.edgeAfterCostBps + cost.roundTripBps == PromisedBps(f)
      && cost.roundTripBps == cost.breakevenBps == cost.feeBps + cost.slippageBps + cost.fundingBps
      && (cost.isTradeable <==> PromisedBps(f) > cost.roundTripBps + EPS)
      && cost.asset == m.asset && cost.notional == notional
  {
    hide SideSlippageBps, FundingBps;
  }

  /** The two directions favoured differently enough to be told apart. */
  predicate Decided(f: Forecast) {
    f.pUp > f.pDown + EPS || f.pDown > f.pUp + EPS
  }

  /** Falling as this one rises. */
  function Mirrored(f: Forecast): Forecast {
    f.(pUp := f.pDown, pDown := f.pUp, expectedMoveBps := -f.expectedMoveBps)
  }

  lemma {:induction false} FundingMirror(model: Model, m: Market)
    ensures FundingBps(model, m.(fundingRate := -m.fundingRate), "short") == FundingBps(model, m, "long")
    ensures FundingBps(model, m.(fundingRate := -m.fundingRate), "long") == FundingBps(model, m, "short")
  {
    var period := model.schedule.periodHours * 60.0;
    if period > EPS {
      var share := model.holdMinutes / period;
      assert -m.fundingRate * share == -(m.fundingRate * share);
    }
  }

  /** Main result on the quote: a falling market is quoted as the rising one with
      the opposite funding, exactly when the forecast tells the sides apart or
      promises nothing at no funding; and at the same edge exactly when it tells
      them apart or promises just the funding of a long. */
  lemma {:induction false} QuoteMirrorsIff(model: Model, f: Forecast, m: Market, notional: real)
    ensures
      var there := Assess(model, Mirrored(f), m.(fundingRate := -m.fundingRate), notional);
      var here, funding := Assess(model, f, m, notional), FundingBps(model, m, "long");
      if here.Err? then there == here
      else
        && there.Ok?
        && (there == here <==> Decided(f) || f.expectedMoveBps == funding == 0.0)
        && var same := there.value.edgeAfterCostBps == here.value.edgeAfterCostBps;
           same <==> Decided(f) || f.expectedMoveBps == funding
  {
    FundingMirror(model, m);
    FundingMirrors(model, m);
    hide DepthSlippageBps, FundingBps;
  }

  lemma {:induction false} PromisedFor(f: Forecast, side: string)
    requires (Direction(f) == "long") == (side == "long")
    ensures PromisedBps(f) == Times(Sign(side), f.expectedMoveBps)
  {
  }

  lemma {:induction false} GrownValue(qty: real, mark: real, grown: real, moveBps: real)
    requires grown == mark + Usd(mark, moveBps)
    ensures Value(qty, grown) == Value(qty, mark) + Usd(Value(qty, mark), moveBps)
  {
    assert qty * (mark * moveBps / BPS) == qty * mark * moveBps / BPS;
  }

  lemma {:induction false} MoveGain(side: string, qty: real, mark: real, grown: real, moveBps: real)
    requires grown == mark + Usd(mark, moveBps)
    ensures MarkGain(Units(side, qty), mark, grown) == Usd(Value(qty, mark), Times(Sign(side), moveBps))
  {
    GrownValue(qty, mark, grown, moveBps);
    assert MarkGain(Units(side, qty), mark, grown) == Sign(side) * (qty * grown - qty * mark);
    assert Usd(Value(qty, mark), Times(Sign(side), moveBps)) == Sign(side) * Usd(Value(qty, mark), moveBps);
  }

  lemma {:induction false} ExitFee(venue: Venue, side: string, qty: real, mark: real, slip: real)
    ensures TakerFee(venue, Value(qty, ExitPrice(side, mark, slip)))
         == Usd(Value(qty, mark), venue.schedule.takerBps) - FeeOnSlippage(venue, side, Value(qty, mark), slip)
  {
    var grown, t := Value(qty, mark), venue.schedule.takerBps;
    if side == "long" {
      assert qty * (mark * (1.0 - slip)) == grown - slip * grown;
      assert (grown - slip * grown) * t == grown * t - slip * grown * t;
    } else {
      assert qty * (mark * (1.0 + slip)) == grown + slip * grown;
      assert (grown + slip * grown) * t == grown * t + slip * grown * t;
    }
  }

  lemma {:induction false} BpsLegs(venue: Venue, notional: real, slipBps: real)
    ensures TakerFee(venue, notional) == Usd(notional, venue.schedule.takerBps)
    ensures Impact(slipBps / BPS, notional) == Usd(notional, slipBps)
  {
  }

  lemma {:induction false} FundingOfMark(model: Model, m: Market, n: Market, side: string)
    requires m.fundingRate == n.fundingRate
    ensures FundingBps(model, m, side) == FundingBps(model, n, side)
  {
  }

  /** One side's cost of holding and leaving a position, in basis points. */
  function ExitBps(model: Model, slipBps: real, fundingBps: real): real {
    model.schedule.takerBps + slipBps + fundingBps
  }

  /** The funding of a trade held between two snapshots. */
  lemma {:induction false} FundingBetween(venue: Venue, units: real, open: Market, close: Market)
    requires close.timestamp >= open.timestamp
    ensures FundingOver(venue, units, open.timestamp, [] + [close])
         == FundingPaid(venue, units, close, open.timestamp, close.timestamp)
  {
    var ms := [] + [close];
    assert ms[..|ms| - 1] == [];
    assert FundingOver(venue, units, open.timestamp, []) == 0.0;
    assert ClockOver(venue, open.timestamp, []) == open.timestamp;
  }

  /** Main result on the edge: a trade on the forecast's side, whose mark moves by
      exactly what the forecast said while rate and slippage stay as they were,
      earns its quoted edge, less the cost of leaving on the value the move
      added, plus (long) or minus (short) the exit fee on the slipped part. */
  lemma {:induction false} EdgeRealised(venue: Venue, model: Model, f: Forecast, acct: Account, s: Sized,
                                        open: Market, close: Market, slipBps: real)
    requires WellKeyed(acct)
    requires model.schedule == venue.schedule && model.maths == venue.maths
    requires OpenSized(venue, acct, s, open).result.Ok?
    requires s.notional == Value(s.qty, open.mark)
    requires Assess(model, f, open, s.notional).Ok?
    requires (Direction(f) == "long") == (s.candidate.side == "long")
    requires close.asset == open.asset && close.fundingRate == open.fundingRate && close.timestamp >= open.timestamp
    requires close.mark == open.mark + Usd(open.mark, f.expectedMoveBps)
    requires SideSlippageBps(venue.schedule, venue.maths, s.notional, open) == Ok(slipBps)
    requires SideSlippageBps(venue.schedule, venue.maths, Value(s.qty, close.mark), close) == Ok(slipBps)
    requires model.holdMinutes == Minutes(close.timestamp - open.timestamp)
    ensures
      var o := Trade(venue, acct, s, open, [], close);
      var cost := Assess(model, f, open, s.notional).value;
      && o.result.Ok?
      && Equity(o.account) == Equity(acct) + Usd(s.notional, cost.edgeAfterCostBps)
           - Usd(Usd(s.notional, f.expectedMoveBps), ExitBps(model, slipBps, cost.fundingBps))
           + FeeOnSlippage(venue, s.candidate.side, Value(s.qty, close.mark), slipBps / BPS)
  {
    var side := if s.candidate.side == "long" then "long" else "short";
    var move, n := f.expectedMoveBps, s.notional;
    var cost := Assess(model, f, open, n).value;
    QuotedLegs(model, f, open, n);
    QuoteAdds(model, f, open, n);
    hide *;
    PromisedFor(f, side);
    MovedLegs(venue, model, acct, s, open, close, slipBps, move);
    SignSame(s.candidate.side, side);
    LegsAdd(model, n, Usd(n, move), slipBps, cost.fundingBps, PromisedBps(f));
  }

  lemma {:induction false} SignSame(side: string, side': string)
    requires (side == "long") == (side' == "long")
    ensures Sign(side) == Sign(side')
  {
  }

  lemma {:induction false} QuotedLegs(model: Model, f: Forecast, m: Market, notional: real)
    requires Assess(model, f, m, notional).Ok?
    ensures
      var cost := Assess(model, f, m, notional).value;
      && SideSlippageBps(model.schedule, model.maths, notional, m).Ok?
      && cost.feeBps == 2.0 * model.schedule.takerBps
      && cost.slippageBps == 2.0 * SideSlippageBps(model.schedule, model.maths, notional, m).value
      && cost.fundingBps == FundingBps(model, m, if Direction(f) == "long" then "long" else "short")
  {
    hide SideSlippageBps, FundingBps;
  }

  /** A trade between two snapshots of one rate and slippage, in basis points of
      the notional it starts with and of the one it ends with. */
  lemma {:induction false} MovedLegs(venue: Venue, model: Model, acct: Account, s: Sized, open: Market, close: Market,
                                     slipBps: real, move: real)
    requires WellKeyed(acct) && OpenSized(venue, acct, s, open).result.Ok?
    requires model.schedule == venue.schedule && s.notional == Value(s.qty, open.mark)
    requires close.asset == open.asset && close.fundingRate == open.fundingRate && close.timestamp >= open.timestamp
    requires close.mark == open.mark + Usd(open.mark, move)
    requires SideSlippageBps(venue.schedule, venue.maths, s.notional, open) == Ok(slipBps)
    requires SideSlippageBps(venue.schedule, venue.maths, Value(s.qty, close.mark), close) == Ok(slipBps)
    requires model.holdMinutes == Minutes(close.timestamp - open.timestamp)
    ensures
      var o := Trade(venue, acct, s, open, [], close);
      var t, n := model.schedule.takerBps, s.notional;
      var grown := n + Usd(n, move);
      var side := if s.candidate.side == "long" then "long" else "short";
      && o.result.Ok?
      && Equity(o.account) == Equity(acct) + Usd(n, Times(Sign(side), move))
           - Usd(n, t) - Usd(n, slipBps) - Usd(grown, t) - Usd(grown, slipBps)
           - Usd(grown, FundingBps(model, open, side))
           + FeeOnSlippage(venue, s.candidate.side, Value(s.qty, close.mark), slipBps / BPS)
  {
    var side := if s.candidate.side == "long" then "long" else "short";
    var grown, n, slip := Value(s.qty, close.mark), s.notional, slipBps / BPS;
    hide *;
    SlipFractionIs(venue, n, open);
    SlipFractionIs(venue, grown, close);
    TradeResult(venue, acct, s, open, [], close);
    FundingBetween(venue, Units(side, s.qty), open, close);
    SideMatters(venue, s.candidate.side, side, s.qty, close.mark, grown, slip);
    FundingUsd(venue, model, side, s.qty, open, close);
    GrownValue(s.qty, open.mark, close.mark, move);
    MoveGain(side, s.qty, open.mark, close.mark, move);
    ExitFee(venue, side, s.qty, close.mark, slip);
    BpsLegs(venue, n, slipBps);
    BpsLegs(venue, grown, slipBps);
    EntryImpactIs(venue, n, open, s.qty, slip);
  }

  lemma {:induction false} FundingUsd(venue: Venue, model: Model, side: string, qty: real, open: Market, close: Market)
    requires model.schedule == venue.schedule && (side == "long" || side == "short")
    requires close.fundingRate == open.fundingRate
    requires model.holdMinutes == Minutes(close.timestamp - open.timestamp)
    ensures FundingPaid(venue, Units(side, qty), close, open.timestamp, close.timestamp)
         == Usd(Value(qty, close.mark), FundingBps(model, open, side))
  {
    hide FundingPaid, FundingBps, Units;
    FundingLeg(venue, model, side == "long", qty, close, Value(qty, close.mark), open.timestamp, close.timestamp);
    FundingOfMark(model, open, close, side);
  }

  lemma {:induction false} EntryImpactIs(venue: Venue, notional: real, m: Market, qty: real, slip: real)
    requires SlipFraction(venue, notional, m) == slip && notional == Value(qty, m.mark)
    ensures EntryImpact(venue, notional, m, qty) == Impact(slip, notional)
  {
    hide SlipFraction;
  }

  lemma {:induction false} LegsAdd(model: Model, n: real, added: real, slipBps: real, fundingBps: real, move: real)
    ensures
      var t, edge := model.schedule.takerBps, move - (2.0 * model.schedule.takerBps + 2.0 * slipBps + fundingBps);
      Usd(n, move) - Usd(n, t) - Usd(n, slipBps) - Usd(n + added, t) - Usd(n + added, slipBps)
        - Usd(n + added, fundingBps)
      == Usd(n, edge) - Usd(added, ExitBps(model, slipBps, fundingBps))
  {
  }
}
