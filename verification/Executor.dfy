/** The mutable account: positions are objects updated in place, the portfolio
    is a dictionary of them, and the executor's calls move both. Every call is
    proved to leave exactly the account the Ledger functions describe. */
module Executor {
  import opened Basics
  import opened Contracts
  import opened Slippage
  import opened Ledger

  class Position {
    const asset: string
    const side: string
    const qty: real
    const entryPrice: real
    const entryTime: int
    var lastMark: real
    var lastFundingTs: int
    var accruedFunding: real
    const stop: Option<real>
    const take: Option<real>
    const plan: Option<StopTakePlan>

    constructor (p: Pos)
      ensures Snapshot() == p
    {
      asset, side, qty := p.asset, p.side, p.qty;
      entryPrice, entryTime := p.entryPrice, p.entryTime;
      lastMark, lastFundingTs, accruedFunding := p.lastMark, p.lastFundingTs, p.accruedFunding;
      stop, take, plan := p.stop, p.take, p.plan;
    }

    function Snapshot(): Pos
      reads this
    {
      Pos(asset, side, qty, entryPrice, entryTime, lastMark, lastFundingTs, accruedFunding, stop, take, plan)
    }
  }

  class Portfolio {
    const starting: real
    var balance: real
    var positions: map<string, Position>

    /** Each key has its own position object. */
    ghost predicate Valid()
      reads this
    {
      forall a, b :: a in positions && b in positions && positions[a] == positions[b] ==> a == b
    }

    ghost function View(): Account
      reads this, positions.Values
    {
      Account(starting, balance, map a | a in positions :: positions[a].Snapshot())
    }

    constructor (startingBalance: real)
      ensures Valid() && View() == Empty(startingBalance)
      ensures positions == map[]
    {
      starting, balance, positions := startingBalance, startingBalance, map[];
    }

    /** Total account value: the balance plus every open position's value. */
    method EquityUsd() returns (equity: real)
      requires Valid()
      ensures equity == Equity(View())
    {
      equity := balance;
      var rest := positions.Keys;
      ghost var view := View().positions;
      assert view - (view.Keys - rest) == view;
      while rest != {}
        invariant rest <= positions.Keys
        invariant equity + SumOver(view - (view.Keys - rest), OpenValue) == Equity(View())
        decreases rest
      {
        var a :| a in rest;
        var p := positions[a].Snapshot();
        SumRemove(view - (view.Keys - rest), OpenValue, a);
        assert view - (view.Keys - rest) - {a} == view - (view.Keys - (rest - {a}));
        equity := equity + OpenValue(p);
        rest := rest - {a};
      }
      assert view - (view.Keys - rest) == map[];
    }

    /** Mark-priced notional of everything open. */
    method ExposureUsd() returns (exposure: real)
      requires Valid()
      ensures exposure == Exposure(View())
    {
      exposure := 0.0;
      var rest := positions.Keys;
      ghost var view := View().positions;
      assert view - (view.Keys - rest) == view;
      while rest != {}
        invariant rest <= positions.Keys
        invariant exposure + SumOver(view - (view.Keys - rest), MarkNotional) == Exposure(View())
        decreases rest
      {
        var a :| a in rest;
        var p := positions[a].Snapshot();
        SumRemove(view - (view.Keys - rest), MarkNotional, a);
        assert view - (view.Keys - rest) - {a} == view - (view.Keys - (rest - {a}));
        exposure := exposure + MarkNotional(p);
        rest := rest - {a};
      }
      assert view - (view.Keys - rest) == map[];
    }
  }

  class SimExecutor {
    const venue: Venue

    constructor (venue: Venue)
      ensures this.venue == venue
    {
      this.venue := venue;
    }

    /** Charge the fee and insert a new position object. */
    method Enter(p: Pos, fee: real, portfolio: Portfolio)
      requires portfolio.Valid()
      modifies portfolio
      ensures portfolio.Valid() && fresh(portfolio.positions.Values - old(portfolio.positions.Values))
      ensures
        var before := old(portfolio.View());
        portfolio.View() == before.(balance := before.balance - fee, positions := before.positions[p.asset := p])
    {
      ghost var before := portfolio.View().positions;
      var position := new Position(p);
      portfolio.balance := portfolio.balance - fee;
      portfolio.positions := portfolio.positions[p.asset := position];
      assert portfolio.View().positions == before[p.asset := p];
    }

    method Open(c: Candidate, m: Market, portfolio: Portfolio) returns (r: Result<Fill>)
      requires portfolio.Valid()
      modifies portfolio
      ensures portfolio.Valid() && fresh(portfolio.positions.Values - old(portfolio.positions.Values))
      ensures Outcome(portfolio.View(), r) == old(OpenNaive(venue, portfolio.View(), c, m))
    {
      hide SideSlippageBps, EntryPrice, TakerFee, Quotient;
      if c.asset in portfolio.positions {
        return Err(AlreadyOpen);
      }
      if c.asset != m.asset {
        return Err(AssetMismatch);
      }
      var slip := SideSlippageBps(venue.schedule, venue.maths, c.notional, m);
      if slip.Err? {
        return Err(slip.fault);
      }
      var price := EntryPrice(c.side, m.mark, slip.value / BPS);
      if price == 0.0 {
        return Err(ZeroDivision);
      }
      var qty := Quotient(c.notional, price);
      var fee := TakerFee(venue, c.notional);
      Enter(Pos(c.asset, c.side, qty, price, m.timestamp, m.mark, m.timestamp, 0.0, None, None, None), fee, portfolio);
      r := Ok(Fill(c.asset, m.timestamp, c.side, qty, price, fee, true, 0.0));
    }

    method OpenSized(s: Sized, m: Market, portfolio: Portfolio) returns (r: Result<Fill>)
      requires portfolio.Valid()
      modifies portfolio
      ensures portfolio.Valid() && fresh(portfolio.positions.Values - old(portfolio.positions.Values))
      ensures Outcome(portfolio.View(), r) == old(Ledger.OpenSized(venue, portfolio.View(), s, m))
    {
      hide SideSlippageBps, EntryPrice, TakerFee;
      var c := s.candidate;
      if c.asset in portfolio.positions {
        return Err(AlreadyOpen);
      }
      if c.asset != m.asset {
        return Err(AssetMismatch);
      }
      if s.qty <= 0.0 {
        return Err(NonPositiveQty);
      }
      var slip := SideSlippageBps(venue.schedule, venue.maths, s.notional, m);
      if slip.Err? {
        return Err(slip.fault);
      }
      var price := EntryPrice(c.side, m.mark, slip.value / BPS);
      var fee := TakerFee(venue, s.notional);
      Enter(Pos(c.asset, c.side, s.qty, price, m.timestamp, m.mark, m.timestamp, 0.0,
                Some(s.stopPrice), Some(s.takePrice), Some(s.plan)), fee, portfolio);
      r := Ok(Fill(c.asset, m.timestamp, c.side, s.qty, price, fee, true, 0.0));
    }

    /** Update one position object to a snapshot: mark, funding and clock. */
    method AccrueFunding(p: Position, m: Market)
      modifies p
      ensures p.Snapshot() == old(Accrue(venue, p.Snapshot(), m))
    {
      p.lastMark := m.mark;
      var period := venue.schedule.periodHours * 60.0;
      if period <= EPS {
        return;
      }
      var elapsed := Minutes(m.timestamp - p.lastFundingTs);
      if elapsed <= 0.0 {
        return;
      }
      var notional := Value(p.qty, m.mark);
      var cashflow := FundingCashflow(p.side, m.fundingRate, notional, elapsed, period);
      p.accruedFunding := p.accruedFunding + cashflow;
      p.lastFundingTs := m.timestamp;
    }

    method Close(asset: string, m: Market, portfolio: Portfolio) returns (r: Result<Fill>)
      requires portfolio.Valid()
      modifies portfolio, portfolio.positions.Values
      ensures portfolio.Valid() && portfolio.positions.Values <= old(portfolio.positions.Values)
      ensures Outcome(portfolio.View(), r) == old(Ledger.Close(venue, portfolio.View(), asset, m))
    {
      hide SideSlippageBps, Value, Accrue, ClosingFill;
      ghost var before := portfolio.View();
      if asset != m.asset {
        return Err(AssetMismatch);
      }
      if asset !in portfolio.positions {
        return Err(NoPosition);
      }
      var p := portfolio.positions[asset];
      AccrueFunding(p, m);
      assert portfolio.View() == before.(positions :=
        before.positions[asset := Accrue(venue, before.positions[asset], m)]);
      var notional := Value(p.qty, m.mark);
      var slip := SideSlippageBps(venue.schedule, venue.maths, notional, m);
      if slip.Err? {
        return Err(slip.fault);
      }
      r := Settle(p, m, slip.value / BPS, portfolio);
    }

    /** Price the exit of an accrued position, credit it and drop the position. */
    method Settle(p: Position, m: Market, slip: real, portfolio: Portfolio) returns (r: Result<Fill>)
      requires portfolio.Valid() && m.asset in portfolio.positions && portfolio.positions[m.asset] == p
      modifies portfolio
      ensures portfolio.Valid() && portfolio.positions == old(portfolio.positions) - {m.asset}
      ensures
        var before := old(portfolio.View());
        var fill := ClosingFill(venue, old(p.Snapshot()), m, slip);
        && r == Ok(fill)
        && portfolio.View()
             == before.(balance := before.balance + fill.realizedPnl, positions := before.positions - {m.asset})
    {
      hide PricePnl, ExitPrice, TakerFee, Value;
      ghost var before := portfolio.View();
      var price := ExitPrice(p.side, m.mark, slip);
      var pricePnl := PricePnl(p.side, p.entryPrice, price, p.qty);
      var fee := TakerFee(venue, Value(p.qty, price));
      var realized := pricePnl + p.accruedFunding - fee;
      portfolio.balance := portfolio.balance + realized;
      portfolio.positions := portfolio.positions - {m.asset};
      r := Ok(Fill(m.asset, m.timestamp, p.side, p.qty, price, fee, false, realized));
      assert portfolio.View().positions == before.positions - {m.asset};
    }

    method Tick(m: Market, portfolio: Portfolio)
      requires portfolio.Valid()
      modifies portfolio.positions.Values
      ensures portfolio.View() == old(Ledger.Tick(venue, portfolio.View(), m))
    {
      ghost var before := portfolio.View();
      if m.asset !in portfolio.positions {
        return;
      }
      var p := portfolio.positions[m.asset];
      p.lastMark := m.mark;
      if m.timestamp <= p.lastFundingTs {
        assert portfolio.View() == Ledger.Tick(venue, before, m);
        return;
      }
      AccrueFunding(p, m);
      assert portfolio.View() == Ledger.Tick(venue, before, m);
    }

    /** The stop is looked at before the take. */
    method CheckStops(m: Market, portfolio: Portfolio) returns (r: Result<Option<Fill>>)
      requires portfolio.Valid()
      modifies portfolio, portfolio.positions.Values
      ensures portfolio.Valid() && portfolio.positions.Values <= old(portfolio.positions.Values)
      ensures Outcome(portfolio.View(), r) == old(Ledger.CheckStops(venue, portfolio.View(), m))
    {
      if m.asset !in portfolio.positions {
        return Ok(None);
      }
      var p := portfolio.positions[m.asset];
      var fires := false;
      if p.stop.Some? {
        if p.side == "long" && m.mark <= p.stop.value {
          fires := true;
        } else if p.side == "short" && m.mark >= p.stop.value {
          fires := true;
        }
      }
      if !fires && p.take.Some? {
        if p.side == "long" && m.mark >= p.take.value {
          fires := true;
        } else if p.side == "short" && m.mark <= p.take.value {
          fires := true;
        }
      }
      if !fires {
        return Ok(None);
      }
      var closed := Close(m.asset, m, portfolio);
      match closed
      case Ok(fill) => r := Ok(Some(fill));
      case Err(fault) => r := Err(fault);
    }
  }
}
