/** What single executor calls do in terms of the snapshot alone: when the stop
    check closes a position, what a funding period costs, what an open buys. */
module LedgerLaws {
  import opened Basics
  import opened Contracts
  import opened Slippage
  import opened Ledger

  /** The mark is strictly on the near side of every level that is set. */
  predicate Inside(p: Pos, mark: real) {
    && (p.stop.Some? ==> Sign(p.side) * (mark - p.stop.value) > 0.0)
    && (p.take.Some? ==> Sign(p.side) * (p.take.value - mark) > 0.0)
  }

  /** Main result on the stop check: unless it raises, a long or short position
      is still held exactly when the mark lies strictly between its levels, and
      the account is then untouched; otherwise the position is gone, with a
      fill, and every other one is as it was. */
  lemma {:induction false} StillHeldIff(venue: Venue, acct: Account, m: Market)
    requires m.asset in acct.positions && CheckStops(venue, acct, m).result.Ok?
    requires acct.positions[m.asset].side == "long" || acct.positions[m.asset].side == "short"
    ensures
      var p, checked := acct.positions[m.asset], CheckStops(venue, acct, m);
      && (m.asset in checked.account.positions <==> Inside(p, m.mark))
      && (m.asset in checked.account.positions ==> checked == Outcome(acct, Ok(None)))
      && (m.asset !in checked.account.positions ==>
            checked.result.value.Some? && checked.account.positions == acct.positions - {m.asset})
  {
    hide SideSlippageBps, ClosingFill, Accrue, Value;
  }

  // ------------------------------------------------------------ what funding costs

  /** Microseconds in some hours. */
  function HoursLater(hours: real): real {
    hours * 3600.0 * 1000000.0
  }

  /** A tick one funding period after the last settlement moves the funding of a
      position by exactly the rate on its notional at the new mark: a long pays
      a positive rate, a short receives it. */
  lemma {:induction false} OnePeriodPaysRate(venue: Venue, acct: Account, m: Market)
    requires m.asset in acct.positions && venue.schedule.periodHours * 60.0 > EPS
    requires (m.timestamp - acct.positions[m.asset].lastFundingTs) as real == HoursLater(venue.schedule.periodHours)
    ensures
      var p, after := acct.positions[m.asset], Tick(venue, acct, m);
      && after.positions == acct.positions[m.asset := after.positions[m.asset]] && after.balance == acct.balance
      && var q := after.positions[m.asset];
         && q == p.(lastMark := m.mark, lastFundingTs := m.timestamp, accruedFunding := q.accruedFunding)
         && q.accruedFunding == p.accruedFunding - Times(Units(p.side, p.qty), Times(m.mark, m.fundingRate))
  {
    var p := acct.positions[m.asset];
    var period := venue.schedule.periodHours * 60.0;
    var elapsed := Minutes(m.timestamp - p.lastFundingTs);
    assert elapsed == period;
    assert elapsed / period == 1.0;
    var cashflow := FundingCashflow(p.side, m.fundingRate, Value(p.qty, m.mark), elapsed, period);
    assert cashflow == -Times(Units(p.side, p.qty), Times(m.mark, m.fundingRate)) by {
      WholePeriod(p.side, m.fundingRate, p.qty, m.mark);
    }
    hide FundingCashflow, Times, Units, Value;
  }

  lemma {:induction false} WholePeriod(side: string, rate: real, qty: real, mark: real)
    ensures (if side == "long" then -1.0 else 1.0) * rate * Value(qty, mark) * 1.0
         == -Times(Units(side, qty), Times(mark, rate))
  {
  }

  // --------------------------------------------------------------- what opens buy

  /** An unsized open spends exactly its notional at the fill price, which is the
      mark moved against the trade by the slippage, and pays the fee on it. */
  lemma {:induction false} OpenSpendsNotional(venue: Venue, acct: Account, c: Candidate, m: Market)
    requires OpenNaive(venue, acct, c, m).result.Ok?
    ensures
      var o := OpenNaive(venue, acct, c, m);
      var fill, slip := o.result.value, SideSlippageBps(venue.schedule, venue.maths, c.notional, m);
      && slip.Ok? && Times(fill.qty, fill.price) == c.notional
      && fill.price - m.mark == Times(Sign(c.side), m.mark * (slip.value / BPS))
      && Times(acct.balance - o.account.balance, 10000.0) == Times(c.notional, venue.schedule.takerBps)
      && fill.feePaid == acct.balance - o.account.balance && fill.isOpen
      && c.asset !in acct.positions && c.asset in o.account.positions
      && o.account.positions == acct.positions[c.asset := o.account.positions[c.asset]]
      && var p := o.account.positions[c.asset];
         && p.side == c.side == fill.side && p.qty == fill.qty && p.entryPrice == fill.price && p.lastMark == m.mark
         && p.entryTime == p.lastFundingTs == fill.timestamp == m.timestamp && p.accruedFunding == 0.0
         && p.stop.None? && p.take.None? && p.plan.None?
  {
    hide SideSlippageBps;
    var slip := SideSlippageBps(venue.schedule, venue.maths, c.notional, m);
    var price := EntryPrice(c.side, m.mark, slip.value / BPS);
    assert price == m.mark + Times(Sign(c.side), m.mark * (slip.value / BPS));
    QuotientTimes(c.notional, price);
    hide EntryPrice, Quotient, Times;
    FeeIs(venue, c.notional);
  }

  lemma {:induction false} QuotientTimes(notional: real, price: real)
    requires price != 0.0
    ensures Times(Quotient(notional, price), price) == notional
  {
  }

  lemma {:induction false} FeeIs(venue: Venue, value: real)
    ensures Times(TakerFee(venue, value), 10000.0) == Times(value, venue.schedule.takerBps)
  {
  }

  /** A sized open buys its own quantity at such a price, takes over its levels
      and its plan, and pays the fee on its own notional. */
  lemma {:induction false} SizedOpenTakesTerms(venue: Venue, acct: Account, s: Sized, m: Market)
    requires OpenSized(venue, acct, s, m).result.Ok?
    ensures
      var o := OpenSized(venue, acct, s, m);
      var fill, slip := o.result.value, SideSlippageBps(venue.schedule, venue.maths, s.notional, m);
      var asset, side := s.candidate.asset, s.candidate.side;
      && slip.Ok? && fill.qty == s.qty > 0.0
      && fill.price - m.mark == Times(Sign(side), m.mark * (slip.value / BPS))
      && Times(acct.balance - o.account.balance, 10000.0) == Times(s.notional, venue.schedule.takerBps)
      && fill.feePaid == acct.balance - o.account.balance && fill.isOpen
      && asset !in acct.positions && asset in o.account.positions
      && o.account.positions == acct.positions[asset := o.account.positions[asset]]
      && var p := o.account.positions[asset];
         && p.side == side == fill.side && p.qty == fill.qty && p.entryPrice == fill.price && p.lastMark == m.mark
         && p.entryTime == p.lastFundingTs == fill.timestamp == m.timestamp && p.accruedFunding == 0.0
         && p.stop == Some(s.stopPrice) && p.take == Some(s.takePrice) && p.plan == Some(s.plan)
  {
    hide SideSlippageBps;
    var slip := SideSlippageBps(venue.schedule, venue.maths, s.notional, m);
    var price := EntryPrice(s.candidate.side, m.mark, slip.value / BPS);
    assert price == m.mark + Times(Sign(s.candidate.side), m.mark * (slip.value / BPS));
    hide EntryPrice, Times;
    FeeIs(venue, s.notional);
  }
}
