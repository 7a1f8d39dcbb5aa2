/** The paper account as a value, and what each executor call does to it.
    A call returns the account it leaves behind together with its outcome,
    because a call that raises may already have moved the account. */
module Ledger {
  import opened Basics
  import opened Contracts
  import opened Slippage

  datatype Pos = Pos(
    asset: string,
    side: string,
    qty: real,
    entryPrice: real,
    entryTime: int,
    lastMark: real,
    lastFundingTs: int,
    accruedFunding: real,
    stop: Option<real>,
    take: Option<real>,
    plan: Option<StopTakePlan>)

  datatype Account = Account(starting: real, balance: real, positions: map<string, Pos>)

  datatype Venue = Venue(schedule: Schedule, maths: Maths)

  /** What a call leaves behind: the account and the value or exception. */
  datatype Outcome<+T> = Outcome(account: Account, result: Result<T>)

  function Empty(starting: real): Account {
    Account(starting, starting, map[])
  }

  /** Units held, negative for a short. */
  function Units(side: string, qty: real): real {
    Sign(side) * qty
  }

  function SignedUnits(p: Pos): real {
    Units(p.side, p.qty)
  }

  function PricePnl(side: string, entry: real, exit: real, qty: real): real {
    if side == "long" then (exit - entry) * qty else (entry - exit) * qty
  }

  /** Mark-to-market P&L on the price leg. */
  function Unrealized(p: Pos): real {
    PricePnl(p.side, p.entryPrice, p.lastMark, p.qty)
  }

  function OpenValue(p: Pos): real {
    Unrealized(p) + p.accruedFunding
  }

  function MarkNotional(p: Pos): real {
    Value(p.qty, p.lastMark)
  }

  // ------------------------------------------------ sums over open positions

  /** Sum of f over the positions, in any order. */
  ghost function SumOver(ps: map<string, Pos>, f: Pos -> real): real
    decreases |ps|
  {
    if ps == map[] then 0.0
    else
      var a :| a in ps;
      f(ps[a]) + SumOver(ps - {a}, f)
  }

  lemma {:induction false} SumRemove(ps: map<string, Pos>, f: Pos -> real, a: string)
    requires a in ps
    ensures SumOver(ps, f) == f(ps[a]) + SumOver(ps - {a}, f)
    decreases |ps|
  {
    var b :| b in ps && SumOver(ps, f) == f(ps[b]) + SumOver(ps - {b}, f);
    if a != b {
      SumRemove(ps - {b}, f, a);
      SumRemove(ps - {a}, f, b);
      assert ps - {b} - {a} == ps - {a} - {b};
    }
  }

  lemma {:induction false} SumInsert(ps: map<string, Pos>, f: Pos -> real, a: string, p: Pos)
    requires a !in ps
    ensures SumOver(ps[a := p], f) == SumOver(ps, f) + f(p)
  {
    SumRemove(ps[a := p], f, a);
    assert ps[a := p] - {a} == ps;
  }

  lemma {:induction false} SumReplace(ps: map<string, Pos>, f: Pos -> real, a: string, p: Pos)
    requires a in ps
    ensures SumOver(ps[a := p], f) == SumOver(ps, f) - f(ps[a]) + f(p)
  {
    SumRemove(ps[a := p], f, a);
    SumRemove(ps, f, a);
    assert ps[a := p] - {a} == ps - {a};
  }

  ghost function Equity(acct: Account): real {
    acct.balance + SumOver(acct.positions, OpenValue)
  }

  ghost function Exposure(acct: Account): real {
    SumOver(acct.positions, MarkNotional)
  }

  // ------------------------------------------------------------ executor calls

  function Minutes(micros: int): real {
    micros as real / 1000000.0 / 60.0
  }

  /** Taker fee on a traded value. */
  function TakerFee(venue: Venue, value: real): real {
    value * venue.schedule.takerBps / BPS
  }

  /** Funding received over some minutes: longs pay a positive rate. */
  function FundingCashflow(side: string, rate: real, notional: real, elapsed: real, period: real): real
    requires period > EPS
  {
    (if side == "long" then -1.0 else 1.0) * rate * notional * (elapsed / period)
  }

  /** Roll the mark and the funding clock of one position to a snapshot. */
  function Accrue(venue: Venue, p: Pos, m: Market): Pos {
    var marked := p.(lastMark := m.mark);
    var period := venue.schedule.periodHours * 60.0;
    if period <= EPS then marked
    else
      var elapsed := Minutes(m.timestamp - p.lastFundingTs);
      if elapsed <= 0.0 then marked
      else
        var cashflow := FundingCashflow(p.side, m.fundingRate, Value(p.qty, m.mark), elapsed, period);
        marked.(accruedFunding := p.accruedFunding + cashflow, lastFundingTs := m.timestamp)
  }

  /** Fill price of an opening order: adverse slippage on the mark. */
  function EntryPrice(side: string, mark: real, slip: real): real {
    if side == "long" then mark * (1.0 + slip) else mark * (1.0 - slip)
  }

  function ExitPrice(side: string, mark: real, slip: real): real {
    if side == "long" then mark * (1.0 - slip) else mark * (1.0 + slip)
  }

  function Quotient(notional: real, price: real): real
    requires price != 0.0
  {
    notional / price
  }

  function OpenNaive(venue: Venue, acct: Account, c: Candidate, m: Market): Outcome<Fill> {
    if c.asset in acct.positions then Outcome(acct, Err(AlreadyOpen))
    else if c.asset != m.asset then Outcome(acct, Err(AssetMismatch))
    else
      var slip := SideSlippageBps(venue.schedule, venue.maths, c.notional, m);
      if slip.Err? then Outcome(acct, Err(slip.fault))
      else
        var price := EntryPrice(c.side, m.mark, slip.value / BPS);
        if price == 0.0 then Outcome(acct, Err(ZeroDivision))
        else
          var qty := Quotient(c.notional, price);
          var fee := TakerFee(venue, c.notional);
          var p := Pos(c.asset, c.side, qty, price, m.timestamp, m.mark, m.timestamp, 0.0, None, None, None);
          Outcome(
            acct.(balance := acct.balance - fee, positions := acct.positions[c.asset := p]),
            Ok(Fill(c.asset, m.timestamp, c.side, qty, price, fee, true, 0.0)))
  }

  function OpenSized(venue: Venue, acct: Account, s: Sized, m: Market): Outcome<Fill> {
    var c := s.candidate;
    if c.asset in acct.positions then Outcome(acct, Err(AlreadyOpen))
    else if c.asset != m.asset then Outcome(acct, Err(AssetMismatch))
    else if s.qty <= 0.0 then Outcome(acct, Err(NonPositiveQty))
    else
      var slip := SideSlippageBps(venue.schedule, venue.maths, s.notional, m);
      if slip.Err? then Outcome(acct, Err(slip.fault))
      else
        var price := EntryPrice(c.side, m.mark, slip.value / BPS);
        var fee := TakerFee(venue, s.notional);
        var p := Pos(c.asset, c.side, s.qty, price, m.timestamp, m.mark, m.timestamp, 0.0,
                     Some(s.stopPrice), Some(s.takePrice), Some(s.plan));
        Outcome(
          acct.(balance := acct.balance - fee, positions := acct.positions[c.asset := p]),
          Ok(Fill(c.asset, m.timestamp, c.side, s.qty, price, fee, true, 0.0)))
  }

  /** The fill that closes an accrued position: price P&L with exit slippage,
      plus the accrued funding, less the taker fee on the proceeds. */
  function ClosingFill(venue: Venue, p: Pos, m: Market, slip: real): Fill {
    var price := ExitPrice(p.side, m.mark, slip);
    var pricePnl := PricePnl(p.side, p.entryPrice, price, p.qty);
    var fee := TakerFee(venue, Value(p.qty, price));
    Fill(m.asset, m.timestamp, p.side, p.qty, price, fee, false, pricePnl + p.accruedFunding - fee)
  }

  /** Close at the mark. Funding is rolled forward first, so an exception
      raised by the slippage leaves the position accrued. */
  function Close(venue: Venue, acct: Account, asset: string, m: Market): Outcome<Fill> {
    if asset != m.asset then Outcome(acct, Err(AssetMismatch))
    else if asset !in acct.positions then Outcome(acct, Err(NoPosition))
    else
      var p := Accrue(venue, acct.positions[asset], m);
      var slip := SideSlippageBps(venue.schedule, venue.maths, Value(p.qty, m.mark), m);
      if slip.Err? then Outcome(acct.(positions := acct.positions[asset := p]), Err(slip.fault))
      else
        var fill := ClosingFill(venue, p, m, slip.value / BPS);
        Outcome(acct.(balance := acct.balance + fill.realizedPnl, positions := acct.positions - {asset}), Ok(fill))
  }

  function Tick(venue: Venue, acct: Account, m: Market): Account {
    if m.asset !in acct.positions then acct
    else
      var p := acct.positions[m.asset];
      var q := if m.timestamp <= p.lastFundingTs then p.(lastMark := m.mark) else Accrue(venue, p, m);
      acct.(positions := acct.positions[m.asset := q])
  }

  predicate StopHit(p: Pos, mark: real) {
    p.stop.Some? &&
    ((p.side == "long" && mark <= p.stop.value) || (p.side == "short" && mark >= p.stop.value))
  }

  predicate TakeHit(p: Pos, mark: real) {
    p.take.Some? &&
    ((p.side == "long" && mark >= p.take.value) || (p.side == "short" && mark <= p.take.value))
  }

  predicate Fires(p: Pos, mark: real) {
    StopHit(p, mark) || TakeHit(p, mark)
  }

  function CheckStops(venue: Venue, acct: Account, m: Market): Outcome<Option<Fill>> {
    if m.asset !in acct.positions || !Fires(acct.positions[m.asset], m.mark) then Outcome(acct, Ok(None))
    else
      var closed := Close(venue, acct, m.asset, m);
      match closed.result
      case Ok(fill) => Outcome(closed.account, Ok(Some(fill)))
      case Err(fault) => Outcome(closed.account, Err(fault))
  }
}
