/** Where the money went. A journal kept only from market snapshots and from
    the outcome of each executor call, never from the account itself, is shown
    to explain the account's equity and balance exactly, over every run. */
module Attribution {
  import opened Basics
  import opened Contracts
  import opened Slippage
  import opened Ledger

  datatype Event =
    | OpenEv(candidate: Candidate, market: Market)
    | OpenSizedEv(sized: Sized, market: Market)
    | TickEv(market: Market)
    | CheckStopsEv(market: Market)
    | CloseEv(asset: string, market: Market)

  /** The executor call an event stands for: the account it leaves behind, and
      the fill it returned or the exception it raised. */
  function Perform(venue: Venue, acct: Account, ev: Event): Outcome<Option<Fill>> {
    match ev
    case OpenEv(c, m) => Filled(OpenNaive(venue, acct, c, m))
    case OpenSizedEv(s, m) => Filled(OpenSized(venue, acct, s, m))
    case TickEv(m) => Outcome(Tick(venue, acct, m), Ok(None))
    case CheckStopsEv(m) => CheckStops(venue, acct, m)
    case CloseEv(a, m) => Filled(Close(venue, acct, a, m))
  }

  function Filled(o: Outcome<Fill>): Outcome<Option<Fill>> {
    match o.result
    case Ok(fill) => Outcome(o.account, Ok(Some(fill)))
    case Err(fault) => Outcome(o.account, Err(fault))
  }

  /** Signed units held on one asset, the mark they were last valued at, and
      the time up to which their funding has been settled. */
  datatype Holding = Holding(units: real, mark: real, clock: int)

  datatype Journal = Journal(
    held: map<string, Holding>,
    markPnl: real,
    funding: real,
    costs: real,
    openingFees: real,
    closingPnl: real)

  const EMPTY_JOURNAL := Journal(map[], 0.0, 0.0, 0.0, 0.0, 0.0)

  /** The slippage fraction a trade of this notional pays on this snapshot. */
  function SlipFraction(venue: Venue, notional: real, m: Market): real {
    var slip := SideSlippageBps(venue.schedule, venue.maths, notional, m);
    if slip.Ok? then slip.value / BPS else 0.0
  }

  function Later(x: int, y: int): int {
    if x >= y then x else y
  }

  function MarkGain(units: real, before: real, after: real): real {
    units * (after - before)
  }

  /** Funding a signed holding pays while its clock moves: a positive rate is
      paid by longs, so a negative payment is an income. */
  function FundingPaid(venue: Venue, units: real, m: Market, from: int, to: int): real {
    var period := venue.schedule.periodHours * 60.0;
    if period <= EPS then 0.0 else units * m.mark * m.fundingRate * (Minutes(to - from) / period)
  }

  /** The funding clock never runs backwards, and stands still on a venue
      without a funding period. */
  function Clock(venue: Venue, clock: int, m: Market): int {
    if venue.schedule.periodHours * 60.0 <= EPS then clock else Later(clock, m.timestamp)
  }

  /** Value a holding at a new snapshot: the mark change is P&L, and each
      unsettled minute pays the funding rate on the new notional, longs paying
      a positive rate. */
  function Revalue(venue: Venue, j: Journal, m: Market): Journal {
    if m.asset !in j.held then j
    else
      var h := j.held[m.asset];
      var clock := Clock(venue, h.clock, m);
      j.(held := j.held[m.asset := Holding(h.units, m.mark, clock)],
         markPnl := j.markPnl + MarkGain(h.units, h.mark, m.mark),
         funding := j.funding - FundingPaid(venue, h.units, m, h.clock, clock))
  }

  /** Slippage loss on some marked value. */
  function Impact(slip: real, value: real): real {
    slip * value
  }

  /** An entry costs the taker fee on its notional and the slippage fraction
      on the units bought at the mark. */
  function EntryImpact(venue: Venue, notional: real, m: Market, qty: real): real {
    Impact(SlipFraction(venue, notional, m), Value(qty, m.mark))
  }

  function Enter(venue: Venue, j: Journal, units: real, notional: real, m: Market, fill: Fill): Journal {
    j.(held := j.held[fill.asset := Holding(units, m.mark, m.timestamp)],
       costs := j.costs + TakerFee(venue, notional) + EntryImpact(venue, notional, m, fill.qty),
       openingFees := j.openingFees + fill.feePaid)
  }

  /** An exit costs the slippage fraction on its marked notional and the taker
      fee on the proceeds. */
  function ExitImpact(venue: Venue, m: Market, qty: real): real {
    Impact(SlipFraction(venue, Value(qty, m.mark), m), Value(qty, m.mark))
  }

  function Exit(venue: Venue, j: Journal, m: Market, fill: Fill): Journal {
    j.(held := j.held - {fill.asset},
       costs := j.costs + TakerFee(venue, Value(fill.qty, fill.price)) + ExitImpact(venue, m, fill.qty),
       closingPnl := j.closingPnl + fill.realizedPnl)
  }

  /** A close that found its position revalues it, also when the slippage then
      raised; any other exception left the account alone. */
  function Settle(venue: Venue, j: Journal, m: Market, result: Result<Option<Fill>>): Journal {
    match result
    case Ok(None) => j
    case Ok(Some(fill)) => Exit(venue, Revalue(venue, j, m), m, fill)
    case Err(fault) => if fault == MathDomain then Revalue(venue, j, m) else j
  }

  function Record(venue: Venue, j: Journal, ev: Event, result: Result<Option<Fill>>): Journal {
    match ev
    case OpenEv(c, m) =>
      if result.Ok? && result.value.Some? then
        Enter(venue, j, Units(c.side, result.value.value.qty), c.notional, m, result.value.value)
      else j
    case OpenSizedEv(s, m) =>
      if result.Ok? && result.value.Some? then
        Enter(venue, j, Units(s.candidate.side, s.qty), s.notional, m, result.value.value)
      else j
    case TickEv(m) => Revalue(venue, j, m)
    case CheckStopsEv(m) => Settle(venue, j, m, result)
    case CloseEv(a, m) => Settle(venue, j, m, result)
  }

  function Run(venue: Venue, acct: Account, evs: seq<Event>): Account
    decreases |evs|
  {
    if evs == [] then acct
    else Perform(venue, Run(venue, acct, evs[..|evs| - 1]), evs[|evs| - 1]).account
  }

  function Keep(venue: Venue, acct: Account, evs: seq<Event>): Journal
    decreases |evs|
  {
    if evs == [] then EMPTY_JOURNAL
    else
      var before := evs[..|evs| - 1];
      var ev := evs[|evs| - 1];
      Record(venue, Keep(venue, acct, before), ev, Perform(venue, Run(venue, acct, before), ev).result)
  }

  // --------------------------------------------------------------- agreement

  /** The account's positions are what the journal believes is held. */
  predicate Matches(acct: Account, j: Journal) {
    && acct.positions.Keys == j.held.Keys
    && forall a :: a in acct.positions ==>
         var p := acct.positions[a];
         p.asset == a && j.held[a] == Holding(SignedUnits(p), p.lastMark, p.lastFundingTs)
  }

  ghost predicate Explains(acct: Account, j: Journal) {
    && Matches(acct, j)
    && Equity(acct) == acct.starting + j.markPnl + j.funding - j.costs
    && acct.balance == acct.starting - j.openingFees + j.closingPnl
  }

  lemma {:induction false} AccrueExplained(venue: Venue, p: Pos, m: Market)
    ensures
      var q := Accrue(venue, p, m);
      var clock := Clock(venue, p.lastFundingTs, m);
      var units := SignedUnits(p);
      && q == p.(lastMark := m.mark, lastFundingTs := clock, accruedFunding := q.accruedFunding)
      && SignedUnits(q) == units
      && OpenValue(q) == OpenValue(p) + MarkGain(units, p.lastMark, m.mark)
        - FundingPaid(venue, units, m, p.lastFundingTs, clock)
  {
  }

  lemma {:induction false} TickAccrues(venue: Venue, acct: Account, m: Market)
    requires m.asset in acct.positions
    ensures Tick(venue, acct, m)
         == acct.(positions := acct.positions[m.asset := Accrue(venue, acct.positions[m.asset], m)])
  {
  }

  /** Revaluing one position in account and journal keeps them in agreement. */
  lemma {:induction false} AccrualExplained(venue: Venue, acct: Account, j: Journal, m: Market)
    requires Explains(acct, j) && m.asset in acct.positions
    ensures Explains(acct.(positions := acct.positions[m.asset := Accrue(venue, acct.positions[m.asset], m)]),
      Revalue(venue, j, m))
  {
    hide OpenValue, Accrue, MarkGain, FundingPaid, Clock, Units;
    var p := acct.positions[m.asset];
    AccrueExplained(venue, p, m);
    SumReplace(acct.positions, OpenValue, m.asset, Accrue(venue, p, m));
  }

  lemma {:induction false} TickExplained(venue: Venue, acct: Account, j: Journal, m: Market)
    requires Explains(acct, j)
    ensures Explains(Tick(venue, acct, m), Revalue(venue, j, m))
  {
    hide OpenValue, Accrue, MarkGain, FundingPaid, Clock, Units;
    if m.asset in acct.positions {
      TickAccrues(venue, acct, m);
      AccrualExplained(venue, acct, j, m);
    }
  }

  lemma {:induction false} EntryValue(venue: Venue, p: Pos, notional: real, m: Market)
    requires p.accruedFunding == 0.0 && p.lastMark == m.mark
    requires p.entryPrice == EntryPrice(p.side, m.mark, SlipFraction(venue, notional, m))
    ensures OpenValue(p) == -EntryImpact(venue, notional, m, p.qty)
  {
  }

  lemma {:induction false} OpenExplained(venue: Venue, acct: Account, j: Journal, notional: real, m: Market, p: Pos,
                                         fill: Fill)
    requires Explains(acct, j)
    requires p.asset !in acct.positions
    requires p.accruedFunding == 0.0 && p.lastMark == m.mark && p.lastFundingTs == m.timestamp
    requires p.entryPrice == EntryPrice(p.side, m.mark, SlipFraction(venue, notional, m))
    requires fill.asset == p.asset && fill.qty == p.qty && fill.feePaid == TakerFee(venue, notional)
    ensures Explains(
      acct.(balance := acct.balance - fill.feePaid, positions := acct.positions[p.asset := p]),
      Enter(venue, j, SignedUnits(p), notional, m, fill))
  {
    hide OpenValue, EntryImpact, TakerFee, EntryPrice, SlipFraction, Units;
    EntryValue(venue, p, notional, m);
    SumInsert(acct.positions, OpenValue, p.asset, p);
  }

  /** What closing a marked position adds to the balance is its open value less
      the exit costs. */
  lemma {:induction false} ExitValue(venue: Venue, q: Pos, m: Market)
    requires q.lastMark == m.mark
    ensures
      var fill := ClosingFill(venue, q, m, SlipFraction(venue, Value(q.qty, m.mark), m));
      fill.realizedPnl == OpenValue(q) - TakerFee(venue, Value(fill.qty, fill.price)) - ExitImpact(venue, m, fill.qty)
  {
    var slip := SlipFraction(venue, Value(q.qty, m.mark), m);
    var price := ExitPrice(q.side, m.mark, slip);
    hide SlipFraction;
    var fill := ClosingFill(venue, q, m, slip);
    assert fill.qty == q.qty && fill.price == price;
    assert ExitImpact(venue, m, fill.qty) == slip * Value(q.qty, m.mark);
    if q.side == "long" {
      assert (price - q.entryPrice) * q.qty == Unrealized(q) - slip * (q.qty * m.mark);
    } else {
      assert (q.entryPrice - price) * q.qty == Unrealized(q) - slip * (q.qty * m.mark);
    }
  }

  lemma {:induction false} Accrued(venue: Venue, p: Pos, m: Market)
    ensures
      var q := Accrue(venue, p, m);
      && q == p.(lastMark := m.mark, lastFundingTs := Clock(venue, p.lastFundingTs, m),
                 accruedFunding := q.accruedFunding)
      && forall slip :: ClosingFill(venue, q, m, slip).asset == m.asset && ClosingFill(venue, q, m, slip).qty == p.qty
  {
  }

  /** A close that raised after finding its position has only accrued it. */
  lemma {:induction false} FailedExit(venue: Venue, acct: Account, asset: string, m: Market)
    ensures
      var o := Close(venue, acct, asset, m);
      && (o.result.Ok? || o.result == Err(MathDomain) ==> asset == m.asset && m.asset in acct.positions)
      && (o.result == Err(MathDomain) ==>
            o.account == acct.(positions := acct.positions[m.asset := Accrue(venue, acct.positions[m.asset], m)]))
      && (o.result.Err? && o.result.fault != MathDomain ==> o.account == acct)
  {
    hide Accrue, ClosingFill;
  }

  lemma {:induction false} ExitExplained(venue: Venue, acct: Account, j: Journal, m: Market)
    requires Explains(acct, j) && m.asset in acct.positions
    requires Close(venue, acct, m.asset, m).result.Ok?
    ensures
      var o := Close(venue, acct, m.asset, m);
      Explains(o.account, Exit(venue, Revalue(venue, j, m), m, o.result.value))
  {
    hide Accrue, OpenValue, TakerFee, ExitImpact, Revalue, ClosingFill, SideSlippageBps, Value;
    var q := Accrue(venue, acct.positions[m.asset], m);
    var marked := acct.(positions := acct.positions[m.asset := q]);
    AccrualExplained(venue, acct, j, m);
    Accrued(venue, acct.positions[m.asset], m);
    ExitValue(venue, q, m);
    SumRemove(marked.positions, OpenValue, m.asset);
    assert marked.positions - {m.asset} == acct.positions - {m.asset};
  }

  lemma {:induction false} CloseExplained(venue: Venue, acct: Account, j: Journal, asset: string, m: Market)
    requires Explains(acct, j)
    ensures
      var o := Close(venue, acct, asset, m);
      Explains(o.account, Settle(venue, j, m, Filled(o).result))
  {
    hide Close, Accrue, Explains, Revalue, Exit;
    FailedExit(venue, acct, asset, m);
    var o := Close(venue, acct, asset, m);
    if o.result.Ok? {
      ExitExplained(venue, acct, j, m);
    } else if o.result.fault == MathDomain {
      AccrualExplained(venue, acct, j, m);
    }
  }

  lemma {:induction false} StepExplained(venue: Venue, acct: Account, j: Journal, ev: Event)
    requires Explains(acct, j)
    ensures
      var o := Perform(venue, acct, ev);
      Explains(o.account, Record(venue, j, ev, o.result))
  {
    hide Close, Tick, Explains, Revalue, Enter, Exit, Fires;
    match ev
    case OpenEv(c, m) =>
      var o := OpenNaive(venue, acct, c, m);
      if o.result.Ok? {
        OpenExplained(venue, acct, j, c.notional, m, o.account.positions[c.asset], o.result.value);
      }
    case OpenSizedEv(s, m) =>
      var o := OpenSized(venue, acct, s, m);
      if o.result.Ok? {
        OpenExplained(venue, acct, j, s.notional, m, o.account.positions[s.candidate.asset], o.result.value);
      }
    case TickEv(m) => TickExplained(venue, acct, j, m);
    case CheckStopsEv(m) => CloseExplained(venue, acct, j, m.asset, m);
    case CloseEv(a, m) => CloseExplained(venue, acct, j, a, m);
  }

  /** Main result: after any run from an empty account, equity is the starting
      balance plus mark P&L plus funding minus the itemised entry and exit
      costs, and the balance is the starting balance minus opening fees plus
      the realised P&L of the closing fills. */
  lemma {:induction false} EveryRunExplained(venue: Venue, starting: real, evs: seq<Event>)
    ensures
      var acct := Run(venue, Empty(starting), evs);
      var j := Keep(venue, Empty(starting), evs);
      && Explains(acct, j)
      && Equity(acct) == starting + j.markPnl + j.funding - j.costs
      && acct.balance == starting - j.openingFees + j.closingPnl
    decreases |evs|
  {
    if evs != [] {
      var before := evs[..|evs| - 1];
      EveryRunExplained(venue, starting, before);
      StepExplained(venue, Run(venue, Empty(starting), before), Keep(venue, Empty(starting), before), evs[|evs| - 1]);
      StartingKept(venue, Empty(starting), before);
      StartingKept(venue, Empty(starting), evs);
    }
  }

  lemma {:induction false} StartingKept(venue: Venue, acct: Account, evs: seq<Event>)
    ensures Run(venue, acct, evs).starting == acct.starting
    decreases |evs|
  {
    if evs != [] {
      StartingKept(venue, acct, evs[..|evs| - 1]);
    }
  }
}
