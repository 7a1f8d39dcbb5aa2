/** What every run of the decision loop keeps, whatever the markets show and
    whatever the agent asks for. */
module DeskLaws {
  import opened Basics
  import opened Contracts
  import opened Slippage
  import opened Ledger
  import opened RiskGate
  import opened Sizing
  import CostModel
  import RoundTrip
  import Attribution
  import opened RiskBudget
  import opened Utf8
  import opened Audit
  import opened Feed
  import opened DecisionLoop

  // ------------------------------------------------------------- what is kept

  /** The mark a trade was sized at: its stop level is one stop distance away. */
  function EntryMark(s: Sized): real {
    if s.candidate.side == "long" then s.stopPrice + s.plan.stopDistance else s.stopPrice - s.plan.stopDistance
  }

  /** A position is the sized trade it was opened from, within the caps; its
      entry notional is its size at the mark it was opened at. */
  predicate Agrees(limits: Limits, asset: string, p: Pos, s: Sized) {
    && p.asset == asset && s.candidate.asset == asset
    && p.side == s.candidate.side && (p.side == "long" || p.side == "short")
    && p.qty == s.qty && p.qty > 0.0
    && p.stop == Some(s.stopPrice) && p.take == Some(s.takePrice) && p.plan == Some(s.plan)
    && s.notional == Value(p.qty, EntryMark(s)) && 0.0 < s.notional <= limits.maxNotional
  }

  predicate Mirrors(l: Link, p: Pos) {
    l.side == p.side && l.qty == p.qty && l.entryPrice == p.entryPrice && l.stop == p.stop && l.take == p.take
  }

  /** The account and the remembered sized trades cover the same assets. */
  predicate Booked(limits: Limits, acct: Account, sized: map<string, Sized>) {
    && sized.Keys == acct.positions.Keys
    && |acct.positions| <= (if limits.maxPositions >= 0 then limits.maxPositions else 0)
    && forall a :: a in acct.positions ==> Agrees(limits, a, acct.positions[a], sized[a])
  }

  /** So do the links of the board, when both the store and the board are on. */
  predicate Linked(rig: Rig, acct: Account, links: map<string, Link>) {
    if rig.auditing && rig.showing then
      && links.Keys == acct.positions.Keys
      && forall a :: a in acct.positions ==> Mirrors(links[a], acct.positions[a])
    else links == map[]
  }

  predicate Sound(rig: Rig, desk: Desk) {
    Booked(rig.limits, desk.acct, desk.sized) && Linked(rig, desk.acct, desk.board.links)
  }

  /** What an exception of the append leaves: one position that is open and
      remembered, but has no link; all limits still hold. */
  predicate Stranded(rig: Rig, desk: Desk, asset: string) {
    && Booked(rig.limits, desk.acct, desk.sized) && asset in desk.acct.positions
    && (if rig.showing then
          && desk.board.links.Keys == desk.acct.positions.Keys - {asset}
          && forall a :: a in desk.board.links ==> Mirrors(desk.board.links[a], desk.acct.positions[a])
        else desk.board.links == map[])
  }

  /** Snapshots are filed under their own asset and have non-negative marks. */
  predicate Filed(snaps: map<string, Market>) {
    forall a :: a in snaps ==> snaps[a].asset == a && snaps[a].mark >= 0.0
  }

  lemma {:induction false} FiledUnder(snaps: map<string, Market>, asset: string)
    requires Filed(snaps)
    ensures asset in snaps ==> snaps[asset].asset == asset && snaps[asset].mark >= 0.0
  {
  }

  predicate Quoted(quotes: Quotes) {
    forall a :: a in quotes ==> quotes[a].0.asset == a
  }

  predicate Reasonable(ev: Event) {
    ev.Pass? ==> Filed(ev.snaps) && Quoted(ev.quotes)
  }

  // ---------------------------------------------------------------- small steps

  /** Marking changes the mark, the funding and its clock, nothing else. */
  lemma {:induction false} TickKeepsTerms(venue: Venue, acct: Account, m: Market)
    ensures
      var after := Tick(venue, acct, m);
      && after.positions.Keys == acct.positions.Keys && |after.positions| == |acct.positions|
      && forall a :: a in acct.positions ==>
           var p, q := acct.positions[a], after.positions[a];
           && p.asset == q.asset && p.side == q.side && p.qty == q.qty && p.entryPrice == q.entryPrice
           && p.stop == q.stop && p.take == q.take && p.plan == q.plan && p.entryTime == q.entryTime
  {
    var after := Tick(venue, acct, m);
    assert after.positions.Keys == acct.positions.Keys;
    SameSize(acct.positions, after.positions);
  }

  lemma {:induction false} SameSize(ps: map<string, Pos>, qs: map<string, Pos>)
    requires ps.Keys == qs.Keys
    ensures |ps| == |qs|
  {
    assert |ps| == |ps.Keys| && |qs| == |qs.Keys|;
  }

  lemma {:induction false} Smaller(ps: map<string, Pos>, a: string)
    requires a in ps
    ensures |ps - {a}| == |ps| - 1
  {
    assert (ps - {a}).Keys == ps.Keys - {a};
    assert |ps| == |ps.Keys| && |ps - {a}| == |(ps - {a}).Keys|;
  }

  lemma {:induction false} Larger(ps: map<string, Pos>, a: string, p: Pos)
    requires a !in ps
    ensures |ps[a := p]| == |ps| + 1
  {
    assert ps[a := p].Keys == ps.Keys + {a};
    assert |ps| == |ps.Keys| && |ps[a := p]| == |ps[a := p].Keys|;
  }

  /** A long or short position of positive size closes at any non-negative mark. */
  lemma {:induction false} CloseSucceeds(venue: Venue, acct: Account, asset: string, m: Market)
    requires asset in acct.positions && acct.positions[asset].qty > 0.0
    requires m.asset == asset && m.mark >= 0.0
    ensures
      var closed := Close(venue, acct, asset, m);
      closed.result.Ok? && closed.account.positions == acct.positions - {asset}
  {
    var p := Accrue(venue, acct.positions[asset], m);
    assert p.qty == acct.positions[asset].qty;
    assert Value(p.qty, m.mark) >= 0.0;
    SlippageDefined(venue.schedule, venue.maths, Value(p.qty, m.mark), m);
  }

  /** And exactly then: a negative mark against a known depth is outside the
      domain of the impact formula, and the close raises. */
  lemma {:induction false} CloseRaisesIff(venue: Venue, acct: Account, asset: string, m: Market)
    requires asset in acct.positions && acct.positions[asset].qty > 0.0 && m.asset == asset
    ensures Close(venue, acct, asset, m).result.Err? <==> m.mark < 0.0 && m.depth.Some? && m.depth.value > EPS
  {
    var p := Accrue(venue, acct.positions[asset], m);
    assert p.qty == acct.positions[asset].qty;
    hide Accrue;
    ValueSign(p.qty, m.mark);
    if m.depth.Some? && m.depth.value > EPS {
      RatioSign(Value(p.qty, m.mark), m.depth.value);
      assert Value(p.qty, m.mark) / m.depth.value == Ratio(Value(p.qty, m.mark), m.depth.value);
      if m.mark < 0.0 {
        RatioSign(-Value(p.qty, m.mark), m.depth.value);
        assert Value(p.qty, m.mark) / m.depth.value == -((-Value(p.qty, m.mark)) / m.depth.value);
      }
    }
  }

  lemma {:induction false} ValueSign(qty: real, mark: real)
    requires qty > 0.0
    ensures Value(qty, mark) < 0.0 <==> mark < 0.0
  {
    assert mark >= 0.0 ==> qty * mark >= 0.0;
    assert mark < 0.0 ==> qty * -mark > 0.0;
  }

  lemma {:induction false} BookCloseSound(rig: Rig, before: Desk, acct: Account, asset: string, pre: Pos, fill: Fill,
                                          trigger: string, calls: seq<Attribution.Event>)
    requires Sound(rig, before) && asset in before.acct.positions
    requires acct.positions == before.acct.positions - {asset}
    ensures Sound(rig, BookClose(rig, before.(acct := acct, calls := calls), asset, Some(pre), fill, trigger))
  {
    hide Agrees, Mirrors, Recent, RecordDecision, ClosingEntry;
    Smaller(before.acct.positions, asset);
    var after := BookClose(rig, before.(acct := acct, calls := calls), asset, Some(pre), fill, trigger);
    assert after.sized.Keys == before.sized.Keys - {asset};
    if rig.auditing && rig.showing {
      assert after.board.links == before.board.links - {asset};
    } else {
      assert after.board.links == map[];
    }
  }

  /** A close asked for by a decision never raises and keeps the three books in
      step. */
  lemma {:induction false} CloseHeldSound(rig: Rig, desk: Desk, asset: string, m: Market, trigger: string)
    requires Sound(rig, desk) && asset in desk.acct.positions
    requires m.asset == asset && m.mark >= 0.0
    ensures
      var closed := CloseHeld(rig, desk, asset, m, trigger);
      closed.reply == Ok(Kept) && Sound(rig, closed.desk) && asset !in closed.desk.acct.positions
  {
    HeldPositive(rig, desk, asset);
    CloseSucceeds(rig.venue, desk.acct, asset, m);
    var closed := Close(rig.venue, desk.acct, asset, m);
    hide Close, BookClose, Sound;
    BookCloseSound(rig, desk, closed.account, asset, desk.acct.positions[asset], closed.result.value, trigger,
                   desk.calls + [Attribution.CloseEv(asset, m)]);
  }

  lemma {:induction false} CheckedStops(venue: Venue, acct: Account, asset: string, m: Market)
    requires asset in acct.positions ==> acct.positions[asset].qty > 0.0
    requires m.asset == asset && m.mark >= 0.0
    ensures
      var checked := CheckStops(venue, acct, m);
      if asset in acct.positions && Fires(acct.positions[asset], m.mark) then
        checked.result.Ok? && checked.result.value.Some? && checked.account.positions == acct.positions - {asset}
      else checked == Outcome(acct, Ok(None))
  {
    if asset in acct.positions && Fires(acct.positions[asset], m.mark) {
      hide Fires, Close;
      CloseSucceeds(venue, acct, asset, m);
    }
  }

  lemma {:induction false} MarkedSound(rig: Rig, desk: Desk, m: Market)
    requires Sound(rig, desk)
    ensures Sound(rig, Marked(rig, desk, m))
  {
    TickKeepsTerms(rig.venue, desk.acct, m);
    hide Tick;
  }

  lemma {:induction false} HeldPositive(rig: Rig, desk: Desk, asset: string)
    requires Sound(rig, desk) && asset in desk.acct.positions
    ensures desk.acct.positions[asset].qty > 0.0
  {
  }

  lemma {:induction false} SoundWithCalls(rig: Rig, desk: Desk, calls: seq<Attribution.Event>)
    requires Sound(rig, desk)
    ensures Sound(rig, desk.(calls := calls))
  {
    hide Booked, Linked;
  }

  lemma {:induction false} FireStopsSound(rig: Rig, desk: Desk, asset: string, m: Market)
    requires Sound(rig, desk) && m.asset == asset && m.mark >= 0.0
    ensures
      var fired := FireStops(rig, desk, asset, m);
      fired.reply == Ok(Kept) && Sound(rig, fired.desk)
  {
    if asset in desk.acct.positions {
      HeldPositive(rig, desk, asset);
    }
    CheckedStops(rig.venue, desk.acct, asset, m);
    hide Sound, CheckStops, Fires, BookClose, TriggerOf;
    var checked := CheckStops(rig.venue, desk.acct, m);
    var calls := desk.calls + [Attribution.CheckStopsEv(m)];
    if asset in desk.acct.positions && Fires(desk.acct.positions[asset], m.mark) {
      var pre, fill := desk.acct.positions[asset], checked.result.value.value;
      BookCloseSound(rig, desk, checked.account, asset, pre, fill, TriggerOf(pre, fill.price), calls);
    } else {
      SoundWithCalls(rig, desk, calls);
      assert desk.(acct := checked.account, calls := calls) == desk.(calls := calls);
    }
  }

  /** Marking an asset and firing its stop or take never raises and keeps the
      three books in step. */
  lemma {:induction false} TickAssetSound(rig: Rig, desk: Desk, asset: string, m: Market)
    requires Sound(rig, desk) && m.asset == asset && m.mark >= 0.0
    ensures
      var ticked := TickAsset(rig, desk, asset, m);
      ticked.reply == Ok(Kept) && Sound(rig, ticked.desk)
  {
    MarkedSound(rig, desk, m);
    hide Sound, Marked, FireStops;
    FireStopsSound(rig, Marked(rig, desk, m), asset, m);
  }

  // ------------------------------------------------------------------- entering

  /** A sized trade names its side, is measured at the mark, and has the mark
      strictly between its levels. */
  lemma {:induction false} SizedForEntry(sizer: Sizer, c: Candidate, m: Market, bars: seq<Bar>, equity: real,
                                         regime: Regime, tier: Tier)
    requires Size(sizer, c, m, bars, equity, regime, tier).Ok?
    ensures
      var s := Size(sizer, c, m, bars, equity, regime, tier).value;
      && s.candidate == c && (c.side == "long" || c.side == "short")
      && m.mark > 0.0 && m.mark == EntryMark(s) && s.notional == Value(s.qty, m.mark)
      && Sign(c.side) * (m.mark - s.stopPrice) > 0.0 && Sign(c.side) * (s.takePrice - m.mark) > 0.0
      && (s.qty > 0.0 ==> s.notional > 0.0)
  {
    SizedShape(sizer, c, m, bars, equity, regime, tier);
    hide Size, Value, Quantity, Sizing.RiskBudget, VolScale, RealizedVolAnnualized;
  }

  /** What a plan that goes through has passed. */
  lemma {:induction false} PlanPassed(rig: Rig, d: Decision, m: Market, quote: Option<(Forecast, Cost)>,
                                      btc: Option<Regime>, equity: real, held: bool, open: nat, exposure: real)
    ensures
      var plan := PlanOpen(rig, d, m, quote, btc, equity, held, open, exposure);
      && (plan.Raise? ==> quote.Some? && (quote.value.0.asset != m.asset))
      && (plan.Go? ==>
           && d.side.Some? && plan.sized.candidate.asset == d.asset && plan.sized.candidate.side == d.side.value
           && (d.side.value == "long" || d.side.value == "short")
           && m.mark > 0.0 && m.mark == EntryMark(plan.sized)
           && Sign(d.side.value) * (m.mark - plan.sized.stopPrice) > 0.0
           && Sign(d.side.value) * (plan.sized.takePrice - m.mark) > 0.0
           && plan.sized.qty > 0.0 && plan.sized.notional == Value(plan.sized.qty, m.mark)
           && 0.0 < plan.sized.notional <= rig.limits.maxNotional
           && exposure + plan.sized.notional <= rig.limits.maxExposure
           && !held && open < rig.limits.maxPositions)
  {
    if d.side.Some? && quote.Some? {
      var bars := Aggregate.Hourly(m.bars);
      var tier := Regimes.ClassifyTier(d.asset);
      var local := Regimes.Classify(bars, m.fundingRate, tier);
      if local.Ok? {
        var regime := EffectiveRegime(d.asset, local.value, btc);
        var seed := Seed(d, d.side.value, quote.value.1.notional, quote.value);
        hide Size, Regimes.Classify, Aggregate.Hourly, Regimes.ClassifyTier, EffectiveRegime;
        if Size(rig.sizer, seed, m, bars, equity, regime, tier).Ok? {
          SizedForEntry(rig.sizer, seed, m, bars, equity, regime, tier);
          var sized := Size(rig.sizer, seed, m, bars, equity, regime, tier).value;
          hide EntryMark, Gate;
          GatePassed(rig, d, d.side.value, m, quote.value, sized, held, open, exposure);
        }
      }
    }
  }

  /** The last gates let exactly those trades through that have a size, clear
      the edge floor after their own cost, and fit all the limits. */
  lemma {:induction false} GatePassed(rig: Rig, d: Decision, side: string, m: Market, quote: (Forecast, Cost),
                                      sized: Sized, held: bool, open: nat, exposure: real)
    requires sized.qty > 0.0 ==> sized.notional > 0.0
    ensures
      var plan := Gate(rig, d, side, m, quote, sized, held, open, exposure);
      var cost := CostModel.Assess(rig.cost, quote.0, m, sized.notional);
      && (plan.Raise? <==> sized.qty > 0.0 && quote.0.asset != m.asset)
      && (plan.Go? ==> plan.sized == sized)
      && (plan.Go? <==>
           && sized.qty > 0.0 && quote.0.asset == m.asset && cost.Ok?
             && RoundTrip.PromisedBps(quote.0) - cost.value.roundTripBps >= rig.limits.minEdgeBps
           && !held && open < rig.limits.maxPositions
           && sized.notional <= rig.limits.maxNotional && exposure + sized.notional <= rig.limits.maxExposure)
  {
    if sized.qty > 0.0 {
      SlippageDefined(rig.cost.schedule, rig.cost.maths, sized.notional, m);
      if quote.0.asset == m.asset {
        RoundTrip.QuoteAdds(rig.cost, quote.0, m, sized.notional);
      }
      hide SideSlippageBps, CostModel.FundingBps, RoundTrip.PromisedBps;
    }
  }

  /** Buying what the plan approved: the position is the sized trade. */
  lemma {:induction false} OpenSucceeds(venue: Venue, acct: Account, s: Sized, m: Market)
    requires s.candidate.asset == m.asset && m.asset !in acct.positions && s.qty > 0.0 && s.notional > 0.0
    ensures
      var bought := OpenSized(venue, acct, s, m);
      && bought.result.Ok? && m.asset in bought.account.positions
      && bought.account.positions == acct.positions[m.asset := bought.account.positions[m.asset]]
      && var p := bought.account.positions[m.asset];
         && p.asset == m.asset && p.side == s.candidate.side && p.qty == s.qty
         && p.entryPrice == bought.result.value.price && p.lastMark == m.mark
         && p.stop == Some(s.stopPrice) && p.take == Some(s.takePrice) && p.plan == Some(s.plan)
  {
    SlippageDefined(venue.schedule, venue.maths, s.notional, m);
  }

  /** A row is stored exactly when the agent's text, as far as it is kept, can be
      encoded and the database takes the row. */
  lemma {:induction false} StoredIff(rig: Rig, d: Decision, side: string, s: Sized, seal: Seal)
    ensures
      var stored := Stored(rig, d, side, s, seal);
      && (stored.Ok? <==> Storable(d, seal))
      && (stored.Ok? ==> stored.value.auditId == seal.auditId && stored.value.asset == d.asset)
      && (stored.Err? ==> stored.fault == UnicodeEncode || stored.fault == Storage)
  {
    hide Breakdown, Chars, Encodable, Shortened;
  }

  lemma {:induction false} FulfilShape(rig: Rig, desk: Desk, d: Decision, side: string, s: Sized, m: Market,
                                       edgeBps: real, seal: Seal)
    requires OpenSized(rig.venue, desk.acct, s, m).result.Ok?
    ensures
      var bought := OpenSized(rig.venue, desk.acct, s, m);
      var done := Fulfil(rig, desk, d, side, s, m, edgeBps, seal);
      var stored := Stored(rig, d, side, s, seal);
      && done.desk.acct == bought.account && done.desk.sized == desk.sized[d.asset := s]
      && done.reply == (if rig.auditing && stored.Err? then Err(stored.fault) else Ok(Kept))
      && done.desk.board.links == (if rig.auditing && rig.showing && stored.Ok?
                                   then desk.board.links[d.asset := LinkFor(side, s, bought.result.value, stored.value)]
                                   else desk.board.links)
      && (done.reply.Err? ==> done.desk.rows == desk.rows && done.desk.submitted == desk.submitted)
  {
    hide OpenSized, EntryFor, RecordDecision, Recent, Stored;
    var bought := OpenSized(rig.venue, desk.acct, s, m);
    var booked := Bought(rig, desk, d.asset, s, m).desk;
    assert Fulfil(rig, desk, d, side, s, m, edgeBps, seal)
        == Trail(rig, booked, d, side, s, bought.result.value, edgeBps, seal);
    assert booked.acct == bought.account && booked.board == desk.board && booked.rows == desk.rows;
    assert booked.submitted == desk.submitted && booked.sized == desk.sized[d.asset := s];
  }

  lemma {:induction false} BuySound(rig: Rig, desk: Desk, after: Desk, asset: string, p: Pos, s: Sized)
    requires Sound(rig, desk) && Agrees(rig.limits, asset, p, s)
    requires asset !in desk.acct.positions && |desk.acct.positions| < rig.limits.maxPositions
    requires after.acct.positions == desk.acct.positions[asset := p] && after.sized == desk.sized[asset := s]
    requires
      var links := after.board.links;
      if rig.auditing && rig.showing then
        asset in links && Mirrors(links[asset], p) && links == desk.board.links[asset := links[asset]]
      else links == desk.board.links
    ensures Sound(rig, after)
  {
    hide Agrees, Mirrors;
    Larger(desk.acct.positions, asset, p);
  }

  lemma {:induction false} BuyStrands(rig: Rig, desk: Desk, after: Desk, asset: string, p: Pos, s: Sized)
    requires Sound(rig, desk) && rig.auditing
    requires asset !in desk.acct.positions && |desk.acct.positions| < rig.limits.maxPositions
    requires Agrees(rig.limits, asset, p, s)
    requires after.acct.positions == desk.acct.positions[asset := p] && after.sized == desk.sized[asset := s]
    requires after.board.links == desk.board.links
    ensures Stranded(rig, after, asset) && (rig.showing ==> !Sound(rig, after))
  {
    hide Agrees, Mirrors;
    Larger(desk.acct.positions, asset, p);
  }

  /** Main result on a fill: it keeps the three books in step exactly when its
      row can be stored; otherwise the exception leaves the position stranded,
      with no row, no link and no submission. */
  lemma {:induction false} FulfilSound(rig: Rig, desk: Desk, d: Decision, side: string, s: Sized, m: Market,
                                       edgeBps: real, seal: Seal)
    requires Sound(rig, desk) && m.asset == d.asset && d.asset !in desk.acct.positions
    requires s.candidate.asset == d.asset && s.candidate.side == side && s.qty > 0.0
      && (side == "long" || side == "short")
    requires s.notional == Value(s.qty, EntryMark(s))
    requires 0.0 < s.notional <= rig.limits.maxNotional && |desk.acct.positions| < rig.limits.maxPositions
    ensures
      var done := Fulfil(rig, desk, d, side, s, m, edgeBps, seal);
      && done.desk.acct == OpenSized(rig.venue, desk.acct, s, m).account
      && (done.reply.Ok? <==> !rig.auditing || Storable(d, seal))
      && (done.reply.Ok? ==> done.reply == Ok(Kept) && Sound(rig, done.desk))
      && (done.reply.Err? ==>
            && (done.reply.fault == UnicodeEncode || done.reply.fault == Storage)
            && Stranded(rig, done.desk, d.asset) && (rig.showing ==> !Sound(rig, done.desk))
            && done.desk.rows == desk.rows && done.desk.submitted == desk.submitted)
  {
    OpenSucceeds(rig.venue, desk.acct, s, m);
    FulfilShape(rig, desk, d, side, s, m, edgeBps, seal);
    StoredIff(rig, d, side, s, seal);
    var bought := OpenSized(rig.venue, desk.acct, s, m);
    var p := bought.account.positions[d.asset];
    hide OpenSized, Fulfil, Stored, Storable;
    var done := Fulfil(rig, desk, d, side, s, m, edgeBps, seal);
    assert Agrees(rig.limits, d.asset, p, s);
    if done.reply.Err? {
      hide Booked, Linked, Agrees, Mirrors;
      BuyStrands(rig, desk, done.desk, d.asset, p, s);
    } else {
      var stored := Stored(rig, d, side, s, seal);
      assert stored.Ok? ==> Mirrors(LinkFor(side, s, bought.result.value, stored.value), p);
      hide Booked, Linked, Agrees, Mirrors, LinkFor;
      BuySound(rig, desk, done.desk, d.asset, p, s);
    }
  }

  /** The exposure the new position adds is its sized notional. */
  lemma {:induction false} ExposureAdds(venue: Venue, acct: Account, s: Sized, m: Market)
    requires s.candidate.asset == m.asset && m.asset !in acct.positions && s.qty > 0.0 && s.notional > 0.0
    requires s.notional == Value(s.qty, m.mark)
    ensures Exposure(OpenSized(venue, acct, s, m).account) == Exposure(acct) + s.notional
  {
    OpenSucceeds(venue, acct, s, m);
    var after := OpenSized(venue, acct, s, m).account;
    var p := after.positions[m.asset];
    hide OpenSized;
    assert MarkNotional(p) == s.notional;
    SumInsert(acct.positions, MarkNotional, m.asset, p);
  }

  /** Main result on one entry: it raises exactly when it opens a position whose
      row cannot be stored, and then the position is stranded. Otherwise it
      keeps the three books in step, and if it opened anything the exposure
      right afterwards is within the total cap; a veto leaves the desk as it
      was. */
  lemma {:induction false} EnterSound(rig: Rig, desk: Desk, d: Decision, m: Market, quotes: Quotes,
                                      btc: Option<Regime>, seal: Seal)
    requires Sound(rig, desk) && m.asset == d.asset && Quoted(quotes)
    ensures
      var done := EnterSized(rig, desk, d, m, quotes, btc, seal);
      && (done.reply.Err? <==> PlanAt(rig, desk, d, m, quotes, btc).Go? && rig.auditing && !Storable(d, seal))
      && (done.reply.Err? ==> Unrecorded(rig, desk, d.asset, done))
      && (done.reply.Ok? ==>
            && Sound(rig, done.desk)
            && (done.reply.value.Vetoed? ==> done.desk == desk)
            && (done.reply.value.Kept? ==> d.asset !in desk.acct.positions && d.asset in done.desk.acct.positions))
      && (done.desk != desk ==>
            && d.asset in done.desk.acct.positions && done.desk.acct.positions[d.asset].lastMark == m.mark
            && Exposure(done.desk.acct) <= rig.limits.maxExposure)
  {
    var acct := desk.acct;
    PlanPassed(rig, d, m, QuoteOf(quotes, d.asset), btc, Equity(acct), d.asset in acct.positions, |acct.positions|,
               Exposure(acct));
    QuotedUnder(quotes, d.asset);
    hide PlanOpen, Fulfil, Equity, Exposure, Sound, Storable, Stranded, EntryMark, Unrecorded, Quoted, Value;
    var plan := PlanAt(rig, desk, d, m, quotes, btc);
    if plan.Go? {
      GoSound(rig, desk, d, d.side.value, plan.sized, m, quotes[d.asset].1.edgeAfterCostBps, seal);
    }
  }

  lemma {:induction false} QuotedUnder(quotes: Quotes, asset: string)
    requires Quoted(quotes)
    ensures asset in quotes ==> quotes[asset].0.asset == asset
  {
  }

  /** A trade the plan let through. */
  lemma {:induction false} GoSound(rig: Rig, desk: Desk, d: Decision, side: string, s: Sized, m: Market, edgeBps: real,
                                   seal: Seal)
    requires Sound(rig, desk) && m.asset == d.asset && d.asset !in desk.acct.positions
    requires s.candidate.asset == d.asset && s.candidate.side == side && s.qty > 0.0
      && (side == "long" || side == "short")
    requires m.mark == EntryMark(s) && s.notional == Value(s.qty, m.mark)
    requires 0.0 < s.notional <= rig.limits.maxNotional && |desk.acct.positions| < rig.limits.maxPositions
    requires Exposure(desk.acct) + s.notional <= rig.limits.maxExposure
    ensures
      var done := Fulfil(rig, desk, d, side, s, m, edgeBps, seal);
      && (done.reply.Err? <==> rig.auditing && !Storable(d, seal))
      && (done.reply.Err? ==> Unrecorded(rig, desk, d.asset, done))
      && (done.reply.Ok? ==> done.reply == Ok(Kept) && Sound(rig, done.desk))
      && d.asset in done.desk.acct.positions && done.desk.acct.positions[d.asset].lastMark == m.mark
      && Exposure(done.desk.acct) <= rig.limits.maxExposure
  {
    hide Fulfil, OpenSized, Exposure, Sound, Storable, Stranded, Value, EntryMark;
    FulfilSound(rig, desk, d, side, s, m, edgeBps, seal);
    OpenSucceeds(rig.venue, desk.acct, s, m);
    ExposureAdds(rig.venue, desk.acct, s, m);
  }

  /** The outcome of an entry whose row could not be stored. */
  predicate Unrecorded(rig: Rig, before: Desk, asset: string, done: Applied) {
    && done.reply.Err? && (done.reply.fault == UnicodeEncode || done.reply.fault == Storage)
    && Stranded(rig, done.desk, asset) && (rig.showing ==> !Sound(rig, done.desk))
    && done.desk.rows == before.rows && done.desk.submitted == before.submitted
  }

  /** Without equity nothing is opened. */
  lemma {:induction false} NoEquityNoOpen(rig: Rig, desk: Desk, d: Decision, m: Market, quotes: Quotes,
                                          btc: Option<Regime>, seal: Seal)
    requires rig.sizer.config.baseRisk >= 0.0 && rig.sizer.config.volTarget >= 0.0
      && rig.sizer.config.volScaleCap >= 0.0
    requires Equity(desk.acct) <= 0.0
    ensures EnterSized(rig, desk, d, m, quotes, btc, seal).desk == desk
  {
    var quote := QuoteOf(quotes, d.asset);
    if d.side.Some? && quote.Some? {
      var bars := Aggregate.Hourly(m.bars);
      var tier := Regimes.ClassifyTier(d.asset);
      var local := Regimes.Classify(bars, m.fundingRate, tier);
      if local.Ok? {
        var regime := EffectiveRegime(d.asset, local.value, btc);
        var seed := Seed(d, d.side.value, quote.value.1.notional, quote.value);
        hide Size, Regimes.Classify, Aggregate.Hourly, Regimes.ClassifyTier, EffectiveRegime, Equity, Exposure, Fulfil;
        if Size(rig.sizer, seed, m, bars, Equity(desk.acct), regime, tier).Ok? {
          NoEquityNoQuantity(rig.sizer, seed, m, bars, Equity(desk.acct), regime, tier);
        }
      }
    }
  }

  // ------------------------------------------------------------------ whole runs

  /** The decision reaches the pipeline and the pipeline lets it through. */
  ghost predicate Opens(rig: Rig, desk: Desk, d: Decision, m: Market, quotes: Quotes, btc: Option<Regime>) {
    if d.asset !in desk.acct.positions then
      (d.action == "enter" || d.action == "flip") && PlanAt(rig, desk, d, m, quotes, btc).Go?
    else
      d.action == "flip" && PlanAt(rig, CloseHeld(rig, desk, d.asset, m, "flip").desk, d, m, quotes, btc).Go?
  }

  lemma {:induction false} CloseKeepsTrail(rig: Rig, desk: Desk, asset: string, m: Market, trigger: string)
    requires asset in desk.acct.positions
    ensures
      var closed := CloseHeld(rig, desk, asset, m, trigger).desk;
      closed.rows == desk.rows && closed.submitted == desk.submitted
  {
    hide Close, RecordClose, Recent;
  }

  /** Main result on one decision, however malformed or stale: it raises exactly
      when it opens a position whose row cannot be stored. */
  lemma {:induction false} ApplySound(rig: Rig, desk: Desk, d: Decision, m: Market, quotes: Quotes,
                                      btc: Option<Regime>, seal: Seal)
    requires Sound(rig, desk) && m.asset == d.asset && m.mark >= 0.0 && Quoted(quotes)
    ensures
      var done := Apply(rig, desk, d, m, quotes, btc, seal);
      && (done.reply.Err? <==> Opens(rig, desk, d, m, quotes, btc) && rig.auditing && !Storable(d, seal))
      && (done.reply.Err? ==> Unrecorded(rig, desk, d.asset, done))
      && (done.reply.Ok? ==> Sound(rig, done.desk))
  {
    hide EnterSized, CloseHeld, Sound, PlanAt, Storable, Stranded;
    var held := d.asset in desk.acct.positions;
    if held {
      CloseHeldSound(rig, desk, d.asset, m, "cut");
      CloseHeldSound(rig, desk, d.asset, m, "flip");
      CloseKeepsTrail(rig, desk, d.asset, m, "flip");
      EnterSound(rig, CloseHeld(rig, desk, d.asset, m, "flip").desk, d, m, quotes, btc, seal);
    } else {
      EnterSound(rig, desk, d, m, quotes, btc, seal);
    }
  }

  lemma {:induction false} TickAllSound(rig: Rig, desk: Desk, snaps: map<string, Market>, order: seq<string>)
    requires Sound(rig, desk) && Filed(snaps)
    ensures
      var ticked := TickAll(rig, desk, snaps, order);
      ticked.reply == Ok(Kept) && Sound(rig, ticked.desk)
    decreases |order|
  {
    if order != [] {
      hide Sound, TickAsset;
      TickAllSound(rig, desk, snaps, order[..|order| - 1]);
      var asset := order[|order| - 1];
      if asset in snaps {
        TickAssetSound(rig, TickAll(rig, desk, snaps, order[..|order| - 1]).desk, asset, snaps[asset]);
      }
    }
  }

  /** The rows of all these decisions could be stored. */
  predicate AllStorable(rig: Rig, ds: Proposals) {
    rig.auditing ==> forall i :: 0 <= i < |ds| ==> Storable(ds[i].0, ds[i].1)
  }

  /** A run that ended in an exception ended in one of the append, after a fill
      whose row was refused. */
  predicate EndedStranded(rig: Rig, drained: Drained, ds: Proposals) {
    && drained.fault.Some? && (drained.fault.value == UnicodeEncode || drained.fault.value == Storage) && rig.auditing
    && exists i :: 0 <= i < |ds| && !Storable(ds[i].0, ds[i].1) && Stranded(rig, drained.desk, ds[i].0.asset)
  }

  lemma {:induction false} EndedLater(rig: Rig, drained: Drained, earlier: Proposals, last: (Decision,
                                      Seal))
    requires EndedStranded(rig, drained, earlier)
    ensures EndedStranded(rig, drained, earlier + [last])
  {
    hide Storable, Stranded;
    var ds := earlier + [last];
    var i :| 0 <= i < |earlier| && !Storable(earlier[i].0, earlier[i].1)
      && Stranded(rig, drained.desk, earlier[i].0.asset);
    assert ds[i] == earlier[i];
  }

  lemma {:induction false} DrainOneSound(rig: Rig, before: Drained, snaps: map<string, Market>, quotes: Quotes,
                                         ds: Proposals, i: nat)
    requires i < |ds| && Filed(snaps) && Quoted(quotes)
    requires before.fault.None? ==> Sound(rig, before.desk)
    requires before.fault.Some? ==> EndedStranded(rig, before, ds)
    ensures
      var after := DrainOne(rig, before, snaps, quotes, ds[i].0, ds[i].1);
      && (before.fault.Some? ==> after == before)
      && (after.fault.None? ==> Sound(rig, after.desk) && |after.replies| == |before.replies| + 1)
      && (after.fault.Some? ==> EndedStranded(rig, after, ds))
  {
    FiledUnder(snaps, ds[i].0.asset);
    hide Sound, EndedStranded, Apply, BtcRegime, Filed, Quoted;
    if before.fault.None? && ds[i].0.asset in snaps {
      LastSound(rig, before.desk, snaps[ds[i].0.asset], quotes, BtcRegime(snaps), ds, i, before.replies);
    }
  }

  lemma {:induction false} DrainSound(rig: Rig, desk: Desk, snaps: map<string, Market>, quotes: Quotes, ds: Proposals)
    requires Sound(rig, desk) && Filed(snaps) && Quoted(quotes)
    ensures
      var drained := Drain(rig, desk, snaps, quotes, ds);
      && (drained.fault.None? ==> Sound(rig, drained.desk) && |drained.replies| == |ds|)
      && (drained.fault.Some? ==> EndedStranded(rig, drained, ds))
    decreases |ds|
  {
    hide Sound, EndedStranded, Filed, Quoted, DrainOne;
    if ds != [] {
      var earlier, last := ds[..|ds| - 1], ds[|ds| - 1];
      var before := Drain(rig, desk, snaps, quotes, earlier);
      DrainSound(rig, desk, snaps, quotes, earlier);
      if before.fault.Some? {
        EndedLater(rig, before, earlier, last);
        assert ds == earlier + [last];
      }
      DrainOneSound(rig, before, snaps, quotes, ds, |ds| - 1);
    }
  }

  lemma {:induction false} LastSound(rig: Rig, desk: Desk, m: Market, quotes: Quotes, btc: Option<Regime>,
                                     ds: Proposals, i: nat, replies: seq<Reply>)
    requires Sound(rig, desk) && Quoted(quotes)
    requires i < |ds| && m.asset == ds[i].0.asset && m.mark >= 0.0
    ensures
      var done := Apply(rig, desk, ds[i].0, m, quotes, btc, ds[i].1);
      && (done.reply.Ok? ==> Sound(rig, done.desk))
      && (done.reply.Err? ==> EndedStranded(rig, Drained(done.desk, replies, Some(done.reply.fault)), ds))
  {
    hide *;
    ApplySound(rig, desk, ds[i].0, m, quotes, btc, ds[i].1);
    var done := Apply(rig, desk, ds[i].0, m, quotes, btc, ds[i].1);
    if done.reply.Err? {
      EndsHere(rig, desk, done, replies, ds, i);
    }
  }

  lemma {:induction false} EndsHere(rig: Rig, before: Desk, done: Applied, replies: seq<Reply>, ds: Proposals, i: nat)
    requires i < |ds| && rig.auditing && !Storable(ds[i].0, ds[i].1) && Unrecorded(rig, before, ds[i].0.asset, done)
    ensures EndedStranded(rig, Drained(done.desk, replies, Some(done.reply.fault)), ds)
  {
    hide Storable, Stranded, Sound;
  }

  function DecisionsOf(ev: Event): Proposals {
    if ev.Pass? && ev.ds.Some? then ev.ds.value else []
  }

  lemma {:induction false} StampSound(rig: Rig, desk: Desk, asset: Option<string>, auditId: string, anchor: Anchor)
    requires Sound(rig, desk)
    ensures Sound(rig, desk.(board := UpdateAnchor(desk.board, asset, auditId, anchor)))
  {
    hide Booked, Stamp;
  }

  lemma {:induction false} AdvanceSound(rig: Rig, desk: Desk, ev: Event)
    requires Sound(rig, desk) && Reasonable(ev)
    ensures
      var after := Advance(rig, desk, ev);
      && (after.fault.None? ==> Sound(rig, after.desk))
      && (after.fault.Some? ==> EndedStranded(rig, after, DecisionsOf(ev)))
  {
    hide Sound, TickAll, Drain, UpdateAnchor, EndedStranded;
    match ev
    case AnchorResult(asset, auditId, anchor) => StampSound(rig, desk, asset, auditId, anchor);
    case Pass(snaps, order, quotes, ds) =>
      TickAllSound(rig, desk, snaps, order);
      if ds.Some? {
        DrainSound(rig, TickAll(rig, desk, snaps, order).desk, snaps, quotes, ds.value);
      }
  }

  lemma {:induction false} FreshSound(rig: Rig, starting: real, feed: seq<Entry>, rows: seq<AuditRecord>)
    ensures Sound(rig, Fresh(starting, feed, rows))
  {
  }

  /** Main result: over every run, no exception of the executor or of the cost
      model is reachable. While nothing is raised, at most max_positions
      positions are open, each of positive size and within the notional cap,
      and the positions, the remembered sized trades and the board's links
      cover the same assets with the same side, size, entry, stop and take.
      The one exception a run can end in is that of the append, in a pass with
      a decision whose row cannot be stored; it strands that one position. */
  lemma {:induction false} EveryRunSound(rig: Rig, starting: real, feed: seq<Entry>, rows: seq<AuditRecord>,
                                         evs: seq<Event>)
    requires forall i :: 0 <= i < |evs| ==> Reasonable(evs[i])
    ensures
      var ran := RunDesk(rig, Fresh(starting, feed, rows), evs);
      && (ran.fault.None? ==> Sound(rig, ran.desk))
      && (ran.fault.Some? ==> exists i :: 0 <= i < |evs| && EndedStranded(rig, ran, DecisionsOf(evs[i])))
    decreases |evs|
  {
    if evs == [] {
      FreshSound(rig, starting, feed, rows);
    } else {
      var before := evs[..|evs| - 1];
      EveryRunSound(rig, starting, feed, rows, before);
      hide Sound, Advance, Reasonable, EndedStranded, DecisionsOf;
      var so := RunDesk(rig, Fresh(starting, feed, rows), before);
      if so.fault.Some? {
        var i :| 0 <= i < |before| && EndedStranded(rig, so, DecisionsOf(before[i]));
        assert evs[i] == before[i];
      } else {
        AdvanceSound(rig, so.desk, evs[|evs| - 1]);
      }
    }
  }

  /** So a run whose decisions can all be stored never raises and always keeps
      the books in step. */
  lemma {:induction false} StorableRunSound(rig: Rig, starting: real, feed: seq<Entry>, rows: seq<AuditRecord>,
                                            evs: seq<Event>)
    requires forall i :: 0 <= i < |evs| ==> Reasonable(evs[i]) && AllStorable(rig, DecisionsOf(evs[i]))
    ensures
      var ran := RunDesk(rig, Fresh(starting, feed, rows), evs);
      ran.fault.None? && Sound(rig, ran.desk)
  {
    EveryRunSound(rig, starting, feed, rows, evs);
    hide RunDesk, Sound, DecisionsOf, EndedStranded, AllStorable;
    var ran := RunDesk(rig, Fresh(starting, feed, rows), evs);
    forall i | 0 <= i < |evs| ensures !EndedStranded(rig, ran, DecisionsOf(evs[i])) {
      NeverStranded(rig, ran, DecisionsOf(evs[i]));
    }
  }

  lemma {:induction false} NeverStranded(rig: Rig, drained: Drained, ds: Proposals)
    requires AllStorable(rig, ds)
    ensures !EndedStranded(rig, drained, ds)
  {
    hide Storable, Stranded;
  }
}
