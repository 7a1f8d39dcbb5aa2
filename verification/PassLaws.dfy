/** What one pass over the open positions does: which of them it closes, in
    terms of the marks and levels alone, what it leaves in the account whatever
    the order it walks in, and that decisions are applied one after another. */
module PassLaws {
  import opened Basics
  import opened Contracts
  import opened Slippage
  import opened Ledger
  import opened Sizing
  import opened RiskBudget
  import opened LedgerLaws
  import opened DecisionLoop
  import opened DeskLaws
  import opened DeskTrail
  import Attribution

  // ------------------------------------------------------------ when stops raise

  /** The stop check raises exactly when a level is reached at a negative mark against a
      known depth. */
  lemma {:induction false} CheckRaisesIff(venue: Venue, acct: Account, m: Market)
    requires m.asset in acct.positions && acct.positions[m.asset].qty > 0.0
    requires acct.positions[m.asset].side == "long" || acct.positions[m.asset].side == "short"
    ensures CheckStops(venue, acct, m).result.Err?
       <==> !Inside(acct.positions[m.asset], m.mark) && m.mark < 0.0 && m.depth.Some? && m.depth.value > EPS
  {
    CloseRaisesIff(venue, acct, m.asset, m);
    hide Close;
  }

  // ------------------------------------------------------- the pass, order-free

  /** The pass closes this position. */
  predicate Fired(p: Pos, snaps: map<string, Market>) {
    p.asset in snaps && !Inside(p, snaps[p.asset].mark)
  }

  /** What the pass books on a position: the closing fill of the position
      rolled to its snapshot, if a level was reached. */
  function Booking(venue: Venue, p: Pos, snaps: map<string, Market>): real {
    if Fired(p, snaps) then
      var m := snaps[p.asset];
      ClosingFill(venue, Accrue(venue, p, m), m, Attribution.SlipFraction(venue, Value(p.qty, m.mark), m)).realizedPnl
    else 0.0
  }

  function Rolled(venue: Venue, p: Pos, snaps: map<string, Market>): Pos {
    if p.asset in snaps then Accrue(venue, p, snaps[p.asset]) else p
  }

  lemma {:induction false} AccrueTwice(venue: Venue, p: Pos, m: Market)
    ensures Accrue(venue, Accrue(venue, p, m), m) == Accrue(venue, p, m)
  {
  }

  lemma {:induction false} AccrueKeepsTerms(venue: Venue, p: Pos, m: Market)
    ensures
      var q := Accrue(venue, p, m);
      && q.asset == p.asset && q.side == p.side && q.qty == p.qty && q.stop == p.stop && q.take == p.take
      && (Inside(q, m.mark) <==> Inside(p, m.mark))
  {
  }

  /** A long or short position of positive size, filed under its asset. */
  predicate Live(p: Pos, asset: string) {
    p.asset == asset && p.qty > 0.0 && (p.side == "long" || p.side == "short")
  }

  lemma {:induction false} ClosedAt(venue: Venue, acct: Account, m: Market)
    requires m.asset in acct.positions && Live(acct.positions[m.asset], m.asset) && m.mark >= 0.0
    ensures
      var p := acct.positions[m.asset];
      var slip := Attribution.SlipFraction(venue, Value(p.qty, m.mark), m);
      Close(venue, acct, m.asset, m)
        == Outcome(acct.(balance := acct.balance + ClosingFill(venue, Accrue(venue, p, m), m, slip).realizedPnl,
                         positions := acct.positions - {m.asset}),
                   Ok(ClosingFill(venue, Accrue(venue, p, m), m, slip)))
  {
    var p := acct.positions[m.asset];
    AccrueKeepsTerms(venue, p, m);
    assert Value(p.qty, m.mark) >= 0.0;
    SlippageDefined(venue.schedule, venue.maths, Value(p.qty, m.mark), m);
    hide SideSlippageBps, ClosingFill, Accrue, Value;
  }

  /** Marking one asset and firing its levels. */
  lemma {:induction false} TickAssetAccount(rig: Rig, desk: Desk, snaps: map<string, Market>, asset: string)
    requires asset in desk.acct.positions && Live(desk.acct.positions[asset], asset)
    requires asset in snaps && snaps[asset].asset == asset && snaps[asset].mark >= 0.0
    ensures
      var before, after := desk.acct, TickAsset(rig, desk, asset, snaps[asset]).desk.acct;
      var p := before.positions[asset];
      after == before.(balance := before.balance + Booking(rig.venue, p, snaps),
                       positions := if Fired(p, snaps) then before.positions - {asset}
                                    else before.positions[asset := Rolled(rig.venue, p, snaps)])
  {
    var p, m := desk.acct.positions[asset], snaps[asset];
    var q := Accrue(rig.venue, p, m);
    var marked := Tick(rig.venue, desk.acct, m);
    Attribution.TickAccrues(rig.venue, desk.acct, m);
    AccrueKeepsTerms(rig.venue, p, m);
    AccrueTwice(rig.venue, p, m);
    hide Tick, Accrue, AfterCheck, Close, ClosingFill, Value, Attribution.SlipFraction;
    CheckRaisesIff(rig.venue, marked, m);
    StillHeldIff(rig.venue, marked, m);
    if Fired(p, snaps) {
      ClosedAt(rig.venue, marked, m);
      hide Fires;
      assert marked.positions - {asset} == desk.acct.positions - {asset};
    }
    hide CheckStops, Inside;
    assert TickAsset(rig, desk, asset, m).desk.acct == CheckStops(rig.venue, marked, m).account by {
      AfterCheckAccount(rig, desk, asset, m);
    }
  }

  lemma {:induction false} AfterCheckAccount(rig: Rig, desk: Desk, asset: string, m: Market)
    ensures TickAsset(rig, desk, asset, m).desk.acct
         == CheckStops(rig.venue, Tick(rig.venue, desk.acct, m), m).account
  {
    hide CheckStops, Tick, Recent, TriggerOf;
  }

  predicate AllLive(ps: map<string, Pos>) {
    forall a :: a in ps ==> Live(ps[a], a)
  }

  /** The positions a walk over some assets leaves. */
  function Survivors(venue: Venue, ps: map<string, Pos>, snaps: map<string, Market>, seen: set<string>)
    : map<string, Pos>
  {
    map a | a in ps && !(a in seen && Fired(ps[a], snaps)) :: if a in seen then Rolled(venue, ps[a], snaps) else ps[a]
  }

  function Only(ps: map<string, Pos>, seen: set<string>): map<string, Pos> {
    map a | a in ps && a in seen :: ps[a]
  }

  /** The account a walk over some assets leaves, without any order. */
  ghost function Walked(venue: Venue, acct: Account, snaps: map<string, Market>, seen: set<string>): Account {
    acct.(balance := acct.balance + SumOver(Only(acct.positions, seen), p => Booking(venue, p, snaps)),
          positions := Survivors(venue, acct.positions, snaps, seen))
  }

  lemma {:induction false} WalkedNone(venue: Venue, acct: Account, snaps: map<string, Market>)
    ensures Walked(venue, acct, snaps, {}) == acct
  {
    assert Survivors(venue, acct.positions, snaps, {}) == acct.positions;
    assert Only(acct.positions, {}) == map[];
  }

  lemma {:induction false} SurvivorsMore(venue: Venue, ps: map<string, Pos>, snaps: map<string, Market>,
                                         seen: set<string>, a: string)
    requires AllLive(ps) && a in ps && a !in seen
    ensures
      var before, after := Survivors(venue, ps, snaps, seen), Survivors(venue, ps, snaps, seen + {a});
      && a in before && before[a] == ps[a]
      && after == if Fired(ps[a], snaps) then before - {a} else before[a := Rolled(venue, ps[a], snaps)]
  {
    hide Fired, Rolled;
  }

  lemma {:induction false} BookingMore(venue: Venue, ps: map<string, Pos>, snaps: map<string, Market>,
                                       seen: set<string>, a: string)
    requires a in ps && a !in seen
    ensures SumOver(Only(ps, seen + {a}), p => Booking(venue, p, snaps))
         == SumOver(Only(ps, seen), p => Booking(venue, p, snaps)) + Booking(venue, ps[a], snaps)
  {
    hide Booking;
    SumInsert(Only(ps, seen), p => Booking(venue, p, snaps), a, ps[a]);
    assert Only(ps, seen + {a}) == Only(ps, seen)[a := ps[a]];
  }

  lemma {:induction false} BookNothing(venue: Venue, p: Pos, snaps: map<string, Market>)
    requires p.asset !in snaps
    ensures Booking(venue, p, snaps) == 0.0 && Rolled(venue, p, snaps) == p && !Fired(p, snaps)
  {
  }

  lemma {:induction false} WalkedMore(rig: Rig, acct: Account, desk: Desk, snaps: map<string, Market>,
                                      seen: set<string>, a: string)
    requires AllLive(acct.positions) && Filed(snaps) && a in acct.positions && a !in seen
    requires desk.acct == Walked(rig.venue, acct, snaps, seen)
    ensures
      var after := if a in snaps then TickAsset(rig, desk, a, snaps[a]).desk.acct else desk.acct;
      after == Walked(rig.venue, acct, snaps, seen + {a})
  {
    SurvivorsMore(rig.venue, acct.positions, snaps, seen, a);
    BookingMore(rig.venue, acct.positions, snaps, seen, a);
    var p := acct.positions[a];
    assert p.asset == a;
    if a in snaps {
      FiledUnder(snaps, a);
      hide TickAsset, Booking, Rolled, Fired, Filed, Only, Survivors;
      TickAssetAccount(rig, desk, snaps, a);
    } else {
      BookNothing(rig.venue, p, snaps);
      hide Booking, Rolled, Fired, Filed, Only, Survivors;
      assert desk.acct.positions[a := p] == desk.acct.positions;
    }
  }

  function Visited(order: seq<string>): set<string> {
    set a | a in order
  }

  predicate Once(order: seq<string>) {
    forall i, j :: 0 <= i < j < |order| ==> order[i] != order[j]
  }

  lemma {:induction false} SoundLive(rig: Rig, desk: Desk)
    requires Sound(rig, desk)
    ensures AllLive(desk.acct.positions)
  {
  }

  lemma {:induction false} TickAllNext(rig: Rig, desk: Desk, snaps: map<string, Market>, order: seq<string>)
    requires Sound(rig, desk) && Filed(snaps) && order != []
    ensures
      var before, a := TickAll(rig, desk, snaps, order[..|order| - 1]).desk, order[|order| - 1];
      TickAll(rig, desk, snaps, order).desk
        == if a in snaps then TickAsset(rig, before, a, snaps[a]).desk else before
  {
    TickAllSound(rig, desk, snaps, order[..|order| - 1]);
    hide TickAsset, Sound, Filed;
  }

  lemma {:induction false} WalkIs(rig: Rig, desk: Desk, snaps: map<string, Market>, order: seq<string>)
    requires Sound(rig, desk) && Filed(snaps) && Once(order)
    requires forall a :: a in order ==> a in desk.acct.positions
    ensures TickAll(rig, desk, snaps, order).desk.acct == Walked(rig.venue, desk.acct, snaps, Visited(order))
    decreases |order|
  {
    if order == [] {
      WalkedNone(rig.venue, desk.acct, snaps);
      assert Visited(order) == {};
    } else {
      var before, a := order[..|order| - 1], order[|order| - 1];
      assert Visited(order) == Visited(before) + {a};
      hide Walked, TickAsset, TickAll, Sound, Filed, AllLive, Visited;
      WalkIs(rig, desk, snaps, before);
      SoundLive(rig, desk);
      TickAllNext(rig, desk, snaps, order);
      WalkedMore(rig, desk.acct, TickAll(rig, desk, snaps, before).desk, snaps, Visited(before), a);
    }
  }

  /** Main result on the pass: whatever the order of the walk, the positions left
      are those whose mark lies inside their levels, each rolled to its own
      snapshot, and the balance has moved by what the others closed at. */
  lemma {:induction false} PassAccount(rig: Rig, desk: Desk, snaps: map<string, Market>, order: seq<string>)
    requires Sound(rig, desk) && Filed(snaps) && Once(order)
    requires forall a :: a in order <==> a in desk.acct.positions
    ensures
      var before, after := desk.acct, TickAll(rig, desk, snaps, order).desk.acct;
      && after.balance == before.balance + SumOver(before.positions, p => Booking(rig.venue, p, snaps))
      && (forall a :: a in after.positions <==>
            a in before.positions && (a in snaps ==> Inside(before.positions[a], snaps[a].mark)))
      && (forall a :: a in after.positions ==>
            after.positions[a] == (if a in snaps then Accrue(rig.venue, before.positions[a], snaps[a])
                                   else before.positions[a]))
  {
    hide TickAll, Booking, Inside, Accrue, Sound, Filed, SumOver;
    WalkIs(rig, desk, snaps, order);
    SoundLive(rig, desk);
    assert Only(desk.acct.positions, Visited(order)) == desk.acct.positions;
  }

  /** So no two orders of the walk differ in what the account is worth. */
  lemma {:induction false} OrderDoesNotMatter(rig: Rig, desk: Desk, snaps: map<string, Market>, order: seq<string>,
                                              order': seq<string>)
    requires Sound(rig, desk) && Filed(snaps) && Once(order) && Once(order')
    requires forall a :: (a in order <==> a in desk.acct.positions) && (a in order' <==> a in desk.acct.positions)
    ensures TickAll(rig, desk, snaps, order).desk.acct == TickAll(rig, desk, snaps, order').desk.acct
  {
    WalkIs(rig, desk, snaps, order);
    WalkIs(rig, desk, snaps, order');
    assert Visited(order) == Visited(order');
    hide TickAll, Walked;
  }

  // ------------------------------------------------- where a pass leaves the marks

  /** Every position with a snapshot has both levels, and the snapshot's mark
      strictly between them. */
  predicate Contained(desk: Desk, snaps: map<string, Market>) {
    forall a :: a in desk.acct.positions && a in snaps ==> Bracketed(desk.acct.positions[a], snaps[a].mark)
  }

  predicate Bracketed(p: Pos, mark: real) {
    && p.stop.Some? && p.take.Some?
    && Sign(p.side) * (mark - p.stop.value) > 0.0 && Sign(p.side) * (p.take.value - mark) > 0.0
  }

  lemma {:induction false} WalkContains(rig: Rig, desk: Desk, snaps: map<string, Market>, order: seq<string>)
    requires Sound(rig, desk) && Filed(snaps) && Once(order)
    requires forall a :: a in order <==> a in desk.acct.positions
    ensures Contained(TickAll(rig, desk, snaps, order).desk, snaps)
  {
    PassAccount(rig, desk, snaps, order);
    TickAllSound(rig, desk, snaps, order);
    var after := TickAll(rig, desk, snaps, order).desk;
    forall a | a in after.acct.positions && a in snaps
      ensures Bracketed(after.acct.positions[a], snaps[a].mark)
    {
      AccrueKeepsTerms(rig.venue, desk.acct.positions[a], snaps[a]);
      assert Agrees(rig.limits, a, after.acct.positions[a], after.sized[a]);
    }
  }

  lemma {:induction false} EnterBracketed(rig: Rig, desk: Desk, d: Decision, m: Market, quotes: Quotes,
                                          btc: Option<Contracts.Regime>, seal: Seal)
    requires m.asset == d.asset
    ensures
      var after := EnterSized(rig, desk, d, m, quotes, btc, seal).desk.acct.positions;
      d.asset in after && d.asset !in desk.acct.positions ==> Bracketed(after[d.asset], m.mark)
  {
    var acct := desk.acct;
    PlanPassed(rig, d, m, QuoteOf(quotes, d.asset), btc, Equity(acct), d.asset in acct.positions, |acct.positions|,
               Exposure(acct));
    hide PlanOpen, Equity, Exposure, OpenSized, EntryMark;
    var plan := PlanAt(rig, desk, d, m, quotes, btc);
    if plan.Go? {
      var s := plan.sized;
      OpenSucceeds(rig.venue, acct, s, m);
      FulfilAccount(rig, desk, d, d.side.value, s, m, quotes[d.asset].1.edgeAfterCostBps, seal);
      hide PlanAt, Fulfil;
    }
  }

  lemma {:induction false} EnterContains(rig: Rig, desk: Desk, d: Decision, snaps: map<string, Market>,
                                         quotes: Quotes, btc: Option<Contracts.Regime>, seal: Seal)
    requires d.asset in snaps && snaps[d.asset].asset == d.asset && d.asset !in desk.acct.positions
    requires Contained(desk, snaps)
    ensures Contained(EnterSized(rig, desk, d, snaps[d.asset], quotes, btc, seal).desk, snaps)
  {
    hide EnterSized, Bracketed;
    EnterTouches(rig, desk, d, snaps[d.asset], quotes, btc, seal);
    EnterBracketed(rig, desk, d, snaps[d.asset], quotes, btc, seal);
  }

  lemma {:induction false} CloseContains(rig: Rig, desk: Desk, asset: string, snaps: map<string, Market>,
                                         trigger: string)
    requires Sound(rig, desk) && Filed(snaps) && asset in snaps && Contained(desk, snaps)
    requires asset in desk.acct.positions
    ensures
      var closed := CloseHeld(rig, desk, asset, snaps[asset], trigger).desk;
      Contained(closed, snaps) && asset !in closed.acct.positions
  {
    FiledUnder(snaps, asset);
    hide CloseHeld, Sound, Bracketed, Filed;
    CloseHeldSound(rig, desk, asset, snaps[asset], trigger);
    CloseTouches(rig, desk, asset, snaps[asset], trigger);
  }

  /** What a decision leaves is the desk itself, or the desk after an entry, a
      close, or both. */
  lemma {:induction false} ApplyLeaves(rig: Rig, desk: Desk, d: Decision, m: Market, quotes: Quotes,
                                       btc: Option<Contracts.Regime>, seal: Seal)
    ensures
      var after := Apply(rig, desk, d, m, quotes, btc, seal).desk;
      if d.asset !in desk.acct.positions then
        after == desk || after == EnterSized(rig, desk, d, m, quotes, btc, seal).desk
      else
        var cut, flat := CloseHeld(rig, desk, d.asset, m, "cut").desk, CloseHeld(rig, desk, d.asset, m, "flip").desk;
        || after == desk || after == cut || after == flat
        || after == EnterSized(rig, flat, d, m, quotes, btc, seal).desk
  {
    hide EnterSized, CloseHeld;
  }

  lemma {:induction false} ApplyContains(rig: Rig, desk: Desk, d: Decision, snaps: map<string, Market>,
                                         quotes: Quotes, btc: Option<Contracts.Regime>, seal: Seal)
    requires Sound(rig, desk) && Filed(snaps) && d.asset in snaps && Contained(desk, snaps)
    ensures Contained(Apply(rig, desk, d, snaps[d.asset], quotes, btc, seal).desk, snaps)
  {
    FiledUnder(snaps, d.asset);
    ApplyLeaves(rig, desk, d, snaps[d.asset], quotes, btc, seal);
    hide *;
    if d.asset in desk.acct.positions {
      CloseContains(rig, desk, d.asset, snaps, "cut");
      CloseContains(rig, desk, d.asset, snaps, "flip");
      EnterContains(rig, CloseHeld(rig, desk, d.asset, snaps[d.asset], "flip").desk, d, snaps, quotes, btc, seal);
    } else {
      EnterContains(rig, desk, d, snaps, quotes, btc, seal);
    }
  }

  lemma {:induction false} DrainOneLeaves(rig: Rig, before: Drained, snaps: map<string, Market>, quotes: Quotes,
                                          d: Decision, seal: Seal)
    ensures
      var after := DrainOne(rig, before, snaps, quotes, d, seal).desk;
      after == if before.fault.None? && d.asset in snaps
               then Apply(rig, before.desk, d, snaps[d.asset], quotes, BtcRegime(snaps), seal).desk
               else before.desk
  {
    hide Apply, BtcRegime;
  }

  lemma {:induction false} DrainContains(rig: Rig, desk: Desk, snaps: map<string, Market>, quotes: Quotes,
                                         ds: Proposals)
    requires Sound(rig, desk) && Filed(snaps) && Quoted(quotes) && Contained(desk, snaps)
    ensures Contained(Drain(rig, desk, snaps, quotes, ds).desk, snaps)
    decreases |ds|
  {
    hide DrainOne, Sound, Contained, Filed, Quoted, EndedStranded;
    if ds != [] {
      var before := Drain(rig, desk, snaps, quotes, ds[..|ds| - 1]);
      DrainContains(rig, desk, snaps, quotes, ds[..|ds| - 1]);
      DrainSound(rig, desk, snaps, quotes, ds[..|ds| - 1]);
      var (d, seal) := ds[|ds| - 1];
      DrainOneLeaves(rig, before, snaps, quotes, d, seal);
      hide *;
      if before.fault.None? && d.asset in snaps {
        ApplyContains(rig, before.desk, d, snaps, quotes, BtcRegime(snaps), seal);
      }
    }
  }

  /** Main result: after any pass of the loop, decisions and exceptions included,
      every held asset that has a snapshot has its mark strictly between the
      stop and the take of its position. */
  lemma {:induction false} PassBrackets(rig: Rig, desk: Desk, snaps: map<string, Market>, order: seq<string>,
                                        quotes: Quotes, ds: Option<Proposals>)
    requires Sound(rig, desk) && Filed(snaps) && Quoted(quotes) && Once(order)
    requires forall a :: a in order <==> a in desk.acct.positions
    ensures
      var after := Step(rig, desk, snaps, order, quotes, ds).desk.acct.positions;
      forall a :: a in after && a in snaps ==>
        var p, mark := after[a], snaps[a].mark;
        && p.stop.Some? && p.take.Some?
        && Sign(p.side) * (mark - p.stop.value) > 0.0 && Sign(p.side) * (p.take.value - mark) > 0.0
  {
    WalkContains(rig, desk, snaps, order);
    TickAllSound(rig, desk, snaps, order);
    if ds.Some? {
      DrainContains(rig, TickAll(rig, desk, snaps, order).desk, snaps, quotes, ds.value);
    }
    hide TickAll, Drain, Sound, Filed, Quoted;
    assert Contained(Step(rig, desk, snaps, order, quotes, ds).desk, snaps);
  }

  // ---------------------------------------------------------- one after another

  /** A drain of two batches is the drain of the second on what the first left,
      with the replies in the order of the decisions; after an exception the
      second batch changes nothing. */
  lemma {:induction false} DrainSplits(rig: Rig, desk: Desk, snaps: map<string, Market>, quotes: Quotes,
                                       first: Proposals, second: Proposals)
    ensures
      var so := Drain(rig, desk, snaps, quotes, first);
      var rest := Drain(rig, so.desk, snaps, quotes, second);
      Drain(rig, desk, snaps, quotes, first + second)
        == if so.fault.Some? then so else Drained(rest.desk, so.replies + rest.replies, rest.fault)
    decreases |second|
  {
    hide DrainOne;
    if second == [] {
      assert first + second == first;
    } else {
      var earlier, last := second[..|second| - 1], second[|second| - 1];
      assert (first + second)[..|first + second| - 1] == first + earlier;
      DrainSplits(rig, desk, snaps, quotes, first, earlier);
      var so := Drain(rig, desk, snaps, quotes, first);
      DrainOneLater(rig, so.replies, Drain(rig, so.desk, snaps, quotes, earlier), snaps, quotes, last.0, last.1);
      DrainOneEnded(rig, so, snaps, quotes, last.0, last.1);
    }
  }

  lemma {:induction false} DrainOneLater(rig: Rig, replies: seq<Reply>, so: Drained, snaps: map<string, Market>,
                                         quotes: Quotes, d: Decision, seal: Seal)
    ensures
      var one := DrainOne(rig, so, snaps, quotes, d, seal);
      DrainOne(rig, Drained(so.desk, replies + so.replies, so.fault), snaps, quotes, d, seal)
        == Drained(one.desk, replies + one.replies, one.fault)
  {
    hide Apply, BtcRegime;
  }

  lemma {:induction false} DrainOneEnded(rig: Rig, so: Drained, snaps: map<string, Market>, quotes: Quotes,
                                         d: Decision, seal: Seal)
    ensures so.fault.Some? ==> DrainOne(rig, so, snaps, quotes, d, seal) == so
  {
    hide Apply, BtcRegime;
  }

  /** What one decision of a drain comes to: without a snapshot of its asset it is
      vetoed for that reason and nothing moves; with one, a veto leaves every
      other asset alone, and an entry that is kept is held. */
  lemma {:induction false} DecisionAnswered(rig: Rig, before: Drained, snaps: map<string, Market>, quotes: Quotes,
                                            d: Decision, seal: Seal)
    requires Sound(rig, before.desk) && Filed(snaps) && Quoted(quotes) && before.fault.None?
    ensures
      var after := DrainOne(rig, before, snaps, quotes, d, seal);
      var held, holds := before.desk.acct.positions, after.desk.acct.positions;
      && (d.asset !in snaps ==> after == before.(replies := before.replies + [Vetoed(NoSnapshot)]))
      && (forall a :: a != d.asset ==> (a in holds <==> a in held) && (a in held ==> holds[a] == held[a]))
      && (after.fault.None? ==> after.replies == before.replies + [after.replies[|before.replies|]])
      && (after.fault.None? && d.asset in snaps && d.action == "enter" ==>
            (after.replies[|before.replies|] == Kept <==> d.asset !in held && d.asset in holds))
  {
    FiledUnder(snaps, d.asset);
    hide Apply, BtcRegime, Sound, Filed, Quoted;
    if d.asset in snaps {
      ApplyOutcome(rig, before.desk, d, snaps[d.asset], quotes, BtcRegime(snaps), seal);
    }
  }
}
