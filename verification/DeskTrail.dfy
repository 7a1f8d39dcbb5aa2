/** The desk's paper trail: its account is the outcome of its executor calls,
    its open positions point at stored audit rows, and its labels and decisions
    mean what they say. */
module DeskTrail {
  import opened Basics
  import opened Contracts
  import opened Slippage
  import opened Ledger
  import opened Audit
  import opened Feed
  import opened DecisionLoop
  import opened DeskLaws
  import Attribution

  // ------------------------------------------------- the account and its calls

  /** The fills of some executor calls, in order. */
  function FillsOf(venue: Venue, acct: Account, calls: seq<Attribution.Event>): seq<Fill>
    decreases |calls|
  {
    if calls == [] then []
    else
      var before := calls[..|calls| - 1];
      var last := Attribution.Perform(venue, Attribution.Run(venue, acct, before), calls[|calls| - 1]).result;
      FillsOf(venue, acct, before) + (if last.Ok? && last.value.Some? then [last.value.value] else [])
  }

  function LastTwenty(fills: seq<Fill>): seq<Fill> {
    if |fills| <= 20 then fills else fills[|fills| - 20..]
  }

  /** The account is what the executor calls made so far leave behind, and the
      recent fills are the last twenty of theirs. */
  predicate Traced(rig: Rig, starting: real, desk: Desk) {
    && desk.acct == Attribution.Run(rig.venue, Empty(starting), desk.calls)
    && desk.fills == LastTwenty(FillsOf(rig.venue, Empty(starting), desk.calls))
  }

  lemma {:induction false} RunSnoc(venue: Venue, acct: Account, calls: seq<Attribution.Event>, call: Attribution.Event)
    ensures Attribution.Run(venue, acct, calls + [call])
         == Attribution.Perform(venue, Attribution.Run(venue, acct, calls), call).account
  {
    assert (calls + [call])[..|calls|] == calls;
  }

  lemma {:induction false} RecentIsLast(fills: seq<Fill>, fill: Fill)
    ensures Recent(LastTwenty(fills), fill) == LastTwenty(fills + [fill])
  {
  }

  /** One more executor call, and its fill if it has one. */
  lemma {:induction false} TracedNext(rig: Rig, starting: real, before: Desk, after: Desk, call: Attribution.Event)
    requires Traced(rig, starting, before) && after.calls == before.calls + [call]
    requires
      var done := Attribution.Perform(rig.venue, before.acct, call);
      && after.acct == done.account
      && after.fills == (if done.result.Ok? && done.result.value.Some?
                         then Recent(before.fills, done.result.value.value)
                         else before.fills)
    ensures Traced(rig, starting, after)
  {
    var acct, calls := Empty(starting), before.calls;
    RunSnoc(rig.venue, acct, calls, call);
    assert (calls + [call])[..|calls|] == calls;
    var done := Attribution.Perform(rig.venue, before.acct, call).result;
    hide Attribution.Perform, Attribution.Run, Recent, LastTwenty;
    if done.Ok? && done.value.Some? {
      RecentIsLast(FillsOf(rig.venue, acct, calls), done.value.value);
    }
  }

  lemma {:induction false} EnterTraced(rig: Rig, starting: real, desk: Desk, d: Decision, m: Market, quotes: Quotes,
                                       btc: Option<Regime>, seal: Seal)
    requires Traced(rig, starting, desk)
    ensures Traced(rig, starting, EnterSized(rig, desk, d, m, quotes, btc, seal).desk)
  {
    hide PlanAt, OpenSized, Stored, Shown, Recent, Traced;
    var plan := PlanAt(rig, desk, d, m, quotes, btc);
    if plan.Go? {
      TracedNext(rig, starting, desk, EnterSized(rig, desk, d, m, quotes, btc, seal).desk,
        Attribution.OpenSizedEv(plan.sized, m));
    }
  }

  lemma {:induction false} CloseTraced(rig: Rig, starting: real, desk: Desk, asset: string, m: Market, trigger: string)
    requires Traced(rig, starting, desk) && asset in desk.acct.positions
    ensures Traced(rig, starting, CloseHeld(rig, desk, asset, m, trigger).desk)
  {
    hide Close, RecordClose, Recent, Traced;
    TracedNext(rig, starting, desk, CloseHeld(rig, desk, asset, m, trigger).desk, Attribution.CloseEv(asset, m));
  }

  lemma {:induction false} TickTraced(rig: Rig, starting: real, desk: Desk, asset: string, m: Market)
    requires Traced(rig, starting, desk)
    ensures Traced(rig, starting, TickAsset(rig, desk, asset, m).desk)
  {
    hide CheckStops, Tick, RecordClose, Recent, TriggerOf, Traced;
    var marked := Marked(rig, desk, m);
    TracedNext(rig, starting, desk, marked, Attribution.TickEv(m));
    TracedNext(rig, starting, marked, TickAsset(rig, desk, asset, m).desk, Attribution.CheckStopsEv(m));
  }

  lemma {:induction false} ApplyTraced(rig: Rig, starting: real, desk: Desk, d: Decision, m: Market, quotes: Quotes,
                                       btc: Option<Regime>, seal: Seal)
    requires Traced(rig, starting, desk)
    ensures Traced(rig, starting, Apply(rig, desk, d, m, quotes, btc, seal).desk)
  {
    hide EnterSized, CloseHeld, Traced;
    EnterTraced(rig, starting, desk, d, m, quotes, btc, seal);
    if d.asset in desk.acct.positions {
      CloseTraced(rig, starting, desk, d.asset, m, "cut");
      CloseTraced(rig, starting, desk, d.asset, m, "flip");
      EnterTraced(rig, starting, CloseHeld(rig, desk, d.asset, m, "flip").desk, d, m, quotes, btc, seal);
    }
  }

  lemma {:induction false} TickAllTraced(rig: Rig, starting: real, desk: Desk, snaps: map<string, Market>,
                                         order: seq<string>)
    requires Traced(rig, starting, desk)
    ensures Traced(rig, starting, TickAll(rig, desk, snaps, order).desk)
    decreases |order|
  {
    if order != [] {
      hide TickAsset, Traced;
      TickAllTraced(rig, starting, desk, snaps, order[..|order| - 1]);
      var asset := order[|order| - 1];
      if asset in snaps {
        TickTraced(rig, starting, TickAll(rig, desk, snaps, order[..|order| - 1]).desk, asset, snaps[asset]);
      }
    }
  }

  lemma {:induction false} DrainTraced(rig: Rig, starting: real, desk: Desk, snaps: map<string, Market>,
                                       quotes: Quotes, ds: Proposals)
    requires Traced(rig, starting, desk)
    ensures Traced(rig, starting, Drain(rig, desk, snaps, quotes, ds).desk)
    decreases |ds|
  {
    if ds != [] {
      hide Apply, BtcRegime, Traced;
      DrainTraced(rig, starting, desk, snaps, quotes, ds[..|ds| - 1]);
      var (d, seal) := ds[|ds| - 1];
      if d.asset in snaps {
        var before := Drain(rig, desk, snaps, quotes, ds[..|ds| - 1]).desk;
        ApplyTraced(rig, starting, before, d, snaps[d.asset], quotes, BtcRegime(snaps), seal);
      }
    }
  }

  lemma {:induction false} RunTraced(rig: Rig, starting: real, feed: seq<Entry>, rows: seq<AuditRecord>,
                                     evs: seq<Event>)
    ensures Traced(rig, starting, RunDesk(rig, Fresh(starting, feed, rows), evs).desk)
    decreases |evs|
  {
    if evs != [] {
      RunTraced(rig, starting, feed, rows, evs[..|evs| - 1]);
      var before := RunDesk(rig, Fresh(starting, feed, rows), evs[..|evs| - 1]).desk;
      match evs[|evs| - 1]
      case AnchorResult(asset, auditId, anchor) => {}
      case Pass(snaps, order, quotes, ds) =>
        hide Traced, TickAll, Drain;
        TickAllTraced(rig, starting, before, snaps, order);
        if ds.Some? {
          DrainTraced(rig, starting, TickAll(rig, before, snaps, order).desk, snaps, quotes, ds.value);
        }
    }
  }

  /** Main result: over every run of the loop, whatever was asked for and even
      if it ended in an exception, equity is the starting balance plus marked
      P&L plus funding less the itemised costs, and the balance is the starting
      balance less opening fees plus the realized P&L of closing fills; and the
      fills shown are the last twenty the executor made. */
  lemma {:induction false} EveryDeskRunExplained(rig: Rig, starting: real, feed: seq<Entry>, rows: seq<AuditRecord>,
                                                 evs: seq<Event>)
    ensures
      var desk := RunDesk(rig, Fresh(starting, feed, rows), evs).desk;
      var j := Attribution.Keep(rig.venue, Empty(starting), desk.calls);
      && Equity(desk.acct) == starting + j.markPnl + j.funding - j.costs
      && desk.acct.balance == starting - j.openingFees + j.closingPnl
      && desk.fills == LastTwenty(FillsOf(rig.venue, Empty(starting), desk.calls))
  {
    RunTraced(rig, starting, feed, rows, evs);
    var desk := RunDesk(rig, Fresh(starting, feed, rows), evs).desk;
    Attribution.EveryRunExplained(rig.venue, starting, desk.calls);
  }

  // ------------------------------------------------------- positions and records

  /** A stored row is the decision to open this position. */
  predicate Documents(r: AuditRecord, asset: string, l: Link) {
    r.auditId == l.auditId && r.asset == asset && r.side == Some(l.side) && r.verdict == EXECUTE
  }

  /** The feed names each decision once, and both lists keep their bounds. */
  ghost predicate Tidy(b: Board) {
    Distinct(b.feed) && |b.feed| <= 30 && |b.trades| <= 50
  }

  lemma {:induction false} ShownTidy(rig: Rig, b: Board, d: Decision, side: string, s: Sized, fill: Fill,
                                     edgeBps: real, seal: Seal, record: AuditRecord)
    requires Tidy(b) && record.auditId != ""
    ensures Tidy(Shown(rig, b, d, side, s, fill, edgeBps, seal, record))
  {
    RecordKeepsFeed(b.feed, EntryFor(rig, d, side, s, fill, edgeBps, seal, record));
    hide Distinct, RecordDecision, LinkFor, Breakdown;
  }

  lemma {:induction false} CloseTidy(b: Board, exit: Exit)
    requires Tidy(b)
    ensures Tidy(RecordClose(b, exit))
  {
    RecordKeepsFeed(b.feed, ClosingEntry(Trade(exit, HeldSeconds(exit), LinkOf(b, exit.asset))));
    hide Distinct, RecordDecision;
  }

  lemma {:induction false} AnchorTidy(b: Board, asset: Option<string>, auditId: string, anchor: Anchor)
    requires Tidy(b)
    ensures Tidy(UpdateAnchor(b, asset, auditId, anchor))
  {
    assert forall i :: 0 <= i < |b.feed| ==> Stamp(b.feed, Opening(auditId), anchor)[i].id == b.feed[i].id;
  }

  /** Everything submitted was stored, every link has its row, and the board is
      tidy. */
  ghost predicate Papered(desk: Desk) {
    && Tidy(desk.board)
    && (forall s :: s in desk.submitted ==> s.0 in desk.rows)
    && forall a :: a in desk.board.links ==> exists r :: r in desk.rows && Documents(r, a, desk.board.links[a])
  }

  lemma {:induction false} EnterPapered(rig: Rig, desk: Desk, d: Decision, m: Market, quotes: Quotes,
                                        btc: Option<Regime>, seal: Seal)
    requires Papered(desk) && seal.auditId != ""
    ensures Papered(EnterSized(rig, desk, d, m, quotes, btc, seal).desk)
  {
    hide PlanOpen, OpenSized, EntryFor, RecordDecision, Recent, Breakdown, Sealed;
    var plan := PlanAt(rig, desk, d, m, quotes, btc);
    if plan.Go? && rig.auditing && OpenSized(rig.venue, desk.acct, plan.sized, m).result.Ok?
       && Stored(rig, d, d.side.value, plan.sized, seal).Ok?
    {
      var fill := OpenSized(rig.venue, desk.acct, plan.sized, m).result.value;
      var record := Stored(rig, d, d.side.value, plan.sized, seal).value;
      var link := LinkFor(d.side.value, plan.sized, fill, record);
      StoredNames(rig, d, d.side.value, plan.sized, seal);
      assert Documents(record, d.asset, link);
      var after := EnterSized(rig, desk, d, m, quotes, btc, seal).desk;
      hide Stored;
      assert after.rows == desk.rows + [record];
      hide LinkFor, Tidy;
      ShownTidy(rig, desk.board, d, d.side.value, plan.sized, fill, quotes[d.asset].1.edgeAfterCostBps, seal, record);
      forall a | a in after.board.links ensures exists r :: r in after.rows && Documents(r, a, after.board.links[a]) {
        if rig.showing && a == d.asset {
          assert record in after.rows;
        } else {
          var r :| r in desk.rows && Documents(r, a, desk.board.links[a]);
          assert r in after.rows;
        }
      }
    }
  }

  lemma {:induction false} StoredNames(rig: Rig, d: Decision, side: string, s: Sized, seal: Seal)
    requires Stored(rig, d, side, s, seal).Ok?
    ensures
      var r := Stored(rig, d, side, s, seal).value;
      && r.auditId == seal.auditId && r.asset == d.asset && r.side == Some(side) && r.verdict == EXECUTE
      && r.sized == Some(Breakdown(rig, s)) && r.arcTxHash.None? && r.arcJobId.None?
  {
    hide Breakdown, Shortened;
  }

  /** Steps that add no rows and move no link keep the trail. */
  lemma {:induction false} FewerLinksPapered(before: Desk, after: Desk)
    requires Papered(before)
    requires Tidy(after.board) && after.rows == before.rows && after.submitted == before.submitted
    requires forall a :: a in after.board.links ==>
      a in before.board.links && after.board.links[a].(anchor := before.board.links[a].anchor) == before.board.links[a]
    ensures Papered(after)
  {
    forall a | a in after.board.links ensures exists r :: r in after.rows && Documents(r, a, after.board.links[a]) {
      var r :| r in before.rows && Documents(r, a, before.board.links[a]);
    }
  }

  lemma {:induction false} PaperedTidy(desk: Desk)
    requires Papered(desk)
    ensures Tidy(desk.board)
  {
  }

  lemma {:induction false} ClosePapered(rig: Rig, desk: Desk, asset: string, m: Market, trigger: string)
    requires Papered(desk) && asset in desk.acct.positions
    ensures Papered(CloseHeld(rig, desk, asset, m, trigger).desk)
  {
    hide Close, Recent, RecordDecision, ClosingEntry, Papered, Tidy;
    forall exit ensures Tidy(RecordClose(desk.board, exit)) {
      PaperedTidy(desk);
      CloseTidy(desk.board, exit);
    }
    PaperedTidy(desk);
    FewerLinksPapered(desk, CloseHeld(rig, desk, asset, m, trigger).desk);
  }

  lemma {:induction false} TickPapered(rig: Rig, desk: Desk, asset: string, m: Market)
    requires Papered(desk)
    ensures Papered(TickAsset(rig, desk, asset, m).desk)
  {
    hide CheckStops, Tick, Recent, RecordDecision, ClosingEntry, TriggerOf, Papered, Tidy;
    forall exit ensures Tidy(RecordClose(desk.board, exit)) {
      PaperedTidy(desk);
      CloseTidy(desk.board, exit);
    }
    PaperedTidy(desk);
    FewerLinksPapered(desk, TickAsset(rig, desk, asset, m).desk);
  }

  lemma {:induction false} ApplyPapered(rig: Rig, desk: Desk, d: Decision, m: Market, quotes: Quotes,
                                        btc: Option<Regime>, seal: Seal)
    requires Papered(desk) && seal.auditId != ""
    ensures Papered(Apply(rig, desk, d, m, quotes, btc, seal).desk)
  {
    hide EnterSized, CloseHeld, Papered;
    EnterPapered(rig, desk, d, m, quotes, btc, seal);
    if d.asset in desk.acct.positions {
      ClosePapered(rig, desk, d.asset, m, "cut");
      ClosePapered(rig, desk, d.asset, m, "flip");
      EnterPapered(rig, CloseHeld(rig, desk, d.asset, m, "flip").desk, d, m, quotes, btc, seal);
    }
  }

  lemma {:induction false} TickAllPapered(rig: Rig, desk: Desk, snaps: map<string, Market>, order: seq<string>)
    requires Papered(desk)
    ensures Papered(TickAll(rig, desk, snaps, order).desk)
    decreases |order|
  {
    if order != [] {
      hide TickAsset, Papered;
      TickAllPapered(rig, desk, snaps, order[..|order| - 1]);
      var asset := order[|order| - 1];
      if asset in snaps {
        TickPapered(rig, TickAll(rig, desk, snaps, order[..|order| - 1]).desk, asset, snaps[asset]);
      }
    }
  }

  /** Every open gets a real audit id. */
  predicate Named(ds: Proposals) {
    forall i :: 0 <= i < |ds| ==> ds[i].1.auditId != ""
  }

  lemma {:induction false} DrainPapered(rig: Rig, desk: Desk, snaps: map<string, Market>, quotes: Quotes,
                                        ds: Proposals)
    requires Papered(desk) && Named(ds)
    ensures Papered(Drain(rig, desk, snaps, quotes, ds).desk)
    decreases |ds|
  {
    if ds != [] {
      hide Apply, BtcRegime, Papered;
      DrainPapered(rig, desk, snaps, quotes, ds[..|ds| - 1]);
      var (d, seal) := ds[|ds| - 1];
      if d.asset in snaps {
        ApplyPapered(rig, Drain(rig, desk, snaps, quotes, ds[..|ds| - 1]).desk, d, snaps[d.asset], quotes,
          BtcRegime(snaps), seal);
      }
    }
  }

  /** Main result: over every run, every submitted record was stored, every
      open position shown on the board points at a stored decision to trade the
      same asset on the same side, and the feed stays short and free of
      repeated ids. */
  lemma {:induction false} EveryRunPapered(rig: Rig, starting: real, feed: seq<Entry>, rows: seq<AuditRecord>,
                                           evs: seq<Event>)
    requires Distinct(feed) && |feed| <= 30
    requires forall i :: 0 <= i < |evs| && evs[i].Pass? && evs[i].ds.Some? ==> Named(evs[i].ds.value)
    ensures Papered(RunDesk(rig, Fresh(starting, feed, rows), evs).desk)
    decreases |evs|
  {
    if evs != [] {
      EveryRunPapered(rig, starting, feed, rows, evs[..|evs| - 1]);
      var before := RunDesk(rig, Fresh(starting, feed, rows), evs[..|evs| - 1]).desk;
      hide Papered, TickAll, Drain;
      match evs[|evs| - 1]
      case AnchorResult(asset, auditId, anchor) =>
        PaperedTidy(before);
        AnchorTidy(before.board, asset, auditId, anchor);
        FewerLinksPapered(before, Advance(rig, before, evs[|evs| - 1]).desk);
      case Pass(snaps, order, quotes, ds) =>
        TickAllPapered(rig, before, snaps, order);
        if ds.Some? {
          DrainPapered(rig, TickAll(rig, before, snaps, order).desk, snaps, quotes, ds.value);
        }
    }
  }

  // ------------------------------------------------------------ what labels mean

  /** Slippage never improves a price. */
  ghost predicate Adverse(venue: Venue) {
    && venue.schedule.slippageK >= 0.0 && venue.schedule.flatBps >= 0.0
    && forall x :: venue.maths.sqrt(x) >= 0.0
  }

  lemma {:induction false} SlippageAdverse(venue: Venue, notional: real, m: Market)
    requires Adverse(venue) && SideSlippageBps(venue.schedule, venue.maths, notional, m).Ok?
    ensures SideSlippageBps(venue.schedule, venue.maths, notional, m).value / BPS >= 0.0
  {
    if m.depth.Some? && m.depth.value > EPS {
      var root := venue.maths.sqrt(notional / m.depth.value);
      assert venue.schedule.slippageK * root >= 0.0;
    }
  }

  lemma {:induction false} ExitIsWorse(side: string, mark: real, slip: real)
    requires mark >= 0.0 && slip >= 0.0
    ensures side == "long" ==> ExitPrice(side, mark, slip) <= mark
    ensures side != "long" ==> ExitPrice(side, mark, slip) >= mark
  {
    assert mark * slip >= 0.0;
  }

  /** The mark, moved by the slippage of the exit, still is at the take level. */
  predicate TakeClears(venue: Venue, p: Pos, m: Market) {
    var slip := Attribution.SlipFraction(venue, Value(p.qty, m.mark), m);
    && p.take.Some?
    && (if p.side == "long" then m.mark * (1.0 - slip) >= p.take.value
        else p.side == "short" && m.mark * (1.0 + slip) <= p.take.value)
  }

  /** Main result on labels: an automatic close is labelled "take" exactly when
      the mark clears the take level even after the slippage of the exit; so
      only when the mark really reached it, and a take inside the slippage of
      its level is labelled "stop". */
  lemma {:induction false} TakeLabelIff(venue: Venue, acct: Account, m: Market)
    requires CheckStops(venue, acct, m).result.Ok? && CheckStops(venue, acct, m).result.value.Some?
    ensures
      var p := acct.positions[m.asset];
      var trigger := TriggerOf(p, CheckStops(venue, acct, m).result.value.value.price);
      && (trigger == "take" <==> TakeClears(venue, p, m))
      && (Adverse(venue) && m.mark >= 0.0 && trigger == "take" ==> TakeHit(p, m.mark))
      && (trigger == "stop" <==> !TakeClears(venue, p, m))
  {
    StopExit(venue, acct, m);
    if Adverse(venue) {
      StopSlippage(venue, acct, m);
    }
    hide CheckStops, Attribution.SlipFraction, Value, Adverse;
    var p := acct.positions[m.asset];
    LabelAt(p, m.mark, Attribution.SlipFraction(venue, Value(p.qty, m.mark), m));
  }

  lemma {:induction false} LabelAt(p: Pos, mark: real, slip: real)
    ensures
      var clears := p.take.Some? && (if p.side == "long" then mark * (1.0 - slip) >= p.take.value
                                     else p.side == "short" && mark * (1.0 + slip) <= p.take.value);
      && TriggerOf(p, ExitPrice(p.side, mark, slip)) == (if clears then "take" else "stop")
      && (slip >= 0.0 && mark >= 0.0 && clears ==> TakeHit(p, mark))
  {
    if slip >= 0.0 && mark >= 0.0 {
      ExitIsWorse(p.side, mark, slip);
    }
  }

  /** The price an automatic close gets. */
  lemma {:induction false} StopExit(venue: Venue, acct: Account, m: Market)
    requires CheckStops(venue, acct, m).result.Ok? && CheckStops(venue, acct, m).result.value.Some?
    ensures m.asset in acct.positions
    ensures
      var p := acct.positions[m.asset];
      CheckStops(venue, acct, m).result.value.value.price
        == ExitPrice(p.side, m.mark, Attribution.SlipFraction(venue, Value(p.qty, m.mark), m))
  {
    var p := acct.positions[m.asset];
    assert Accrue(venue, p, m).side == p.side && Accrue(venue, p, m).qty == p.qty;
    hide SideSlippageBps, Accrue, Fires, ExitPrice, PricePnl, TakerFee, Value;
  }

  lemma {:induction false} StopSlippage(venue: Venue, acct: Account, m: Market)
    requires CheckStops(venue, acct, m).result.Ok? && CheckStops(venue, acct, m).result.value.Some?
    requires Adverse(venue)
    ensures m.asset in acct.positions
    ensures Attribution.SlipFraction(venue, Value(acct.positions[m.asset].qty, m.mark), m) >= 0.0
  {
    var p := acct.positions[m.asset];
    assert Accrue(venue, p, m).qty == p.qty;
    SlippageAdverse(venue, Value(p.qty, m.mark), m);
    hide SideSlippageBps, Accrue, Fires, ExitPrice, PricePnl, TakerFee, Value, Adverse;
  }

  /** A take that fires exactly at its level is labelled "stop" once a basis
      point of slippage is taken off the exit price. */
  lemma {:induction false} TakeLabelledStop(maths: Maths)
    ensures
      var venue := Venue(Schedule(4.5, 1.0, 0.0, 1.0), maths);
      var p := Pos("BTC", "long", 1.0, 90.0, 0, 100.0, 0, 0.0, Some(80.0), Some(100.0), None);
      var acct := Account(1000.0, 1000.0, map["BTC" := p]);
      var m := Market("BTC", 0, 100.0, 0.0, [], None);
      var checked := CheckStops(venue, acct, m).result;
      && TakeHit(p, m.mark) && !StopHit(p, m.mark)
      && checked.Ok? && checked.value.Some? && TriggerOf(p, checked.value.value.price) == "stop"
  {
    var venue := Venue(Schedule(4.5, 1.0, 0.0, 1.0), maths);
    var p := Pos("BTC", "long", 1.0, 90.0, 0, 100.0, 0, 0.0, Some(80.0), Some(100.0), None);
    var m := Market("BTC", 0, 100.0, 0.0, [], None);
    assert ExitPrice("long", 100.0, 1.0 / BPS) == 99.99;
  }

  // ---------------------------------------------------------- what decisions do

  /** What a decision leaves held, and that it touches no other asset. A flip
      whose new entry is vetoed leaves the account flat on the asset; an entry
      that raises leaves it held. */
  lemma {:induction false} ApplyOutcome(rig: Rig, desk: Desk, d: Decision, m: Market, quotes: Quotes,
                                        btc: Option<Regime>, seal: Seal)
    requires Sound(rig, desk) && m.asset == d.asset && m.mark >= 0.0 && Quoted(quotes)
    ensures
      var done := Apply(rig, desk, d, m, quotes, btc, seal);
      var before, after := desk.acct.positions, done.desk.acct.positions;
      && (forall a :: a != d.asset ==> (a in after <==> a in before) && (a in before ==> after[a] == before[a]))
      && (done.reply.Err? ==> d.asset in after && (d.action == "enter" || d.action == "flip"))
      && (d.action == "enter" && done.reply.Ok? ==>
            (done.reply.value.Kept? ==> d.asset !in before && d.asset in after)
            && (done.reply.value.Vetoed? ==> done.desk == desk))
      && (d.action == "cut" ==>
            d.asset !in after && done.reply.Ok? && (done.reply.value.Kept? <==> d.asset in before))
      && (d.action == "flip" && done.reply.Ok? ==> (d.asset in after <==> done.reply.value.Kept?))
      && (d.action != "enter" && d.action != "cut" && d.action != "flip" ==> done.desk == desk)
  {
    hide EnterSized, CloseHeld, Sound, PlanAt, Storable, Booked;
    if d.asset in desk.acct.positions {
      CloseHeldSound(rig, desk, d.asset, m, "cut");
      CloseHeldSound(rig, desk, d.asset, m, "flip");
      CloseTouches(rig, desk, d.asset, m, "cut");
      CloseTouches(rig, desk, d.asset, m, "flip");
      var flat := CloseHeld(rig, desk, d.asset, m, "flip").desk;
      EnterSound(rig, flat, d, m, quotes, btc, seal);
      EnterTouches(rig, flat, d, m, quotes, btc, seal);
    } else {
      EnterSound(rig, desk, d, m, quotes, btc, seal);
      EnterTouches(rig, desk, d, m, quotes, btc, seal);
    }
  }

  lemma {:induction false} CloseTouches(rig: Rig, desk: Desk, asset: string, m: Market, trigger: string)
    requires asset in desk.acct.positions
    ensures
      var before, after := desk.acct.positions, CloseHeld(rig, desk, asset, m, trigger).desk.acct.positions;
      forall a :: a != asset ==> (a in after <==> a in before) && (a in before ==> after[a] == before[a])
  {
    hide RecordClose, Recent, Accrue, SideSlippageBps, ClosingFill;
  }

  lemma {:induction false} OpenTouches(venue: Venue, acct: Account, s: Sized, m: Market)
    ensures
      var before, after := acct.positions, OpenSized(venue, acct, s, m).account.positions;
      forall a :: a != s.candidate.asset ==> (a in after <==> a in before) && (a in before ==> after[a] == before[a])
  {
    hide SideSlippageBps;
  }

  lemma {:induction false} EnterTouches(rig: Rig, desk: Desk, d: Decision, m: Market, quotes: Quotes,
                                        btc: Option<Regime>, seal: Seal)
    ensures
      var before, after := desk.acct.positions, EnterSized(rig, desk, d, m, quotes, btc, seal).desk.acct.positions;
      forall a :: a != d.asset ==> (a in after <==> a in before) && (a in before ==> after[a] == before[a])
  {
    var acct := desk.acct;
    PlanPassed(rig, d, m, QuoteOf(quotes, d.asset), btc, Equity(acct), d.asset in acct.positions, |acct.positions|,
               Exposure(acct));
    hide PlanOpen, Equity, Exposure, OpenSized, EntryMark;
    var plan := PlanAt(rig, desk, d, m, quotes, btc);
    if plan.Go? {
      OpenTouches(rig.venue, acct, plan.sized, m);
      FulfilAccount(rig, desk, d, d.side.value, plan.sized, m, quotes[d.asset].1.edgeAfterCostBps, seal);
      hide PlanAt, Fulfil;
    }
  }

  lemma {:induction false} FulfilAccount(rig: Rig, desk: Desk, d: Decision, side: string, s: Sized, m: Market,
                                         edgeBps: real, seal: Seal)
    ensures Fulfil(rig, desk, d, side, s, m, edgeBps, seal).desk.acct == OpenSized(rig.venue, desk.acct, s, m).account
  {
    hide OpenSized, Stored, Shown, Recent;
  }

  // ------------------------------------------------------- what a close writes down

  /** The newest trade on the board tells this close: what the link of its open
      said, what the account gained by it, when and for how long, and why. */
  ghost predicate Tells(board: Board, asset: string, l: Link, p: Pos, m: Market, gained: real, trigger: string) {
    && board.trades != [] && board.feed != [] && asset !in board.links
    && var trade := board.trades[0];
       && trade.link == Some(l) && trade.exit.asset == asset && trade.exit.trigger == trigger
       && trade.exit.side == l.side && trade.exit.qty == l.qty && trade.exit.entryPrice == l.entryPrice
       && trade.exit.realized == gained
       && trade.exit.entryTime == p.entryTime && trade.exit.exitTime == m.timestamp
       && (p.entryTime <= m.timestamp ==> trade.heldSeconds * 1000000.0 == (m.timestamp - p.entryTime) as real)
       && board.feed[0].id == Closing(asset, m.timestamp) && board.feed[0].story.Closed?
       && board.feed[0].story.trade == trade
       && (l.entryPrice > 0.0 && l.qty > 0.0 ==>
             && board.feed[0].story.pnlPct.Some?
             && Times(board.feed[0].story.pnlPct.value, Times(l.entryPrice, l.qty)) == Times(100.0, gained))
  }

  lemma {:induction false} PercentOfCost(realized: real, price: real, qty: real)
    requires price > 0.0 && qty > 0.0
    ensures price * qty != 0.0
    ensures Times(realized / (price * qty) * 100.0, Times(price, qty)) == Times(100.0, realized)
  {
    assert price * qty > 0.0;
    var x := realized / (price * qty);
    assert x * (price * qty) == realized;
  }

  lemma {:induction false} RecordedTells(b: Board, asset: string, p: Pos, m: Market, fill: Fill, trigger: string)
    requires asset in b.links && Mirrors(b.links[asset], p) && fill.timestamp == m.timestamp
    ensures Tells(RecordClose(b, ExitOf(asset, p, fill, trigger)), asset, b.links[asset], p, m, fill.realizedPnl,
      trigger)
  {
    var exit := ExitOf(asset, p, fill, trigger);
    if p.entryPrice > 0.0 && p.qty > 0.0 {
      PercentOfCost(exit.realized, p.entryPrice, p.qty);
    }
    hide Without, Times;
  }

  /** What a close brings is what it books, and its fill is stamped by the
      snapshot. */
  lemma {:induction false} CloseGains(venue: Venue, acct: Account, asset: string, m: Market)
    requires Close(venue, acct, asset, m).result.Ok?
    ensures
      var o := Close(venue, acct, asset, m);
      o.result.value.realizedPnl == o.account.balance - acct.balance && o.result.value.timestamp == m.timestamp
  {
    hide SideSlippageBps, Accrue, PricePnl, ExitPrice, TakerFee;
  }

  lemma {:induction false} LinkMirrors(rig: Rig, desk: Desk, asset: string)
    requires Sound(rig, desk) && rig.auditing && rig.showing && asset in desk.acct.positions
    ensures asset in desk.board.links && Mirrors(desk.board.links[asset], desk.acct.positions[asset])
  {
    hide Booked;
  }

  /** Main result on closing by decision: the board tells it as it happened. */
  lemma {:induction false} CloseIsTold(rig: Rig, desk: Desk, asset: string, m: Market, trigger: string)
    requires Sound(rig, desk) && rig.auditing && rig.showing && asset in desk.acct.positions
    requires m.asset == asset && m.mark >= 0.0
    ensures asset in desk.board.links
    ensures
      var after := CloseHeld(rig, desk, asset, m, trigger).desk;
      Tells(after.board, asset, desk.board.links[asset], desk.acct.positions[asset], m,
            after.acct.balance - desk.acct.balance, trigger)
  {
    hide *;
    LinkMirrors(rig, desk, asset);
    HeldPositive(rig, desk, asset);
    CloseSucceeds(rig.venue, desk.acct, asset, m);
    CloseGains(rig.venue, desk.acct, asset, m);
    CloseHeldLeaves(rig, desk, asset, m, trigger);
    var fill := Close(rig.venue, desk.acct, asset, m).result.value;
    RecordedTells(desk.board, asset, desk.acct.positions[asset], m, fill, trigger);
  }

  lemma {:induction false} CloseHeldLeaves(rig: Rig, desk: Desk, asset: string, m: Market, trigger: string)
    requires asset in desk.acct.positions && rig.showing && Close(rig.venue, desk.acct, asset, m).result.Ok?
    ensures
      var closed, after := Close(rig.venue, desk.acct, asset, m), CloseHeld(rig, desk, asset, m, trigger).desk;
      && after.acct == closed.account
      && after.board == RecordClose(desk.board, ExitOf(asset, desk.acct.positions[asset], closed.result.value, trigger))
  {
    hide Close, RecordClose, ExitOf, Recent;
  }

  lemma {:induction false} TickAssetLeaves(rig: Rig, desk: Desk, asset: string, m: Market)
    requires rig.showing && asset in Tick(rig.venue, desk.acct, m).positions
    ensures
      var marked, after := Tick(rig.venue, desk.acct, m), TickAsset(rig, desk, asset, m).desk;
      var checked, q := CheckStops(rig.venue, marked, m), marked.positions[asset];
      && after.acct == checked.account
      && (checked.result.Ok? && checked.result.value.Some? ==>
            var fill := checked.result.value.value;
            after.board == RecordClose(desk.board, ExitOf(asset, q, fill, TriggerOf(q, fill.price))))
  {
    hide CheckStops, Tick, RecordClose, ExitOf, TriggerOf, Recent;
  }

  /** And so is a close by a level, under the label inferred from its price. */
  lemma {:induction false} LevelCloseIsTold(rig: Rig, desk: Desk, asset: string, m: Market)
    requires Sound(rig, desk) && rig.auditing && rig.showing && asset in desk.acct.positions
    requires m.asset == asset && m.mark >= 0.0
    ensures asset in desk.board.links
    ensures
      var p, after := desk.acct.positions[asset], TickAsset(rig, desk, asset, m).desk;
      asset !in after.acct.positions ==>
        Tells(after.board, asset, desk.board.links[asset], p, m, after.acct.balance - desk.acct.balance,
              if TakeClears(rig.venue, p, m) then "take" else "stop")
  {
    hide *;
    LinkMirrors(rig, desk, asset);
    HeldPositive(rig, desk, asset);
    MarkedSame(rig.venue, desk.acct, asset, m);
    var p, marked := desk.acct.positions[asset], Tick(rig.venue, desk.acct, m);
    var q, l := marked.positions[asset], desk.board.links[asset];
    MirrorsMarked(l, p, q);
    CheckedStops(rig.venue, marked, asset, m);
    TickAssetLeaves(rig, desk, asset, m);
    var checked := CheckStops(rig.venue, marked, m);
    assert checked.result == Ok(None) ==> asset in checked.account.positions;
    if checked.result.value.Some? {
      TakeLabelIff(rig.venue, marked, m);
      CheckGains(rig.venue, marked, m);
      SameLevels(rig.venue, p, q, m);
      LabelOf(rig.venue, q, m, checked.result.value.value.price);
      var fill := checked.result.value.value;
      RecordedTells(desk.board, asset, q, m, fill, TriggerOf(q, fill.price));
      TellsSame(TickAsset(rig, desk, asset, m).desk.board, asset, l, p, q, m, fill.realizedPnl,
        TriggerOf(q, fill.price));
    }
  }

  lemma {:induction false} MirrorsMarked(l: Link, p: Pos, q: Pos)
    requires Mirrors(l, p)
    requires q.side == p.side && q.qty == p.qty && q.entryPrice == p.entryPrice && q.stop == p.stop && q.take == p.take
    ensures Mirrors(l, q)
  {
  }

  lemma {:induction false} LabelOf(venue: Venue, q: Pos, m: Market, price: real)
    requires (TriggerOf(q, price) == "take" <==> TakeClears(venue, q, m))
      && (TriggerOf(q, price) == "stop" <==> !TakeClears(venue, q, m))
    ensures TriggerOf(q, price) == if TakeClears(venue, q, m) then "take" else "stop"
  {
    hide TakeClears, TriggerOf;
  }

  lemma {:induction false} MarkedSame(venue: Venue, acct: Account, asset: string, m: Market)
    requires asset in acct.positions
    ensures
      var after := Tick(venue, acct, m);
      && after.balance == acct.balance && asset in after.positions
      && var p, q := acct.positions[asset], after.positions[asset];
         && q.side == p.side && q.qty == p.qty && q.entryPrice == p.entryPrice && q.stop == p.stop && q.take == p.take
         && q.entryTime == p.entryTime
  {
  }

  lemma {:induction false} SameLevels(venue: Venue, p: Pos, q: Pos, m: Market)
    requires q.side == p.side && q.qty == p.qty && q.take == p.take
    ensures TakeClears(venue, q, m) == TakeClears(venue, p, m)
  {
  }

  lemma {:induction false} TellsSame(board: Board, asset: string, l: Link, p: Pos, q: Pos, m: Market, gained: real,
                                     trigger: string)
    requires Tells(board, asset, l, q, m, gained, trigger) && p.entryTime == q.entryTime
    ensures Tells(board, asset, l, p, m, gained, trigger)
  {
  }

  lemma {:induction false} CheckGains(venue: Venue, acct: Account, m: Market)
    requires CheckStops(venue, acct, m).result.Ok? && CheckStops(venue, acct, m).result.value.Some?
    ensures
      var o := CheckStops(venue, acct, m);
      && o.result.value.value.realizedPnl == o.account.balance - acct.balance
      && o.result.value.value.timestamp == m.timestamp
  {
    hide Close, Fires;
    CloseGains(venue, acct, m.asset, m);
  }

  lemma {:induction false} EnterKeepsTrades(rig: Rig, desk: Desk, d: Decision, m: Market, quotes: Quotes,
                                            btc: Option<Regime>, seal: Seal)
    ensures EnterSized(rig, desk, d, m, quotes, btc, seal).desk.board.trades == desk.board.trades
  {
    hide PlanAt, OpenSized, Stored, RecordDecision, Recent;
  }

  /** So a cut or a flip of a held asset puts that very close on top of the trade
      history, under its own name, whatever becomes of the entry after a flip. */
  lemma {:induction false} DecidedCloseIsTold(rig: Rig, desk: Desk, d: Decision, m: Market, quotes: Quotes,
                                              btc: Option<Regime>, seal: Seal)
    requires Sound(rig, desk) && rig.auditing && rig.showing && d.asset in desk.acct.positions
    requires m.asset == d.asset && m.mark >= 0.0 && (d.action == "cut" || d.action == "flip")
    ensures
      var trades := Apply(rig, desk, d, m, quotes, btc, seal).desk.board.trades;
      && d.asset in desk.board.links && trades != [] && trades[0].link == Some(desk.board.links[d.asset])
      && trades[0].exit.trigger == d.action && trades[0].exit.exitTime == m.timestamp
      && trades[0].exit.realized
           == Close(rig.venue, desk.acct, d.asset, m).account.balance - desk.acct.balance
  {
    CloseIsTold(rig, desk, d.asset, m, d.action);
    CloseHeldSound(rig, desk, d.asset, m, d.action);
    HeldPositive(rig, desk, d.asset);
    CloseSucceeds(rig.venue, desk.acct, d.asset, m);
    CloseHeldLeaves(rig, desk, d.asset, m, d.action);
    ApplyTrades(rig, desk, d, m, quotes, btc, seal);
    hide Close, CloseHeld, Apply, Sound;
  }

  lemma {:induction false} ApplyTrades(rig: Rig, desk: Desk, d: Decision, m: Market, quotes: Quotes,
                                       btc: Option<Regime>, seal: Seal)
    requires d.asset in desk.acct.positions && (d.action == "cut" || d.action == "flip")
    ensures Apply(rig, desk, d, m, quotes, btc, seal).desk.board.trades
         == CloseHeld(rig, desk, d.asset, m, d.action).desk.board.trades
  {
    hide CloseHeld, EnterSized;
    if d.action == "flip" {
      EnterKeepsTrades(rig, CloseHeld(rig, desk, d.asset, m, "flip").desk, d, m, quotes, btc, seal);
    }
  }
}
