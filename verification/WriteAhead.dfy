/** What is left of the promise that a decision is stored before it has any
    effect: the paper fill always comes first, and an open position has its row
    exactly as long as every row could be stored. */
module WriteAhead {
  import opened Basics
  import opened Contracts
  import opened Slippage
  import opened Ledger
  import opened Utf8
  import opened Json
  import opened Audit
  import opened Feed
  import opened DecisionLoop
  import opened DeskLaws
  import opened DeskTrail
  import Anchoring

  // ------------------------------------------------------------- around one fill

  /** Of every open, none is written ahead: when the fill is booked the position
      is held and remembered, and log, board and submissions are those of
      before. The row follows exactly when it can be stored. */
  lemma {:induction false} FillBeforeRow(rig: Rig, desk: Desk, d: Decision, m: Market, quotes: Quotes,
                                         btc: Option<Regime>, seal: Seal)
    requires Sound(rig, desk) && m.asset == d.asset && Quoted(quotes)
    requires rig.auditing
    ensures
      var plan := PlanAt(rig, desk, d, m, quotes, btc);
      plan.Go? ==>
        var bought := Bought(rig, desk, d.asset, plan.sized, m);
        var done := EnterSized(rig, desk, d, m, quotes, btc, seal);
        && bought.reply.Ok? && d.asset in bought.desk.acct.positions && d.asset in bought.desk.sized
        && bought.desk.rows == desk.rows && bought.desk.board == desk.board && bought.desk.submitted == desk.submitted
        && done.desk.acct == bought.desk.acct
        && (if Storable(d, seal) then
              && |done.desk.rows| == |desk.rows| + 1 && desk.rows <= done.desk.rows
              && done.desk.rows[|desk.rows|].auditId == seal.auditId
            else done.desk.rows == desk.rows && done.reply.Err?)
  {
    var acct := desk.acct;
    PlanPassed(rig, d, m, QuoteOf(quotes, d.asset), btc, Equity(acct), d.asset in acct.positions, |acct.positions|,
               Exposure(acct));
    var plan := PlanAt(rig, desk, d, m, quotes, btc);
    if plan.Go? {
      OpenSucceeds(rig.venue, acct, plan.sized, m);
      StoredIff(rig, d, d.side.value, plan.sized, seal);
      hide PlanOpen, OpenSized, Sound, Stored, Shown, Recent, Storable, Equity, Exposure;
    }
  }

  /** What follows the fill is the trading thread's three atomic actions: store,
      show, submit. */
  lemma {:induction false} TrailIsThreeSteps(rig: Rig, desk: Desk, d: Decision, side: string, s: Sized, fill: Fill,
                                             edgeBps: real, seal: Seal, w: Anchoring.World)
    requires rig.auditing && rig.showing && rig.anchoring && Stored(rig, d, side, s, seal).Ok?
    requires w.log == desk.rows && w.board == desk.board && w.trader.Ready?
    requires forall r :: r in desk.rows ==> r.auditId != seal.auditId
    ensures
      var record := Stored(rig, d, side, s, seal).value;
      var store := Anchoring.Store(record, d.asset);
      var show := Anchoring.Show(LinkFor(side, s, fill, record),
        EntryFor(rig, d, side, s, fill, edgeBps, seal, record));
      && Anchoring.Enabled(w, store)
      && var stored := Anchoring.Step(w, store);
         && Anchoring.Enabled(stored, show)
         && var shown := Anchoring.Step(stored, show);
            && Anchoring.Enabled(shown, Anchoring.Submit)
            && var after := Anchoring.Step(shown, Anchoring.Submit);
               var trail := Trail(rig, desk, d, side, s, fill, edgeBps, seal).desk;
               var job := Anchoring.Job(record, d.asset);
               && after.log == trail.rows && after.board == trail.board && after.trader == Anchoring.Ready
               && trail.submitted == desk.submitted + [(record, d.asset)]
               && (if Anchoring.Accepts(w.queue)
                   then after.accepted == w.accepted + [job] && after.queue == w.queue + [Anchoring.Work(job)]
                   else after.dropped == w.dropped + [job] && after.queue == w.queue)
  {
    StoredNames(rig, d, side, s, seal);
    hide Stored, Breakdown, RecordDecision, Recent;
  }

  /** One input that shows it: a reasoning of a single lone surrogate. The fill
      stands, and nothing of the open was written down. */
  lemma {:induction false} LoneSurrogateStrands(rig: Rig, s: Sized, m: Market, seal: Seal)
    requires rig.auditing
    requires s.candidate.asset == "BTC" == m.asset && s.qty > 0.0 && s.notional > 0.0
    ensures
      var d := Decision("BTC", "enter", Some("long"), Codes("d-0001"), [0xD800]);
      var done := Fulfil(rig, Fresh(1000.0, [], []), d, "long", s, m, 0.0, seal);
      && EncodeStrict(d.reasoning).None? && done.reply == Err(UnicodeEncode)
      && "BTC" in done.desk.acct.positions && "BTC" in done.desk.sized
      && done.desk.rows == [] && done.desk.submitted == [] && done.desk.board.links == map[]
  {
    var d := Decision("BTC", "enter", Some("long"), Codes("d-0001"), [0xD800]);
    var desk := Fresh(1000.0, [], []);
    assert !Scalar(d.reasoning[0]);
    OpenSucceeds(rig.venue, desk.acct, s, m);
    assert Stored(rig, d, "long", s, seal) == Err(UnicodeEncode) by {
      assert DraftFor(rig, d, "long", s, seal).reasoning == d.reasoning;
      assert !Encodable(d.reasoning);
      hide Breakdown;
    }
    FulfilShape(rig, desk, d, "long", s, m, 0.0, seal);
    hide Fulfil, OpenSized, Stored;
  }

  // --------------------------------------------------------------- after a restart

  /** The regime in full, as a restart shows it. */
  function LongRegime(regime: Regime): string {
    TrendName(regime.trend) + "·" + VolName(regime.vol) + "·" + FundingName(regime.funding)
  }

  function Kept2048(reasoning: RawText): RawText {
    if |reasoning| <= 2048 then reasoning else reasoning[..2048]
  }

  /** The row of an open: the agent's own words, the first 2048 code points of the
      reasoning, and a trade that waits for its outcome and its anchor. */
  lemma {:induction false} StoredRowTells(rig: Rig, d: Decision, side: string, s: Sized, seal: Seal)
    requires Stored(rig, d, side, s, seal).Ok?
    ensures
      var r := Stored(rig, d, side, s, seal).value;
      && Codes(r.decisionId) == d.decisionId && Codes(r.reasoning) == Kept2048(d.reasoning)
      && r.outcome == "PENDING" && r.verdict == "EXECUTE" && Waiting(r)
      && r.fill.None? && r.venueOrderId.None? && r.arcTxHash.None? && r.arcJobId.None?
      && r.agentAddress == rig.wallet && r.chainId == "5042002" && r.venue == "hyperliquid-paper"
      && r.decidedAtIso == seal.decidedAt && r.nonceHex == seal.nonceHex && r.inputHashes == seal.inputHashes
  {
    CodesOfChars(Shortened(d.reasoning));
    CodesOfChars(d.decisionId);
    hide Breakdown, Chars, Codes, Encodable;
  }

  /** Main result on showing an open: the link and the newest feed entry tell the
      trade that was sized and the position that was bought, and wait for its
      anchor. */
  lemma {:induction false} OpenIsTold(rig: Rig, desk: Desk, d: Decision, side: string, s: Sized, m: Market,
                                      edgeBps: real, seal: Seal)
    requires rig.auditing && rig.showing && Storable(d, seal)
    requires s.candidate.asset == d.asset == m.asset && s.qty > 0.0 && s.notional > 0.0
    requires d.asset !in desk.acct.positions
    ensures
      var after := Fulfil(rig, desk, d, side, s, m, edgeBps, seal).desk;
      && d.asset in after.board.links && d.asset in after.acct.positions && after.board.feed != []
      && var l, p, e := after.board.links[d.asset], after.acct.positions[d.asset], after.board.feed[0];
         && l.auditId == seal.auditId && Codes(l.decisionId) == d.decisionId && l.side == side
         && l.qty == s.qty == p.qty && l.notional == s.notional && l.leverage == s.leverage
         && l.entryPrice == p.entryPrice
         && l.stop == Some(s.stopPrice) == p.stop && l.take == Some(s.takePrice) == p.take
         && l.tier == TierName(s.tier) && l.regime == FmtRegime(s.regime)
         && l.anchor == Anchor("pending", None, None)
         && e.id == Opening(seal.auditId) && e.story.Opened? && e.story.entryPrice == Some(p.entryPrice)
         && e.story.edgeBps == Some(edgeBps) && e.story.decidedAt == seal.shownAt && e.story.reasoning == d.reasoning
         && e.anchor == Anchor(if rig.anchoring then "pending" else "off", None, None)
  {
    OpenSucceeds(rig.venue, desk.acct, s, m);
    StoredIff(rig, d, side, s, seal);
    StoredNames(rig, d, side, s, seal);
    StoredRowTells(rig, d, side, s, seal);
    var fill := OpenSized(rig.venue, desk.acct, s, m).result.value;
    var record := Stored(rig, d, side, s, seal).value;
    var entry := EntryFor(rig, d, side, s, fill, edgeBps, seal, record);
    var booked := Bought(rig, desk, d.asset, s, m).desk;
    assert booked.board == desk.board && booked.acct == OpenSized(rig.venue, desk.acct, s, m).account;
    hide OpenSized, Stored, Storable, Breakdown, Recent, TierName, FmtRegime, Codes, Without, Bought;
    assert Fulfil(rig, desk, d, side, s, m, edgeBps, seal)
        == Trail(rig, booked, d, side, s, fill, edgeBps, seal) by {
      FulfilIs(rig, desk, d, side, s, m, edgeBps, seal);
    }
    hide Fulfil;
    assert RecordDecision(RecordOpen(desk.board, d.asset, LinkFor(side, s, fill, record)).feed, entry)[0] == entry;
  }

  lemma {:induction false} FulfilIs(rig: Rig, desk: Desk, d: Decision, side: string, s: Sized, m: Market,
                                    edgeBps: real, seal: Seal)
    requires OpenSized(rig.venue, desk.acct, s, m).result.Ok?
    ensures Fulfil(rig, desk, d, side, s, m, edgeBps, seal)
         == Trail(rig, Bought(rig, desk, d.asset, s, m).desk, d, side, s,
                  OpenSized(rig.venue, desk.acct, s, m).result.value, edgeBps, seal)
  {
    hide OpenSized, Trail, Bought;
  }

  /** The feed entry a restart rebuilds from the stored row is the one the open
      showed: the same id, decision, asset, side and figures, the reasoning as
      far as it was stored, and the regime spelled out. Entry price and edge are
      not stored. */
  lemma {:induction false} RestartShowsDecision(rig: Rig, d: Decision, side: string, s: Sized, fill: Fill,
                                                edgeBps: real, seal: Seal)
    requires Stored(rig, d, side, s, seal).Ok?
    ensures
      var record := Stored(rig, d, side, s, seal).value;
      var live := EntryFor(rig, d, side, s, fill, edgeBps, seal, record);
      var back := HydratedEntry(record);
      && back.id == live.id == Opening(seal.auditId)
      && back.story == live.story.(entryPrice := None, edgeBps := None, reasoning := Kept2048(d.reasoning),
                                   regime := LongRegime(s.regime), decidedAt := seal.decidedAt)
      && live.story.edgeBps == Some(edgeBps) && live.story.entryPrice == Some(fill.price)
      && live.story.reasoning == d.reasoning && live.story.side == Some(side) && live.story.asset == d.asset
      && live.story.figures == map["qty" := Num(rig.numeral(s.qty)), "notional_usd" := Num(rig.numeral(s.notional)),
                                   "leverage" := Num(rig.numeral(s.leverage)),
                                   "stop_price" := Num(rig.numeral(s.stopPrice)),
                                   "take_price" := Num(rig.numeral(s.takePrice)), "tier" := Str(TierName(s.tier))]
      && back.anchor == Anchor("unknown", None, None)
  {
    StoredNames(rig, d, side, s, seal);
    StoredRowTells(rig, d, side, s, seal);
    BlockShown(rig, s);
    hide Stored, Breakdown, Figures, Label, Kept2048, LongRegime, FmtRegime, Codes;
  }

  /** What the sizing block of a row shows, live and after a restart. */
  lemma {:induction false} BlockShown(rig: Rig, s: Sized)
    ensures
      var block := Breakdown(rig, s);
      && Figures(block) == map["qty" := Num(rig.numeral(s.qty)), "notional_usd" := Num(rig.numeral(s.notional)),
                               "leverage" := Num(rig.numeral(s.leverage)),
                               "stop_price" := Num(rig.numeral(s.stopPrice)),
                               "take_price" := Num(rig.numeral(s.takePrice)), "tier" := Str(TierName(s.tier))]
      && Label(block, "regime_trend") + "·" + Label(block, "regime_vol") + "·" + Label(block, "regime_funding")
           == LongRegime(s.regime)
  {
    hide TierName, TrendName, VolName, FundingName;
  }

  lemma {:induction false} CodesOfChars(t: RawText)
    requires Encodable(t)
    ensures Codes(Chars(t)) == t
  {
  }

  /** Once the worker's row is there, a restart shows the anchor its report put
      on the board. */
  lemma {:induction false} RestartShowsAnchor(w: Anchoring.World)
    requires w.worker.Appending?
    ensures
      var after := Anchoring.Step(w, Anchoring.Append(true));
      var landed := Anchoring.Stamped(after.worker.response, after.worker.failed);
      after.log != [] &&
        (landed.Some? ==> HydratedEntry(after.log[|after.log| - 1]).anchor == landed.value) &&
        (landed.None? ==> HydratedEntry(after.log[|after.log| - 1]).anchor == Anchor("unknown", w.worker.tx, None))
  {
    hide Label;
  }

  // ------------------------------------------------------------------ whole runs

  /** A stored row is the decision that opened this position. */
  predicate Backs(rig: Rig, r: AuditRecord, asset: string, p: Pos) {
    && r.asset == asset && r.side == Some(p.side) && r.verdict == EXECUTE
    && r.sized.Some? && Figure(r.sized.value, "qty") == Num(rig.numeral(p.qty))
  }

  /** Every open position but these has its row. */
  ghost predicate Backed(rig: Rig, desk: Desk, but: set<string>) {
    rig.auditing ==> forall a :: a in desk.acct.positions && a !in but ==>
      exists r :: r in desk.rows && Backs(rig, r, a, desk.acct.positions[a])
  }

  /** Steps that add no rows and open nothing keep every row in place. */
  lemma {:induction false} FewerBacked(rig: Rig, before: Desk, after: Desk, but: set<string>)
    requires Backed(rig, before, but) && after.rows == before.rows
    requires forall a :: a in after.acct.positions ==>
      && a in before.acct.positions && after.acct.positions[a].side == before.acct.positions[a].side
      && after.acct.positions[a].qty == before.acct.positions[a].qty
    ensures Backed(rig, after, but)
  {
    if rig.auditing {
      forall a | a in after.acct.positions && a !in but
        ensures exists r :: r in after.rows && Backs(rig, r, a, after.acct.positions[a])
      {
        var r :| r in before.rows && Backs(rig, r, a, before.acct.positions[a]);
      }
    }
  }

  lemma {:induction false} OpenBacked(rig: Rig, before: Desk, after: Desk, asset: string, p: Pos, r: AuditRecord)
    requires Backed(rig, before, {}) && Backs(rig, r, asset, p)
    requires after.rows == before.rows + [r] && after.acct.positions == before.acct.positions[asset := p]
    ensures Backed(rig, after, {})
  {
    if rig.auditing {
      forall a | a in after.acct.positions
        ensures exists q :: q in after.rows && Backs(rig, q, a, after.acct.positions[a])
      {
        if a == asset {
          assert r in after.rows;
        } else {
          var q :| q in before.rows && Backs(rig, q, a, before.acct.positions[a]);
          assert q in after.rows;
        }
      }
    }
  }

  lemma {:induction false} OpenedTerms(venue: Venue, acct: Account, s: Sized, m: Market)
    requires OpenSized(venue, acct, s, m).result.Ok?
    ensures
      var after := OpenSized(venue, acct, s, m).account.positions;
      && s.candidate.asset in after && after == acct.positions[s.candidate.asset := after[s.candidate.asset]]
      && after[s.candidate.asset].side == s.candidate.side && after[s.candidate.asset].qty == s.qty
  {
  }

  lemma {:induction false} RowBacks(rig: Rig, d: Decision, side: string, s: Sized, seal: Seal, p: Pos)
    requires Stored(rig, d, side, s, seal).Ok? && p.side == side && p.qty == s.qty
    ensures Backs(rig, Stored(rig, d, side, s, seal).value, d.asset, p)
  {
    StoredNames(rig, d, side, s, seal);
    assert Figure(Breakdown(rig, s), "qty") == Num(rig.numeral(s.qty));
    hide Stored, Breakdown;
  }

  lemma {:induction false} EnterBacked(rig: Rig, desk: Desk, d: Decision, m: Market, quotes: Quotes,
                                       btc: Option<Regime>, seal: Seal)
    requires Backed(rig, desk, {})
    ensures
      var done := EnterSized(rig, desk, d, m, quotes, btc, seal);
      Backed(rig, done.desk, if done.reply.Ok? then {} else {d.asset})
  {
    var acct := desk.acct;
    PlanPassed(rig, d, m, QuoteOf(quotes, d.asset), btc, Equity(acct), d.asset in acct.positions, |acct.positions|,
               Exposure(acct));
    hide PlanOpen, Equity, Exposure;
    var plan := PlanAt(rig, desk, d, m, quotes, btc);
    if plan.Go? {
      FulfilBacked(rig, desk, d, plan.sized, m, quotes[d.asset].1.edgeAfterCostBps, seal);
    }
  }

  lemma {:induction false} FulfilBacked(rig: Rig, desk: Desk, d: Decision, s: Sized, m: Market, edgeBps: real,
                                        seal: Seal)
    requires Backed(rig, desk, {}) && s.candidate.asset == d.asset
    ensures
      var done := Fulfil(rig, desk, d, s.candidate.side, s, m, edgeBps, seal);
      Backed(rig, done.desk, if done.reply.Ok? then {} else {d.asset})
  {
    var done := Fulfil(rig, desk, d, s.candidate.side, s, m, edgeBps, seal);
    if OpenSized(rig.venue, desk.acct, s, m).result.Ok? {
      OpenedTerms(rig.venue, desk.acct, s, m);
      var p := OpenSized(rig.venue, desk.acct, s, m).account.positions[d.asset];
      hide OpenSized, Shown, Recent, Backed;
      if rig.auditing && Stored(rig, d, s.candidate.side, s, seal).Ok? {
        RowBacks(rig, d, s.candidate.side, s, seal, p);
        hide Stored;
        OpenBacked(rig, desk, done.desk, d.asset, p, Stored(rig, d, s.candidate.side, s, seal).value);
      } else {
        hide Stored;
        OthersBacked(rig, desk, done.desk, d.asset, p);
        if !rig.auditing {
          Unaudited(rig, done.desk);
        }
      }
    } else {
      FewerBacked(rig, desk, done.desk, {});
      BackedFewer(rig, done.desk, {d.asset});
    }
  }

  lemma {:induction false} Unaudited(rig: Rig, desk: Desk)
    requires !rig.auditing
    ensures Backed(rig, desk, {})
  {
  }

  lemma {:induction false} BackedFewer(rig: Rig, desk: Desk, but: set<string>)
    requires Backed(rig, desk, {})
    ensures Backed(rig, desk, but)
  {
  }

  lemma {:induction false} OthersBacked(rig: Rig, before: Desk, after: Desk, asset: string, p: Pos)
    requires Backed(rig, before, {}) && after.rows == before.rows
    requires after.acct.positions == before.acct.positions[asset := p]
    ensures Backed(rig, after, {asset})
  {
    if rig.auditing {
      forall a | a in after.acct.positions && a !in {asset}
        ensures exists r :: r in after.rows && Backs(rig, r, a, after.acct.positions[a])
      {
        assert a in before.acct.positions;
      }
    }
  }

  lemma {:induction false} CloseKeepsTerms(venue: Venue, acct: Account, asset: string, m: Market)
    ensures
      var after := Close(venue, acct, asset, m).account.positions;
      forall a :: a in after ==>
        a in acct.positions && after[a].side == acct.positions[a].side && after[a].qty == acct.positions[a].qty
  {
    hide SideSlippageBps, ClosingFill;
  }

  lemma {:induction false} CloseBacked(rig: Rig, desk: Desk, asset: string, m: Market, trigger: string)
    requires Backed(rig, desk, {}) && asset in desk.acct.positions
    ensures Backed(rig, CloseHeld(rig, desk, asset, m, trigger).desk, {})
  {
    CloseKeepsTerms(rig.venue, desk.acct, asset, m);
    hide Close, RecordClose, Recent, Backed;
    FewerBacked(rig, desk, CloseHeld(rig, desk, asset, m, trigger).desk, {});
  }

  lemma {:induction false} CheckKeepsTerms(venue: Venue, acct: Account, m: Market)
    ensures
      var after := CheckStops(venue, acct, m).account.positions;
      forall a :: a in after ==>
        a in acct.positions && after[a].side == acct.positions[a].side && after[a].qty == acct.positions[a].qty
  {
    CloseKeepsTerms(venue, acct, m.asset, m);
    hide Close, Fires;
  }

  lemma {:induction false} TickBacked(rig: Rig, desk: Desk, asset: string, m: Market)
    requires Backed(rig, desk, {})
    ensures Backed(rig, TickAsset(rig, desk, asset, m).desk, {})
  {
    var marked := Tick(rig.venue, desk.acct, m);
    TickKeepsTerms(rig.venue, desk.acct, m);
    CheckKeepsTerms(rig.venue, marked, m);
    hide Tick, CheckStops, RecordClose, Recent, Backed, TriggerOf;
    FewerBacked(rig, desk, TickAsset(rig, desk, asset, m).desk, {});
  }

  lemma {:induction false} ApplyBacked(rig: Rig, desk: Desk, d: Decision, m: Market, quotes: Quotes,
                                       btc: Option<Regime>, seal: Seal)
    requires Backed(rig, desk, {})
    ensures
      var done := Apply(rig, desk, d, m, quotes, btc, seal);
      Backed(rig, done.desk, if done.reply.Ok? then {} else {d.asset})
  {
    hide EnterSized, CloseHeld, Backed;
    if d.asset in desk.acct.positions {
      CloseBacked(rig, desk, d.asset, m, "cut");
      CloseBacked(rig, desk, d.asset, m, "flip");
      BackedFewer(rig, CloseHeld(rig, desk, d.asset, m, "cut").desk, {d.asset});
      BackedFewer(rig, CloseHeld(rig, desk, d.asset, m, "flip").desk, {d.asset});
      EnterBacked(rig, CloseHeld(rig, desk, d.asset, m, "flip").desk, d, m, quotes, btc, seal);
    } else {
      EnterBacked(rig, desk, d, m, quotes, btc, seal);
    }
  }

  lemma {:induction false} TickAllBacked(rig: Rig, desk: Desk, snaps: map<string, Market>, order: seq<string>)
    requires Backed(rig, desk, {})
    ensures Backed(rig, TickAll(rig, desk, snaps, order).desk, {})
    decreases |order|
  {
    if order != [] {
      hide TickAsset, Backed;
      TickAllBacked(rig, desk, snaps, order[..|order| - 1]);
      var asset := order[|order| - 1];
      if asset in snaps {
        TickBacked(rig, TickAll(rig, desk, snaps, order[..|order| - 1]).desk, asset, snaps[asset]);
      }
    }
  }

  lemma {:induction false} DrainBacked(rig: Rig, desk: Desk, snaps: map<string, Market>, quotes: Quotes,
                                       ds: Proposals)
    requires Backed(rig, desk, {})
    ensures
      var drained := Drain(rig, desk, snaps, quotes, ds);
      && (drained.fault.None? ==> Backed(rig, drained.desk, {}))
      && (drained.fault.Some? ==> exists asset :: Backed(rig, drained.desk, {asset}))
    decreases |ds|
  {
    if ds != [] {
      hide Apply, BtcRegime, Backed;
      var before := Drain(rig, desk, snaps, quotes, ds[..|ds| - 1]);
      DrainBacked(rig, desk, snaps, quotes, ds[..|ds| - 1]);
      var (d, seal) := ds[|ds| - 1];
      if before.fault.None? && d.asset in snaps {
        ApplyBacked(rig, before.desk, d, snaps[d.asset], quotes, BtcRegime(snaps), seal);
      }
    }
  }

  /** Main result: over every run that raised nothing, with auditing on, every
      open position of the account has a stored decision to trade that asset,
      on that side and of that size; a run that ended in an exception leaves at
      most one position without. */
  lemma {:induction false} EveryRunBacked(rig: Rig, starting: real, feed: seq<Entry>, rows: seq<AuditRecord>,
                                          evs: seq<Event>)
    ensures
      var ran := RunDesk(rig, Fresh(starting, feed, rows), evs);
      && (ran.fault.None? ==> Backed(rig, ran.desk, {}))
      && (ran.fault.Some? ==> exists asset :: Backed(rig, ran.desk, {asset}))
    decreases |evs|
  {
    if evs != [] {
      EveryRunBacked(rig, starting, feed, rows, evs[..|evs| - 1]);
      var before := RunDesk(rig, Fresh(starting, feed, rows), evs[..|evs| - 1]);
      hide TickAll, Drain, UpdateAnchor, Backed;
      if before.fault.None? {
        match evs[|evs| - 1]
        case AnchorResult(asset, auditId, anchor) =>
          FewerBacked(rig, before.desk, Advance(rig, before.desk, evs[|evs| - 1]).desk, {});
        case Pass(snaps, order, quotes, ds) =>
          TickAllBacked(rig, before.desk, snaps, order);
          var ticked := TickAll(rig, before.desk, snaps, order);
          BackedFewer(rig, ticked.desk, {""});
          if ds.Some? {
            DrainBacked(rig, ticked.desk, snaps, quotes, ds.value);
          }
      }
    }
  }
}
