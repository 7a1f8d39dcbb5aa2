/** The decision loop as it runs: objects updated in place by the pipeline, the
    executor, the audit store and the board. Each call is proved to leave exactly
    the desk the Desk functions describe. */
module Runner {
  import opened Basics
  import opened Contracts
  import opened Ledger
  import opened RiskGate
  import opened Regimes
  import opened Sizing
  import opened Aggregate
  import opened Executor
  import opened Json
  import opened Utf8
  import opened Audit
  import opened Feed
  import opened Snapshots
  import opened DecisionLoop
  import CostModel
  import Attribution

  /** Every number prints as a JSON number token. */
  ghost predicate Numerals(rig: Rig) {
    forall x :: NumberToken(rig.numeral(x))
  }

  lemma {:induction false} RecordWritable(rig: Rig, d: Decision, side: string, s: Sized, seal: Seal)
    requires Numerals(rig)
    requires Sealed(DraftFor(rig, d, side, s, seal)).Some?
    ensures Writable(Sealed(DraftFor(rig, d, side, s, seal)).value)
  {
    assert NumberToken(CHAIN_ID);
    var block := Breakdown(rig, s);
    hide NumberToken;
    forall k | k in block ensures Printable(block[k]) {
    }
  }

  class TradingLoop {
    const rig: Rig
    const portfolio: Portfolio
    const executor: SimExecutor
    const store: AuditStore
    const snap: SnapshotState
    var lastSized: map<string, Sized>
    var recentFills: seq<Fill>
    var submitted: seq<(AuditRecord, string)>
    ghost var calls: seq<Attribution.Event>

    ghost predicate Valid()
      reads this, portfolio, store
    {
      portfolio.Valid() && store.Valid() && executor.venue == rig.venue && Numerals(rig)
    }

    ghost function View(): Desk
      reads this, portfolio, portfolio.positions.Values, store, snap
    {
      Desk(portfolio.View(), lastSized, snap.View(), store.log, submitted, recentFills, calls)
    }

    constructor (rig: Rig, portfolio: Portfolio, executor: SimExecutor, store: AuditStore, snap: SnapshotState)
      requires portfolio.Valid() && store.Valid() && executor.venue == rig.venue && Numerals(rig)
      ensures Valid() && this.portfolio == portfolio && this.store == store && this.snap == snap && this.rig == rig
      ensures View() == Desk(portfolio.View(), map[], snap.View(), store.log, [], [], [])
    {
      this.rig, this.portfolio, this.executor, this.store, this.snap := rig, portfolio, executor, store, snap;
      lastSized, recentFills, submitted, calls := map[], [], [], [];
    }

    method Remember(fill: Fill)
      modifies this`recentFills
      ensures recentFills == Recent(old(recentFills), fill)
    {
      recentFills := recentFills + [fill];
      if |recentFills| > FILLS_MAX {
        recentFills := recentFills[|recentFills| - FILLS_MAX..];
      }
    }

    method Show(d: Decision, side: string, s: Sized, fill: Fill, edgeBps: real, seal: Seal, record: AuditRecord)
      modifies snap
      ensures snap.View() == old(Shown(rig, snap.View(), d, side, s, fill, edgeBps, seal, record))
    {
      hide LinkFor, EntryFor, Feed.RecordOpen, Feed.RecordDecision, SnapshotState.View;
      snap.RecordOpen(d.asset, LinkFor(side, s, fill, record));
      snap.RecordDecision(EntryFor(rig, d, side, s, fill, edgeBps, seal, record));
    }

    /** The paper trail of a fill: audit row, board, submission, in that order.
        An exception of the append leaves the other two undone. */
    method LeaveTrail(d: Decision, side: string, s: Sized, fill: Fill, edgeBps: real, seal: Seal)
      returns (reply: Result<Reply>)
      requires Valid()
      modifies this`submitted, store, snap
      ensures Valid()
      ensures Applied(View(), reply) == old(Trail(rig, View(), d, side, s, fill, edgeBps, seal))
    {
      hide DraftFor, Sealed, Shown, Writable, Numerals, Portfolio.View, SnapshotState.View, Portfolio.Valid,
        AuditStore.Valid;
      if rig.auditing {
        var draft := DraftFor(rig, d, side, s, seal);
        if Sealed(draft).Some? {
          RecordWritable(rig, d, side, s, seal);
        }
        var rowid := store.Append(draft, seal.accepts);
        if rowid.Err? {
          return Err(rowid.fault);
        }
        var record := Sealed(draft).value;
        if rig.showing {
          Show(d, side, s, fill, edgeBps, seal, record);
        }
        if rig.anchoring {
          submitted := submitted + [(record, d.asset)];
        }
      }
      reply := Ok(Kept);
    }

    /** The pipeline in front of an open; it only reads. */
    method PlanEntry(d: Decision, m: Market, quotes: Quotes, btc: Option<Regime>) returns (plan: Plan)
      requires Valid()
      ensures plan == PlanAt(rig, View(), d, m, quotes, btc)
    {
      hide Classify, Hourly, Size, Gate, Equity, Exposure, Numerals, ClassifyTier, EffectiveRegime;
      hide Portfolio.View, SnapshotState.View, Portfolio.Valid, AuditStore.Valid;
      if d.side.None? {
        return Stop(NoSide);
      }
      if d.asset !in quotes {
        return Stop(NoBoardEntry);
      }
      var quote := quotes[d.asset];
      var bars := AggregateTo1h(m.bars);
      if |bars| < MIN_1H_BARS {
        return Stop(WarmUp(|bars|));
      }
      var tier := ClassifyTier(d.asset);
      var local := Classify(bars, m.fundingRate, tier);
      if local.Err? {
        return Stop(RegimeError(local.fault));
      }
      var regime := EffectiveRegime(d.asset, local.value, btc);
      var equity := portfolio.EquityUsd();
      var seed := Seed(d, d.side.value, quote.1.notional, quote);
      var sized := Size(rig.sizer, seed, m, bars, equity, regime, tier);
      if sized.Err? {
        return Stop(SizingError(sized.fault));
      }
      var exposure := portfolio.ExposureUsd();
      plan := PassGates(d, d.side.value, m, quote, sized.value, exposure);
    }

    /** The last gates, with the account as it stands. */
    method PassGates(d: Decision, side: string, m: Market, quote: (Forecast, Cost), sized: Sized, exposure: real)
      returns (plan: Plan)
      ensures
        var open := portfolio.View().positions;
        plan == Gate(rig, d, side, m, quote, sized, d.asset in open, |open|, exposure)
    {
      assert portfolio.View().positions.Keys == portfolio.positions.Keys;
      assert |portfolio.View().positions| == |portfolio.View().positions.Keys| == |portfolio.positions.Keys|;
      if sized.qty <= 0.0 {
        return Stop(StandDown(sized.regime));
      }
      var cost := CostModel.Assess(rig.cost, quote.0, m, sized.notional);
      if cost.Err? {
        return Raise(cost.fault);
      }
      var candidate := Seed(d, side, sized.notional, (quote.0, cost.value));
      var verdict := Evaluate(rig.limits, candidate, d.asset in portfolio.positions, |portfolio.positions|, exposure);
      plan := if verdict != Approved then Stop(Gated(verdict)) else Go(sized);
    }

    /** Open a position through the sizing pipeline. */
    method EnterSized(d: Decision, m: Market, quotes: Quotes, btc: Option<Regime>, seal: Seal)
      returns (reply: Result<Reply>)
      requires Valid()
      modifies this, portfolio, store, snap
      ensures Valid() && fresh(portfolio.positions.Values - old(portfolio.positions.Values))
      ensures Applied(View(), reply) == old(DecisionLoop.EnterSized(rig, View(), d, m, quotes, btc, seal))
    {
      hide PlanOpen, Fulfil, Equity, Exposure, Numerals;
      var plan := PlanEntry(d, m, quotes, btc);
      match plan
      case Stop(why) => reply := Ok(Vetoed(why));
      case Raise(fault) => reply := Err(fault);
      case Go(s) => reply := Fill(d, d.side.value, s, m, quotes[d.asset].1.edgeAfterCostBps, seal);
    }

    /** Buy what the pipeline approved and leave the trail. */
    method Fill(d: Decision, side: string, s: Sized, m: Market, edgeBps: real, seal: Seal)
      returns (reply: Result<Reply>)
      requires Valid()
      modifies this, portfolio, store, snap
      ensures Valid() && fresh(portfolio.positions.Values - old(portfolio.positions.Values))
      ensures Applied(View(), reply) == old(Fulfil(rig, View(), d, side, s, m, edgeBps, seal))
    {
      hide OpenSized, Trail, Recent, Numerals, Portfolio.View, SnapshotState.View;
      ghost var desk := View();
      var bought := executor.OpenSized(s, m, portfolio);
      calls := calls + [Attribution.OpenSizedEv(s, m)];
      if bought.Err? {
        return Err(bought.fault);
      }
      Remember(bought.value);
      lastSized := lastSized[d.asset := s];
      assert View() == desk.(acct := portfolio.View(), calls := calls, fills := Recent(desk.fills, bought.value),
                             sized := desk.sized[d.asset := s]);
      reply := LeaveTrail(d, side, s, bought.value, edgeBps, seal);
    }

    /** What follows a closing fill. */
    method Book(asset: string, pre: Option<Pos>, fill: Fill, trigger: string)
      requires Valid()
      modifies this`recentFills, this`lastSized, snap
      ensures Valid()
      ensures View() == old(BookClose(rig, View(), asset, pre, fill, trigger))
    {
      hide Recent, Numerals;
      Remember(fill);
      lastSized := lastSized - {asset};
      if rig.showing && pre.Some? {
        snap.RecordClose(ExitOf(asset, pre.value, fill, trigger));
      }
    }

    method CloseHeld(asset: string, m: Market, trigger: string) returns (reply: Result<Reply>)
      requires Valid() && asset in portfolio.positions
      modifies this, portfolio, portfolio.positions.Values, snap
      ensures Valid() && portfolio.positions.Values <= old(portfolio.positions.Values)
      ensures store.log == old(store.log)
      ensures Applied(View(), reply) == old(DecisionLoop.CloseHeld(rig, View(), asset, m, trigger))
    {
      hide Close, BookClose, Numerals;
      var pre := portfolio.positions[asset].Snapshot();
      var closed := executor.Close(asset, m, portfolio);
      calls := calls + [Attribution.CloseEv(asset, m)];
      if closed.Err? {
        return Err(closed.fault);
      }
      Book(asset, Some(pre), closed.value, trigger);
      reply := Ok(Kept);
    }

    method Apply(d: Decision, m: Market, quotes: Quotes, btc: Option<Regime>, seal: Seal) returns (reply: Result<Reply>)
      requires Valid()
      modifies this, portfolio, portfolio.positions.Values, store, snap
      ensures Valid() && fresh(portfolio.positions.Values - old(portfolio.positions.Values))
      ensures Applied(View(), reply) == old(DecisionLoop.Apply(rig, View(), d, m, quotes, btc, seal))
    {
      hide DecisionLoop.EnterSized, DecisionLoop.CloseHeld, Numerals;
      if d.action == "enter" {
        if d.asset in portfolio.positions {
          return Ok(Vetoed(HeldAlready));
        }
        reply := EnterSized(d, m, quotes, btc, seal);
      } else if d.action == "cut" {
        if d.asset !in portfolio.positions {
          return Ok(Vetoed(NothingToCut));
        }
        reply := CloseHeld(d.asset, m, "cut");
      } else if d.action == "flip" {
        if d.asset in portfolio.positions {
          reply := CloseHeld(d.asset, m, "flip");
          if reply.Err? {
            return;
          }
        }
        reply := EnterSized(d, m, quotes, btc, seal);
      } else {
        reply := Ok(Kept);
      }
    }

    method FireStops(asset: string, m: Market) returns (reply: Result<Reply>)
      requires Valid()
      modifies this, portfolio, portfolio.positions.Values, snap
      ensures Valid() && portfolio.positions.Values <= old(portfolio.positions.Values)
      ensures store.log == old(store.log)
      ensures Applied(View(), reply) == old(DecisionLoop.FireStops(rig, View(), asset, m))
    {
      hide CheckStops, DecisionLoop.AfterCheck, Numerals, SnapshotState.View, Portfolio.Valid, AuditStore.Valid;
      var pre := Held(asset);
      var closed := executor.CheckStops(m, portfolio);
      calls := calls + [Attribution.CheckStopsEv(m)];
      hide Portfolio.View;
      reply := AfterCheck(asset, pre, closed);
    }

    method AfterCheck(asset: string, pre: Option<Pos>, closed: Result<Option<Fill>>) returns (reply: Result<Reply>)
      requires Valid()
      modifies this`recentFills, this`lastSized, snap
      ensures Valid()
      ensures Applied(View(), reply) == old(DecisionLoop.AfterCheck(rig, View(), asset, pre, closed))
    {
      hide BookClose, TriggerOf, Numerals, Portfolio.View, SnapshotState.View, Portfolio.Valid, AuditStore.Valid;
      if closed.Err? {
        return Err(closed.fault);
      }
      if closed.value.Some? {
        var trigger := "stop";
        if pre.Some? {
          trigger := Trigger(pre.value, closed.value.value.price);
        }
        Book(asset, pre, closed.value.value, trigger);
      }
      reply := Ok(Kept);
    }

    /** What is held on an asset just now. */
    method Held(asset: string) returns (held: Option<Pos>)
      ensures
        var open := portfolio.View().positions;
        held == if asset in open then Some(open[asset]) else None
    {
      held := if asset in portfolio.positions then Some(portfolio.positions[asset].Snapshot()) else None;
    }

    method Trigger(p: Pos, exitPrice: real) returns (trigger: string)
      ensures trigger == TriggerOf(p, exitPrice)
    {
      trigger := "stop";
      if p.take.Some? {
        var longHit := p.side == "long" && exitPrice >= p.take.value;
        var shortHit := p.side == "short" && exitPrice <= p.take.value;
        if longHit || shortHit {
          trigger := "take";
        }
      }
    }

    method TickAsset(asset: string, m: Market) returns (reply: Result<Reply>)
      requires Valid()
      modifies this, portfolio, portfolio.positions.Values, snap
      ensures Valid() && portfolio.positions.Values <= old(portfolio.positions.Values)
      ensures store.log == old(store.log)
      ensures Applied(View(), reply) == old(DecisionLoop.TickAsset(rig, View(), asset, m))
    {
      hide Tick, DecisionLoop.FireStops, Numerals;
      executor.Tick(m, portfolio);
      calls := calls + [Attribution.TickEv(m)];
      reply := FireStops(asset, m);
    }

    /** Visit every asset that was open when the pass began, in some order. */
    method TickAll(snaps: map<string, Market>) returns (reply: Result<Reply>, ghost order: seq<string>)
      requires Valid()
      modifies this, portfolio, portfolio.positions.Values, snap
      ensures Valid() && portfolio.positions.Values <= old(portfolio.positions.Values)
      ensures store.log == old(store.log)
      ensures Applied(View(), reply) == old(DecisionLoop.TickAll(rig, View(), snaps, order))
      ensures reply.Ok? ==> forall a :: a in order <==> a in old(portfolio.positions)
      ensures forall i, j :: 0 <= i < j < |order| ==> order[i] != order[j]
    {
      hide DecisionLoop.TickAsset, Numerals;
      var rest := portfolio.positions.Keys;
      ghost var desk := View();
      ghost var open := rest;
      order := [];
      reply := Ok(Kept);
      while rest != {}
        invariant Valid() && portfolio.positions.Values <= old(portfolio.positions.Values)
        invariant store.log == old(store.log)
        invariant reply.Ok? && Applied(View(), reply) == DecisionLoop.TickAll(rig, desk, snaps, order)
        invariant rest <= open && forall a :: a in open <==> a in rest || a in order
        invariant forall a :: a in order ==> a !in rest
        invariant forall i, j :: 0 <= i < j < |order| ==> order[i] != order[j]
        decreases rest
      {
        var asset :| asset in rest;
        rest := rest - {asset};
        order := order + [asset];
        assert order[..|order| - 1] + [asset] == order;
        if asset in snaps {
          reply := TickAsset(asset, snaps[asset]);
          if reply.Err? {
            return;
          }
        }
      }
    }

    method BtcRegime(snaps: map<string, Market>) returns (btc: Option<Regime>)
      ensures btc == DecisionLoop.BtcRegime(snaps)
    {
      hide Classify, Hourly;
      if "BTC" !in snaps {
        return None;
      }
      var bars := AggregateTo1h(snaps["BTC"].bars);
      if |bars| < MIN_1H_BARS {
        return None;
      }
      var regime := Classify(bars, snaps["BTC"].fundingRate, ClassifyTier("BTC"));
      btc := if regime.Ok? then Some(regime.value) else None;
    }

    /** Apply the decisions of a completed agent call, in order. */
    method Drain(snaps: map<string, Market>, quotes: Quotes, ds: Proposals)
      returns (replies: seq<Reply>, fault: Option<Fault>)
      requires Valid()
      modifies this, portfolio, portfolio.positions.Values, store, snap
      ensures Valid() && fresh(portfolio.positions.Values - old(portfolio.positions.Values))
      ensures Drained(View(), replies, fault) == old(DecisionLoop.Drain(rig, View(), snaps, quotes, ds))
    {
      hide DecisionLoop.Drain, DecisionLoop.DrainOne, Numerals;
      var btc := BtcRegime(snaps);
      ghost var desk := View();
      replies, fault := [], None;
      DrainNone(rig, desk, snaps, quotes, ds);
      hide DecisionLoop.BtcRegime;
      for i := 0 to |ds|
        invariant Valid() && fresh(portfolio.positions.Values - old(portfolio.positions.Values))
        invariant fault.None?
        invariant Drained(View(), replies, fault) == DecisionLoop.Drain(rig, desk, snaps, quotes, ds[..i])
      {
        DrainNext(rig, desk, snaps, quotes, ds, i);
        replies, fault := DrainOne(snaps, quotes, btc, ds[i].0, ds[i].1, replies);
        if fault.Some? {
          DrainStops(rig, desk, snaps, quotes, ds, i + 1);
          return;
        }
      }
      assert ds[..|ds|] == ds;
    }

    /** The next decision of a drain. */
    method DrainOne(snaps: map<string, Market>, quotes: Quotes, btc: Option<Regime>, d: Decision, seal: Seal,
                    so: seq<Reply>) returns (replies: seq<Reply>, fault: Option<Fault>)
      requires Valid() && btc == DecisionLoop.BtcRegime(snaps)
      modifies this, portfolio, portfolio.positions.Values, store, snap
      ensures Valid() && fresh(portfolio.positions.Values - old(portfolio.positions.Values))
      ensures Drained(View(), replies, fault)
           == old(DecisionLoop.DrainOne(rig, Drained(View(), so, None), snaps, quotes, d, seal))
    {
      hide DecisionLoop.Apply, DecisionLoop.BtcRegime, Numerals;
      replies, fault := so, None;
      if d.asset !in snaps {
        replies := so + [Vetoed(NoSnapshot)];
      } else {
        var reply := Apply(d, snaps[d.asset], quotes, btc, seal);
        if reply.Err? {
          fault := Some(reply.fault);
        } else {
          replies := so + [reply.value];
        }
      }
    }

    /** One pass of the loop over live positions and completed decisions. */
    method Step(snaps: map<string, Market>, quotes: Quotes, ds: Option<Proposals>)
      returns (replies: seq<Reply>, fault: Option<Fault>, ghost order: seq<string>)
      requires Valid()
      modifies this, portfolio, portfolio.positions.Values, store, snap
      ensures Valid() && fresh(portfolio.positions.Values - old(portfolio.positions.Values))
      ensures Drained(View(), replies, fault) == old(DecisionLoop.Step(rig, View(), snaps, order, quotes, ds))
      ensures fault.None? ==> forall a :: a in order <==> a in old(portfolio.positions)
    {
      hide DecisionLoop.TickAll, DecisionLoop.Drain, Numerals;
      var ticked: Result<Reply>;
      ticked, order := TickAll(snaps);
      replies, fault := [], None;
      if ticked.Err? {
        fault := Some(ticked.fault);
        return;
      }
      if ds.Some? {
        replies, fault := Drain(snaps, quotes, ds.value);
      }
    }
  }

  lemma {:induction false} DrainNone(rig: Rig, desk: Desk, snaps: map<string, Market>, quotes: Quotes, ds: Proposals)
    ensures DecisionLoop.Drain(rig, desk, snaps, quotes, ds[..0]) == Drained(desk, [], None)
  {
  }

  lemma {:induction false} DrainNext(rig: Rig, desk: Desk, snaps: map<string, Market>, quotes: Quotes, ds: Proposals,
                                     i: nat)
    requires i < |ds|
    ensures
      var before := DecisionLoop.Drain(rig, desk, snaps, quotes, ds[..i]);
      DecisionLoop.Drain(rig, desk, snaps, quotes, ds[..i + 1])
        == DecisionLoop.DrainOne(rig, before, snaps, quotes, ds[i].0, ds[i].1)
  {
    hide DecisionLoop.DrainOne;
    assert ds[..i + 1][..i] == ds[..i];
  }

  /** Once a decision has raised, the rest of the drain changes nothing. */
  lemma {:induction false} DrainStops(rig: Rig, desk: Desk, snaps: map<string, Market>, quotes: Quotes, ds: Proposals,
                                      i: nat)
    requires i <= |ds| && DecisionLoop.Drain(rig, desk, snaps, quotes, ds[..i]).fault.Some?
    ensures DecisionLoop.Drain(rig, desk, snaps, quotes, ds) == DecisionLoop.Drain(rig, desk, snaps, quotes, ds[..i])
    decreases |ds|
  {
    hide DecisionLoop.Apply, DecisionLoop.BtcRegime;
    if i == |ds| {
      assert ds[..i] == ds;
    } else {
      assert ds[..|ds| - 1][..i] == ds[..i];
      DrainStops(rig, desk, snaps, quotes, ds[..|ds| - 1], i);
    }
  }
}
