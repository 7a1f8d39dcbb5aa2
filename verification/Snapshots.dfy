/** The mutable accumulator behind the dashboard, and its start-up from the
    audit store. Every call leaves exactly the board the Feed functions give. */
module Snapshots {
  import opened Basics
  import opened Json
  import opened Audit
  import opened Feed

  class SnapshotState {
    var auditLinks: map<string, Link>
    var tradeHistory: seq<Trade>
    var recentDecisions: seq<Entry>
    var equityCurve: seq<real>
    var ticksProcessed: nat
    var agentStatus: string

    ghost function View(): Board
      reads this
    {
      Board(auditLinks, tradeHistory, recentDecisions)
    }

    constructor ()
      ensures View() == Board(map[], [], []) && equityCurve == [] && ticksProcessed == 0 && agentStatus == "idle"
    {
      auditLinks, tradeHistory, recentDecisions := map[], [], [];
      equityCurve, ticksProcessed, agentStatus := [], 0, "idle";
    }

    /** A full curve drops its oldest sample. */
    method RecordEquity(equity: real)
      modifies this`equityCurve
      ensures
        var all := old(equityCurve) + [equity];
        equityCurve == if |old(equityCurve)| >= 720 then all[1..] else all
    {
      if |equityCurve| >= CURVE_MAX {
        equityCurve := (equityCurve + [equity])[1..];
      } else {
        equityCurve := equityCurve + [equity];
      }
    }

    method Tick()
      modifies this`ticksProcessed
      ensures ticksProcessed == old(ticksProcessed) + 1
    {
      ticksProcessed := ticksProcessed + 1;
    }

    method RecordOpen(asset: string, link: Link)
      modifies this`auditLinks
      ensures View() == old(Feed.RecordOpen(View(), asset, link))
    {
      auditLinks := auditLinks[asset := link.(anchor := Anchor("pending", None, None))];
    }

    method UpdateAnchor(asset: Option<string>, auditId: string, anchor: Anchor)
      modifies this`auditLinks, this`recentDecisions
      ensures View() == old(Feed.UpdateAnchor(View(), asset, auditId, anchor))
    {
      if asset.Some? && asset.value in auditLinks {
        var link := auditLinks[asset.value];
        if link.auditId == auditId {
          auditLinks := auditLinks[asset.value := link.(anchor := anchor)];
        }
      }
      ghost var before := recentDecisions;
      ghost var links := auditLinks;
      for i := 0 to |recentDecisions|
        invariant auditLinks == links
        invariant |recentDecisions| == |before|
        invariant forall k :: 0 <= k < i ==> recentDecisions[k] == Stamp(before, Opening(auditId), anchor)[k]
        invariant forall k :: i <= k < |before| ==> recentDecisions[k] == before[k]
      {
        if recentDecisions[i].id == Opening(auditId) {
          recentDecisions := recentDecisions[i := recentDecisions[i].(anchor := anchor)];
        }
      }
      assert recentDecisions == Stamp(before, Opening(auditId), anchor);
    }

    /** Drop the first entry equal to e. */
    method Remove(e: Entry, ghost before: seq<Entry>, ghost after: seq<Entry>)
      requires recentDecisions == before + [e] + after && e !in before
      modifies this`recentDecisions
      ensures recentDecisions == before + after
    {
      assert forall k :: 0 <= k < |before| ==> recentDecisions[k] == before[k];
      var i := 0;
      while recentDecisions[i] != e
        invariant 0 <= i <= |before|
        decreases |before| - i
      {
        i := i + 1;
      }
      recentDecisions := recentDecisions[..i] + recentDecisions[i + 1..];
    }

    /** Remove every entry with an id, walking a copy of the feed. */
    method Forget(id: FeedId)
      modifies this`recentDecisions
      ensures recentDecisions == Without(old(recentDecisions), id)
    {
      var copy := recentDecisions;
      assert recentDecisions == Without(copy[..0], id) + copy[0..];
      hide Without;
      for i := 0 to |copy|
        invariant recentDecisions == Without(copy[..i], id) + copy[i..]
      {
        ForgetStep(copy, i, id);
        if copy[i].id == id {
          Remove(copy[i], Without(copy[..i], id), copy[i + 1..]);
        }
      }
      assert copy[..|copy|] == copy;
    }

    method RecordDecision(e: Entry)
      modifies this`recentDecisions
      ensures View() == old(View().(feed := Feed.RecordDecision(View().feed, e)))
    {
      if Keyed(e.id) {
        Forget(e.id);
      }
      recentDecisions := [e] + recentDecisions;
      if |recentDecisions| > FEED_MAX {
        recentDecisions := recentDecisions[..FEED_MAX];
      }
    }

    method RecordClose(exit: Exit)
      modifies this`auditLinks, this`tradeHistory, this`recentDecisions
      ensures View() == old(Feed.RecordClose(View(), exit))
    {
      var link := if exit.asset in auditLinks then Some(auditLinks[exit.asset]) else None;
      auditLinks := auditLinks - {exit.asset};
      var trade := Trade(exit, HeldSeconds(exit), link);
      tradeHistory := [trade] + tradeHistory;
      if |tradeHistory| > TRADES_MAX {
        tradeHistory := tradeHistory[..TRADES_MAX];
      }
      RecordDecision(ClosingEntry(trade));
    }
  }

  lemma {:induction false} ForgetStep(copy: seq<Entry>, i: nat, id: FeedId)
    requires i < |copy|
    ensures copy[i].id == id ==> copy[i] !in Without(copy[..i], id)
    ensures Without(copy[..i], id) + copy[i..] == Without(copy[..i], id) + [copy[i]] + copy[i + 1..]
    ensures Without(copy[..i + 1], id) + copy[i + 1..]
         == Without(copy[..i], id) + (if copy[i].id == id then copy[i + 1..] else copy[i..])
  {
    assert copy[..i + 1][..i] == copy[..i];
    WithoutIs(copy[..i], id);
    var before := Without(copy[..i], id);
    assert Without(copy[..i + 1], id) == if copy[i].id == id then before else before + [copy[i]];
    hide Without;
    assert copy[i..] == [copy[i]] + copy[i + 1..];
    assert before + [copy[i]] + copy[i + 1..] == before + ([copy[i]] + copy[i + 1..]);
  }

  /** Start-up: fill an empty feed from the newest trading row of each record. */
  method HydrateFromAuditStore(state: SnapshotState, store: AuditStore)
    requires store.Valid() && Identified(store.log) && state.recentDecisions == []
    modifies state`recentDecisions
    ensures state.recentDecisions == Replay([], Executed(store.log))
  {
    var picked := LatestRows(store);
    ghost var states := LatestStates(Executed(store.log));
    StatesReadBack(store.log);
    assert state.recentDecisions == Replay([], states[..0]);
    hide RecordFromJson, RowOf, HydratedEntry, Feed.RecordDecision, LatestStates, Executed, Writable, Replay;
    for i := 0 to |picked|
      invariant state.recentDecisions == Replay([], states[..i])
    {
      var r := RecordFromJson(picked[i].blob);
      if r.Some? {
        state.RecordDecision(HydratedEntry(r.value));
      }
      ReplayStep(states, i);
    }
    assert states[..|picked|] == states;
    ExecutedIdentified(store.log);
    HydrationEqualsReplay(Executed(store.log));
  }

  lemma {:induction false} ReplayStep(states: seq<AuditRecord>, i: nat)
    requires i < |states|
    ensures Replay([], states[..i + 1]) == Feed.RecordDecision(Replay([], states[..i]), HydratedEntry(states[i]))
  {
    hide HydratedEntry, Feed.RecordDecision;
    assert states[..i + 1][..i] == states[..i];
  }

  lemma {:induction false} StatesReadBack(log: seq<AuditRecord>)
    requires forall i :: 0 <= i < |log| ==> Writable(log[i])
    ensures
      var states := LatestStates(Executed(log));
      forall i :: 0 <= i < |states| ==> RecordFromJson(RowOf(states[i]).blob) == Some(states[i])
  {
    var states := LatestStates(Executed(log));
    LatestAmong(Executed(log));
    ExecutedAmong(log);
    hide RecordFromJson, Dumps, LatestStates, Executed, Writable;
    forall i | 0 <= i < |states| ensures RecordFromJson(RowOf(states[i]).blob) == Some(states[i]) {
      assert states[i] in log;
      RecordRoundTrip(states[i]);
    }
  }

  function RowsOf(states: seq<AuditRecord>): seq<Row> {
    seq(|states|, i requires 0 <= i < |states| => RowOf(states[i]))
  }

  function DropRow(rows: seq<Row>, auditId: string): seq<Row>
    decreases |rows|
  {
    if rows == [] then []
    else
      var rest := DropRow(rows[..|rows| - 1], auditId);
      if rows[|rows| - 1].auditId == auditId then rest else rest + [rows[|rows| - 1]]
  }

  lemma {:induction false} DropRowIsOther(states: seq<AuditRecord>, auditId: string)
    ensures DropRow(RowsOf(states), auditId) == RowsOf(Other(states, auditId))
    decreases |states|
  {
    if states != [] {
      var rest := states[..|states| - 1];
      assert RowOf(states[|states| - 1]).auditId == states[|states| - 1].auditId;
      hide RowOf;
      assert RowsOf(states)[..|states| - 1] == RowsOf(rest);
      DropRowIsOther(rest, auditId);
      assert RowsOf(Other(rest, auditId) + [states[|states| - 1]])
          == RowsOf(Other(rest, auditId)) + [RowOf(states[|states| - 1])];
    }
  }

  /** The query: rows that traded, grouped by audit id, the newest of each. */
  method LatestRows(store: AuditStore) returns (picked: seq<Row>)
    requires store.Valid()
    ensures picked == RowsOf(LatestStates(Executed(store.log)))
  {
    hide Dumps, Writable;
    picked := [];
    for i := 0 to |store.rows|
      invariant picked == RowsOf(LatestStates(Executed(store.log[..i])))
    {
      assert store.log[..i + 1][..i] == store.log[..i];
      if store.rows[i].verdict == EXECUTE {
        ghost var past, r := Executed(store.log[..i]), store.log[i];
        assert (past + [r])[..|past|] == past;
        ghost var others := Other(LatestStates(past), r.auditId);
        DropRowIsOther(LatestStates(past), r.auditId);
        assert RowsOf(others + [r]) == RowsOf(others) + [RowOf(r)];
        picked := DropRow(picked, store.rows[i].auditId) + [store.rows[i]];
      }
    }
    assert store.log[..|store.rows|] == store.log;
  }
}
