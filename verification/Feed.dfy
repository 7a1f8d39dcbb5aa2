/** The dashboard's view of the run: a link per open position, the closed
    trades, and a bounded feed in which each decision appears once, newest
    first. */
module Feed {
  import opened Basics
  import opened Json
  import opened Utf8
  import opened Audit

  const FEED_MAX: nat := 30
  const TRADES_MAX: nat := 50
  const CURVE_MAX: nat := 720
  const MICROS: real := 1000000.0

  /** Where an anchor stands, and the transaction it ended in. */
  datatype Anchor = Anchor(state: string, tx: Option<string>, url: Option<string>)

  datatype Link = Link(
    auditId: string,
    decisionId: string,
    tier: string,
    regime: string,
    leverage: real,
    stop: Option<real>,
    take: Option<real>,
    entryPrice: real,
    qty: real,
    notional: real,
    side: string,
    anchor: Anchor)

  /** What the caller says about a close. */
  datatype Exit = Exit(
    asset: string,
    side: string,
    qty: real,
    entryPrice: real,
    exitPrice: real,
    realized: real,
    accruedFunding: real,
    entryTime: int,
    exitTime: int,
    trigger: string)

  /** A closed trade with the link of its open, when there was one. */
  datatype Trade = Trade(exit: Exit, heldSeconds: real, link: Option<Link>)

  /** Feed entries are keyed by their audit id; a close is keyed by its asset
      and exit time. */
  datatype FeedId = Opening(auditId: string) | Closing(asset: string, exitTime: int)

  datatype Story =
    | Opened(decisionId: string, asset: string, side: Option<string>, verdict: string, figures: map<string, Json>,
             regime: string, entryPrice: Option<real>, edgeBps: Option<real>, reasoning: RawText, decidedAt: string)
    | Closed(trade: Trade, pnlPct: Option<real>)

  datatype Entry = Entry(id: FeedId, story: Story, anchor: Anchor)

  datatype Board = Board(links: map<string, Link>, trades: seq<Trade>, feed: seq<Entry>)

  // ------------------------------------------------------------- what calls do

  function Newest<T>(s: seq<T>, max: nat): seq<T> {
    if |s| <= max then s else s[..max]
  }

  /** An empty id is no id. */
  predicate Keyed(id: FeedId) {
    id.Closing? || id.auditId != ""
  }

  function Without(feed: seq<Entry>, id: FeedId): seq<Entry>
    decreases |feed|
  {
    if feed == [] then []
    else
      var rest := Without(feed[..|feed| - 1], id);
      if feed[|feed| - 1].id == id then rest else rest + [feed[|feed| - 1]]
  }

  /** Move to the front: an entry takes the place of any with its id, and the
      oldest falls off the end. */
  function RecordDecision(feed: seq<Entry>, e: Entry): seq<Entry> {
    Newest([e] + (if Keyed(e.id) then Without(feed, e.id) else feed), FEED_MAX)
  }

  function RecordOpen(b: Board, asset: string, link: Link): Board {
    b.(links := b.links[asset := link.(anchor := Anchor("pending", None, None))])
  }

  function Stamp(feed: seq<Entry>, id: FeedId, anchor: Anchor): seq<Entry> {
    seq(|feed|, i requires 0 <= i < |feed| => if feed[i].id == id then feed[i].(anchor := anchor) else feed[i])
  }

  /** The outcome of an anchor reaches the link it belongs to, and the feed. */
  function UpdateAnchor(b: Board, asset: Option<string>, auditId: string, anchor: Anchor): Board {
    var links :=
      if asset.Some? && asset.value in b.links && b.links[asset.value].auditId == auditId then
        b.links[asset.value := b.links[asset.value].(anchor := anchor)]
      else b.links;
    b.(links := links, feed := Stamp(b.feed, Opening(auditId), anchor))
  }

  function HeldSeconds(exit: Exit): real {
    Max(0.0, (exit.exitTime - exit.entryTime) as real / MICROS)
  }

  function PnlPct(exit: Exit): Option<real> {
    if exit.entryPrice > 0.0 && exit.qty > 0.0 && exit.entryPrice * exit.qty != 0.0 then
      Some(exit.realized / (exit.entryPrice * exit.qty) * 100.0)
    else None
  }

  function LinkOf(b: Board, asset: string): Option<Link> {
    if asset in b.links then Some(b.links[asset]) else None
  }

  function ClosingEntry(trade: Trade): Entry {
    var (tx, url) := if trade.link.Some? then (trade.link.value.anchor.tx, trade.link.value.anchor.url)
      else (None, None);
    Entry(Closing(trade.exit.asset, trade.exit.exitTime), Closed(trade, PnlPct(trade.exit)), Anchor("n/a", tx, url))
  }

  function RecordClose(b: Board, exit: Exit): Board {
    var trade := Trade(exit, HeldSeconds(exit), LinkOf(b, exit.asset));
    Board(
      b.links - {exit.asset},
      Newest([trade] + b.trades, TRADES_MAX),
      RecordDecision(b.feed, ClosingEntry(trade)))
  }

  // ---------------------------------------------------- hydration from the store

  const TX_URL := "https://testnet.arcscan.app/tx/"

  function Figure(block: map<string, Json>, key: string): Json {
    if key in block then block[key] else Null
  }

  /** The sizing numbers the feed shows. */
  function Figures(block: map<string, Json>): map<string, Json> {
    map key | key in {"tier", "leverage", "stop_price", "take_price", "notional_usd", "qty"} :: Figure(block, key)
  }

  /** A plain value as Python's str shows it. */
  function PlainText(j: Json): string {
    match j
    case Null => "None"
    case Bool(truth) => if truth then "True" else "False"
    case Num(token) => token
    case Str(text) => text
    case _ => "?"
  }

  function Label(block: map<string, Json>, key: string): string {
    if key in block then PlainText(block[key]) else "?"
  }

  /** The feed entry rebuilt from a stored state of a record. */
  function HydratedEntry(r: AuditRecord): Entry {
    var block := if r.sized.Some? then r.sized.value else map[];
    var tx := if r.arcTxHash.Some? && r.arcTxHash.value != "" then r.arcTxHash else None;
    Entry(
      Opening(r.auditId),
      Opened(r.decisionId, r.asset, r.side, r.verdict, Figures(block),
             Label(block, "regime_trend") + "·" + Label(block, "regime_vol") + "·" + Label(block, "regime_funding"),
             None, None, Codes(r.reasoning), r.decidedAtIso),
      Anchor(if tx.Some? then "complete" else "unknown", r.arcTxHash,
             if tx.Some? then Some(TX_URL + tx.value) else None))
  }

  /** The stored states whose verdict was to trade, in row order. */
  function Executed(log: seq<AuditRecord>): seq<AuditRecord>
    decreases |log|
  {
    if log == [] then []
    else
      var rest := Executed(log[..|log| - 1]);
      if log[|log| - 1].verdict == EXECUTE then rest + [log[|log| - 1]] else rest
  }

  /** One state per audit id, the newest, in the order of those newest rows. */
  function LatestStates(log: seq<AuditRecord>): seq<AuditRecord>
    decreases |log|
  {
    if log == [] then []
    else Other(LatestStates(log[..|log| - 1]), log[|log| - 1].auditId) + [log[|log| - 1]]
  }

  function Other(log: seq<AuditRecord>, auditId: string): seq<AuditRecord>
    decreases |log|
  {
    if log == [] then []
    else
      var rest := Other(log[..|log| - 1], auditId);
      if log[|log| - 1].auditId == auditId then rest else rest + [log[|log| - 1]]
  }

  /** Record every state on the feed, in order. */
  function Replay(feed: seq<Entry>, log: seq<AuditRecord>): seq<Entry>
    decreases |log|
  {
    if log == [] then feed
    else RecordDecision(Replay(feed, log[..|log| - 1]), HydratedEntry(log[|log| - 1]))
  }

  // ------------------------------------------------------------------ properties

  lemma {:induction false} WithoutIs(feed: seq<Entry>, id: FeedId)
    ensures |Without(feed, id)| <= |feed|
    ensures forall e :: e in Without(feed, id) <==> e in feed && e.id != id
    decreases |feed|
  {
    if feed != [] {
      WithoutIs(feed[..|feed| - 1], id);
      assert feed == feed[..|feed| - 1] + [feed[|feed| - 1]];
    }
  }

  ghost predicate Distinct(feed: seq<Entry>) {
    forall i, j :: 0 <= i < j < |feed| ==> feed[i].id != feed[j].id
  }

  lemma {:induction false} WithoutDistinct(feed: seq<Entry>, id: FeedId)
    requires Distinct(feed)
    ensures Distinct(Without(feed, id))
    decreases |feed|
  {
    if feed != [] {
      WithoutDistinct(feed[..|feed| - 1], id);
      WithoutIs(feed[..|feed| - 1], id);
      var rest := Without(feed[..|feed| - 1], id);
      forall i | 0 <= i < |rest| ensures rest[i].id != feed[|feed| - 1].id {
        assert rest[i] in rest;
      }
    }
  }

  lemma {:induction false} WithoutAbsent(feed: seq<Entry>, id: FeedId)
    requires forall i :: 0 <= i < |feed| ==> feed[i].id != id
    ensures Without(feed, id) == feed
    decreases |feed|
  {
    if feed != [] {
      WithoutAbsent(feed[..|feed| - 1], id);
    }
  }

  lemma {:induction false} WithoutConcat(left: seq<Entry>, right: seq<Entry>, id: FeedId)
    ensures Without(left + right, id) == Without(left, id) + Without(right, id)
    decreases |right|
  {
    if right == [] {
      assert left + right == left;
    } else {
      assert (left + right)[..|left + right| - 1] == left + right[..|right| - 1];
      WithoutConcat(left, right[..|right| - 1], id);
    }
  }

  /** The feed is a window on an unbounded history: dropping an id before or
      after cutting to the window shows the same first entries. */
  lemma {:induction false} WindowCommutes(history: seq<Entry>, id: FeedId, max: nat)
    requires Distinct(history) && max > 0
    ensures Newest(Without(Newest(history, max), id), max - 1) == Newest(Without(history, id), max - 1)
  {
    if |history| > max {
      var shown, hidden := history[..max], history[max..];
      assert history == shown + hidden;
      WithoutConcat(shown, hidden, id);
      OneDropped(shown, id);
    }
  }

  lemma {:induction false} OneDropped(feed: seq<Entry>, id: FeedId)
    requires Distinct(feed)
    ensures |Without(feed, id)| >= |feed| - 1
    decreases |feed|
  {
    if feed != [] {
      if feed[|feed| - 1].id == id {
        WithoutAbsent(feed[..|feed| - 1], id);
      } else {
        OneDropped(feed[..|feed| - 1], id);
      }
    }
  }

  /** Recording keeps the feed short and its ids distinct, puts the entry first,
      and keeps the rest in order. */
  lemma {:induction false} RecordKeepsFeed(feed: seq<Entry>, e: Entry)
    requires Distinct(feed) && Keyed(e.id)
    ensures
      var after := RecordDecision(feed, e);
      && Distinct(after) && 0 < |after| <= 30 && after[0] == e
      && after == Newest([e] + Without(feed, e.id), FEED_MAX)
  {
    WithoutDistinct(feed, e.id);
    WithoutIs(feed, e.id);
    var rest := Without(feed, e.id);
    forall i | 0 <= i < |rest| ensures rest[i].id != e.id {
      assert rest[i] in rest;
    }
  }

  /** A close at the same asset and bar time as an earlier one takes over its
      place: after two closes the first is still on the feed exactly when asset
      or time differ, while the trade history always keeps both. */
  lemma {:induction false} ClosesCollapseIff(b: Board, x: Exit, y: Exit)
    ensures
      var after := RecordClose(RecordClose(b, x), y);
      && |after.trades| >= 2 && after.trades[0].exit == y && after.trades[1].exit == x
      && ((exists i :: 1 <= i < |after.feed| && after.feed[i].id == Closing(x.asset, x.exitTime))
          <==> x.asset != y.asset || x.exitTime != y.exitTime)
  {
    var once := RecordClose(b, x);
    var after := RecordClose(once, y);
    var first, second := Closing(x.asset, x.exitTime), Closing(y.asset, y.exitTime);
    var head, tail := [once.feed[0]], once.feed[1..];
    assert once.feed == head + tail && head[0].id == first;
    WithoutConcat(head, tail, second);
    WithoutIs(once.feed, second);
    assert head[..0] == [];
    if first == second {
      forall i | 1 <= i < |after.feed| ensures after.feed[i].id != first {
        assert after.feed[i] in Without(once.feed, second);
      }
    } else {
      assert after.feed[1] == head[0];
    }
  }

  /** Everything ever recorded, newest first, without a bound. */
  function History(log: seq<AuditRecord>): seq<Entry>
    decreases |log|
  {
    if log == [] then []
    else
      var e := HydratedEntry(log[|log| - 1]);
      [e] + Without(History(log[..|log| - 1]), e.id)
  }

  predicate Identified(log: seq<AuditRecord>) {
    forall i :: 0 <= i < |log| ==> log[i].auditId != ""
  }

  lemma {:induction false} HistoryDistinct(log: seq<AuditRecord>)
    ensures Distinct(History(log))
    decreases |log|
  {
    if log != [] {
      var e, rest := HydratedEntry(log[|log| - 1]), History(log[..|log| - 1]);
      HistoryDistinct(log[..|log| - 1]);
      WithoutDistinct(rest, e.id);
      WithoutIs(rest, e.id);
      forall i | 0 <= i < |Without(rest, e.id)| ensures Without(rest, e.id)[i].id != e.id {
        assert Without(rest, e.id)[i] in Without(rest, e.id);
      }
    }
  }

  /** The bounded move-to-front feed shows the newest part of the unbounded
      history, whatever fell off the end in between. */
  lemma {:induction false} ReplayShowsHistory(log: seq<AuditRecord>)
    requires Identified(log)
    ensures Replay([], log) == Newest(History(log), FEED_MAX)
    decreases |log|
  {
    if log != [] {
      var past, e := History(log[..|log| - 1]), HydratedEntry(log[|log| - 1]);
      ReplayShowsHistory(log[..|log| - 1]);
      HistoryDistinct(log[..|log| - 1]);
      WindowCommutes(past, e.id, FEED_MAX);
      hide HydratedEntry, Without;
      FirstOfMore(e, Without(Newest(past, FEED_MAX), e.id), FEED_MAX);
      FirstOfMore(e, Without(past, e.id), FEED_MAX);
    }
  }

  lemma {:induction false} FirstOfMore(e: Entry, rest: seq<Entry>, max: nat)
    requires max > 0
    ensures Newest([e] + rest, max) == [e] + Newest(rest, max - 1)
  {
  }

  function Reversed(log: seq<AuditRecord>): seq<Entry>
    decreases |log|
  {
    if log == [] then [] else [HydratedEntry(log[|log| - 1])] + Reversed(log[..|log| - 1])
  }

  lemma {:induction false} ReversedOther(log: seq<AuditRecord>, auditId: string)
    ensures Reversed(Other(log, auditId)) == Without(Reversed(log), Opening(auditId))
    decreases |log|
  {
    if log != [] {
      var r, rest := log[|log| - 1], log[..|log| - 1];
      var kept := Other(rest, auditId);
      var head := [HydratedEntry(r)];
      ReversedOther(rest, auditId);
      WithoutConcat(head, Reversed(rest), Opening(auditId));
      assert Without(head, Opening(auditId)) == if r.auditId == auditId then [] else head by {
        assert head[..0] == [];
      }
      if r.auditId != auditId {
        assert (kept + [r])[..|kept|] == kept;
      }
    }
  }

  /** The history is the newest state of each record, latest first. */
  lemma {:induction false} HistoryIsLatest(log: seq<AuditRecord>)
    ensures History(log) == Reversed(LatestStates(log))
    decreases |log|
  {
    if log != [] {
      var r, rest := log[|log| - 1], LatestStates(log[..|log| - 1]);
      HistoryIsLatest(log[..|log| - 1]);
      ReversedOther(rest, r.auditId);
      var kept := Other(rest, r.auditId);
      assert (kept + [r])[..|kept|] == kept;
    }
  }

  lemma {:induction false} OtherIs(log: seq<AuditRecord>, auditId: string)
    ensures forall r :: r in Other(log, auditId) <==> r in log && r.auditId != auditId
    decreases |log|
  {
    if log != [] {
      OtherIs(log[..|log| - 1], auditId);
      assert log == log[..|log| - 1] + [log[|log| - 1]];
    }
  }

  lemma {:induction false} OtherAbsent(log: seq<AuditRecord>, auditId: string)
    requires forall r :: r in log ==> r.auditId != auditId
    ensures Other(log, auditId) == log
    decreases |log|
  {
    if log != [] {
      OtherAbsent(log[..|log| - 1], auditId);
    }
  }

  lemma {:induction false} OtherTwice(log: seq<AuditRecord>, x: string, y: string)
    ensures Other(Other(log, x), y) == Other(Other(log, y), x)
    decreases |log|
  {
    if log != [] {
      var r, rest := log[|log| - 1], log[..|log| - 1];
      OtherTwice(rest, x, y);
      if r.auditId != x {
        assert (Other(rest, x) + [r])[..|Other(rest, x)|] == Other(rest, x);
      }
      if r.auditId != y {
        assert (Other(rest, y) + [r])[..|Other(rest, y)|] == Other(rest, y);
      }
    }
  }

  lemma {:induction false} LatestOfOther(log: seq<AuditRecord>, auditId: string)
    ensures LatestStates(Other(log, auditId)) == Other(LatestStates(log), auditId)
    decreases |log|
  {
    if log != [] {
      var r, rest := log[|log| - 1], log[..|log| - 1];
      var kept := Other(rest, auditId);
      LatestOfOther(rest, auditId);
      OtherTwice(LatestStates(rest), r.auditId, auditId);
      var shorter := Other(LatestStates(rest), r.auditId);
      assert (shorter + [r])[..|shorter|] == shorter;
      if r.auditId == auditId {
        OtherIs(LatestStates(rest), auditId);
        OtherAbsent(shorter, auditId);
      } else {
        assert (kept + [r])[..|kept|] == kept;
      }
    }
  }

  /** Picking the newest states again picks them all. */
  lemma {:induction false} LatestIdempotent(log: seq<AuditRecord>)
    ensures LatestStates(LatestStates(log)) == LatestStates(log)
    decreases |log|
  {
    if log != [] {
      var r, rest := log[|log| - 1], LatestStates(log[..|log| - 1]);
      var kept := Other(rest, r.auditId);
      LatestIdempotent(log[..|log| - 1]);
      LatestOfOther(rest, r.auditId);
      assert (kept + [r])[..|kept|] == kept;
      OtherIs(rest, r.auditId);
      OtherAbsent(kept, r.auditId);
    }
  }

  lemma {:induction false} LatestAmong(log: seq<AuditRecord>)
    ensures forall r :: r in LatestStates(log) ==> r in log
    decreases |log|
  {
    if log != [] {
      LatestAmong(log[..|log| - 1]);
      OtherIs(LatestStates(log[..|log| - 1]), log[|log| - 1].auditId);
    }
  }

  /** A state no later row supersedes is picked. */
  lemma {:induction false} LatestIs(log: seq<AuditRecord>, i: nat)
    requires i < |log| && forall k :: i < k < |log| ==> log[k].auditId != log[i].auditId
    ensures log[i] in LatestStates(log)
    decreases |log|
  {
    if i < |log| - 1 {
      LatestIs(log[..|log| - 1], i);
      OtherIs(LatestStates(log[..|log| - 1]), log[|log| - 1].auditId);
    }
  }

  /** Main result: hydrating from the newest row of each audit id gives exactly
      the feed that replaying every row gives: the newest state of each record,
      latest first, cut to thirty. */
  lemma {:induction false} HydrationEqualsReplay(log: seq<AuditRecord>)
    requires Identified(log)
    ensures Replay([], LatestStates(log)) == Replay([], log)
    ensures Replay([], log) == Newest(Reversed(LatestStates(log)), FEED_MAX)
    ensures Distinct(Replay([], log))
  {
    LatestAmong(log);
    forall i | 0 <= i < |LatestStates(log)| ensures LatestStates(log)[i].auditId != "" {
      assert LatestStates(log)[i] in log;
    }
    ReplayShowsHistory(log);
    ReplayShowsHistory(LatestStates(log));
    HistoryIsLatest(log);
    HistoryIsLatest(LatestStates(log));
    LatestIdempotent(log);
    HistoryDistinct(log);
  }

  lemma {:induction false} ExecutedAmong(log: seq<AuditRecord>)
    ensures forall r :: r in Executed(log) <==> r in log && r.verdict == EXECUTE
    decreases |log|
  {
    if log != [] {
      ExecutedAmong(log[..|log| - 1]);
      assert log == log[..|log| - 1] + [log[|log| - 1]];
    }
  }

  lemma {:induction false} ExecutedIdentified(log: seq<AuditRecord>)
    requires Identified(log)
    ensures Identified(Executed(log))
    decreases |log|
  {
    if log != [] {
      ExecutedIdentified(log[..|log| - 1]);
    }
  }
}
