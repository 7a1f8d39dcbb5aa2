/** The decision loop as a function of its state: the account, the sized trade
    remembered per open asset, the dashboard's board, the audit rows, the anchor
    submissions and the recent fills. */
module DecisionLoop {
  import opened Basics
  import opened Contracts
  import opened Slippage
  import opened Ledger
  import opened RiskGate
  import opened Regimes
  import opened Sizing
  import opened Aggregate
  import CostModel
  import Attribution
  import opened Json
  import opened Utf8
  import opened Audit
  import opened Feed

  const MIN_1H_BARS: nat := 51
  const FILLS_MAX: nat := 20
  const CHAIN_ID := "5042002"
  const VENUE := "hyperliquid-paper"

  /** One proposed action; the id and the reasoning are the agent's own text. */
  datatype Decision = Decision(asset: string, action: string, side: Option<string>, decisionId: RawText,
    reasoning: RawText)

  /** What an open takes from outside: a fresh audit id and nonce, two clock
      readings, the digests of its inputs, and whether the database takes the
      row. */
  datatype Seal = Seal(
    auditId: string,
    nonceHex: string,
    decidedAt: string,
    shownAt: string,
    inputHashes: map<string, string>,
    accepts: bool)

  /** Everything configured once. The three switches say whether the audit
      store, the dashboard and the anchor worker are attached. */
  datatype Rig = Rig(
    venue: Venue,
    cost: CostModel.Model,
    limits: Limits,
    sizer: Sizer,
    wallet: string,
    numeral: real -> string,
    auditing: bool,
    showing: bool,
    anchoring: bool)

  /** Decisions in order, each with what an open would take from outside. */
  type Proposals = seq<(Decision, Seal)>

  type Quotes = map<string, (Forecast, Cost)>

  /** The state the loop carries from tick to tick. The calls are the executor
      calls made so far, in order; they are not state of the program. */
  datatype Desk = Desk(
    acct: Account,
    sized: map<string, Sized>,
    board: Board,
    rows: seq<AuditRecord>,
    submitted: seq<(AuditRecord, string)>,
    fills: seq<Fill>,
    calls: seq<Attribution.Event>)

  function Fresh(starting: real, feed: seq<Entry>, rows: seq<AuditRecord>): Desk {
    Desk(Empty(starting), map[], Board(map[], [], feed), rows, [], [], [])
  }

  /** A deque of the last twenty fills. */
  function Recent(fills: seq<Fill>, fill: Fill): seq<Fill> {
    var all := fills + [fill];
    if |all| > FILLS_MAX then all[|all| - FILLS_MAX..] else all
  }

  // -------------------------------------------------------------- text of labels

  function TierName(tier: Tier): string {
    match tier
    case T1 => "T1"
    case T2 => "T2"
    case T3 => "T3"
    case T4 => "T4"
  }

  function TrendName(trend: Trend): string {
    match trend
    case UP => "UP"
    case DOWN => "DOWN"
    case RANGE => "RANGE"
  }

  function VolName(vol: Vol): string {
    match vol
    case COMPRESSED => "COMPRESSED"
    case NORMAL => "NORMAL"
    case EXPANDED => "EXPANDED"
    case CRISIS => "CRISIS"
  }

  function FundingName(funding: Funding): string {
    match funding
    case NEUTRAL => "NEUTRAL"
    case BULL_BIAS => "BULL_BIAS"
    case BEAR_BIAS => "BEAR_BIAS"
    case EXTREME_POS => "EXTREME_POS"
    case EXTREME_NEG => "EXTREME_NEG"
  }

  function FmtRegime(regime: Regime): string {
    TrendShort(regime.trend) + "·" + VolShort(regime.vol) + "·" + FundingShort(regime.funding)
  }

  function TrendShort(trend: Trend): string {
    match trend
    case UP => "UP"
    case DOWN => "DN"
    case RANGE => "RG"
  }

  function VolShort(vol: Vol): string {
    match vol
    case COMPRESSED => "COMP"
    case NORMAL => "NORM"
    case EXPANDED => "EXP"
    case CRISIS => "CRIS"
  }

  function FundingShort(funding: Funding): string {
    match funding
    case NEUTRAL => "NEU"
    case BULL_BIAS => "B+"
    case BEAR_BIAS => "B-"
    case EXTREME_POS => "E+"
    case EXTREME_NEG => "E-"
  }

  function Breakdown(rig: Rig, s: Sized): map<string, Json> {
    map[
      "qty" := Num(rig.numeral(s.qty)),
      "notional_usd" := Num(rig.numeral(s.notional)),
      "leverage" := Num(rig.numeral(s.leverage)),
      "stop_price" := Num(rig.numeral(s.stopPrice)),
      "take_price" := Num(rig.numeral(s.takePrice)),
      "tier" := Str(TierName(s.tier)),
      "regime_trend" := Str(TrendName(s.regime.trend)),
      "regime_vol" := Str(VolName(s.regime.vol)),
      "regime_funding" := Str(FundingName(s.regime.funding))]
  }

  // -------------------------------------------------------------------- entering

  datatype Veto =
    | NoSnapshot | HeldAlready | NothingToCut | NoSide | NoBoardEntry | WarmUp(bars: nat) | RegimeError(fault: Fault)
    | SizingError(fault: Fault) | StandDown(regime: Regime) | Gated(verdict: Verdict)

  datatype Reply = Kept | Vetoed(why: Veto)

  /** What the pipeline in front of an open comes to. */
  datatype Plan = Stop(why: Veto) | Raise(fault: Fault) | Go(sized: Sized)

  function Seed(d: Decision, side: string, notional: real, quote: (Forecast, Cost)): Candidate {
    Candidate(d.asset, side, notional, quote.0, quote.1, 0)
  }

  /** The regime an entry is sized under: BTC overrides every other coin. */
  function EffectiveRegime(asset: string, local: Regime, btc: Option<Regime>): Regime {
    if asset != "BTC" && btc.Some? then ApplyBtcOverride(local, btc.value) else local
  }

  /** The last gates: a positive quantity, the cost of the sized notional, and
      the risk limits. An exception of the cost model is not caught here. */
  function Gate(rig: Rig, d: Decision, side: string, m: Market, quote: (Forecast, Cost), sized: Sized, held: bool,
                open: nat, exposure: real): Plan
  {
    if sized.qty <= 0.0 then Stop(StandDown(sized.regime))
    else
      var cost := CostModel.Assess(rig.cost, quote.0, m, sized.notional);
      if cost.Err? then Raise(cost.fault)
      else
        var verdict := Evaluate(rig.limits, Seed(d, side, sized.notional, (quote.0, cost.value)), held, open, exposure);
        if verdict != Approved then Stop(Gated(verdict)) else Go(sized)
  }

  function PlanOpen(rig: Rig, d: Decision, m: Market, quote: Option<(Forecast, Cost)>, btc: Option<Regime>,
                    equity: real, held: bool, open: nat, exposure: real): (plan: Plan)
    ensures plan.Go? ==> d.side.Some? && quote.Some?
  {
    if d.side.None? then Stop(NoSide)
    else if quote.None? then Stop(NoBoardEntry)
    else
      var bars := Hourly(m.bars);
      if |bars| < MIN_1H_BARS then Stop(WarmUp(|bars|))
      else
        var tier := ClassifyTier(d.asset);
        var local := Classify(bars, m.fundingRate, tier);
        if local.Err? then Stop(RegimeError(local.fault))
        else
          var regime := EffectiveRegime(d.asset, local.value, btc);
          var seed := Seed(d, d.side.value, quote.value.1.notional, quote.value);
          var sized := Size(rig.sizer, seed, m, bars, equity, regime, tier);
          if sized.Err? then Stop(SizingError(sized.fault))
          else Gate(rig, d, d.side.value, m, quote.value, sized.value, held, open, exposure)
  }

  datatype Applied = Applied(desk: Desk, reply: Result<Reply>)

  function DraftFor(rig: Rig, d: Decision, side: string, s: Sized, seal: Seal): Draft {
    NewRecord(seal.auditId, seal.nonceHex, seal.decidedAt, d.decisionId, rig.wallet, CHAIN_ID, VENUE, d.asset,
              Some(side), EXECUTE, seal.inputHashes, Some(Breakdown(rig, s)), d.reasoning)
  }

  /** The record of an open as stored, or the exception storing it raises. */
  function Stored(rig: Rig, d: Decision, side: string, s: Sized, seal: Seal): Result<AuditRecord> {
    Persist(DraftFor(rig, d, side, s, seal), seal.accepts)
  }

  /** The agent's text can be encoded, as far as it is kept, and the database
      takes the row. */
  predicate Storable(d: Decision, seal: Seal) {
    Encodable(d.decisionId) && Encodable(Shortened(d.reasoning)) && seal.accepts
  }

  function LinkFor(side: string, s: Sized, fill: Fill, record: AuditRecord): Link {
    Link(record.auditId, record.decisionId, TierName(s.tier), FmtRegime(s.regime), s.leverage,
         Some(s.stopPrice), Some(s.takePrice), fill.price, s.qty, s.notional, side, Anchor("pending", None, None))
  }

  /** The feed shows the reasoning in full. */
  function EntryFor(rig: Rig, d: Decision, side: string, s: Sized, fill: Fill, edgeBps: real, seal: Seal,
                    record: AuditRecord): Entry
  {
    Entry(
      Opening(record.auditId),
      Opened(record.decisionId, d.asset, Some(side), EXECUTE, Figures(Breakdown(rig, s)), FmtRegime(s.regime),
             Some(fill.price), Some(edgeBps), d.reasoning, seal.shownAt),
      Anchor(if rig.anchoring then "pending" else "off", None, None))
  }

  /** An open on the board: its link, then its feed entry. */
  function Shown(rig: Rig, board: Board, d: Decision, side: string, s: Sized, fill: Fill, edgeBps: real, seal: Seal,
                 record: AuditRecord): Board
  {
    var linked := RecordOpen(board, d.asset, LinkFor(side, s, fill, record));
    linked.(feed := RecordDecision(linked.feed, EntryFor(rig, d, side, s, fill, edgeBps, seal, record)))
  }

  /** The paper trail of an open: the audit row first, then the board, then the
      submission for anchoring. An exception of the append is not caught, so
      the board and the worker never hear of the open. */
  function Trail(rig: Rig, desk: Desk, d: Decision, side: string, s: Sized, fill: Fill, edgeBps: real,
                 seal: Seal): Applied {
    if !rig.auditing then Applied(desk, Ok(Kept))
    else
      match Stored(rig, d, side, s, seal)
      case Err(fault) => Applied(desk, Err(fault))
      case Ok(record) =>
        Applied(
          desk.(rows := desk.rows + [record],
                board := if rig.showing
                         then Shown(rig, desk.board, d, side, s, fill, edgeBps, seal, record)
                         else desk.board,
                submitted := if rig.anchoring then desk.submitted + [(record, d.asset)] else desk.submitted),
          Ok(Kept))
  }

  /** The desk once the fill is booked, before anything is written down. */
  function Bought(rig: Rig, desk: Desk, asset: string, s: Sized, m: Market): Applied {
    var bought := OpenSized(rig.venue, desk.acct, s, m);
    var moved := desk.(acct := bought.account, calls := desk.calls + [Attribution.OpenSizedEv(s, m)]);
    match bought.result
    case Err(fault) => Applied(moved, Err(fault))
    case Ok(fill) => Applied(moved.(fills := Recent(desk.fills, fill), sized := desk.sized[asset := s]), Ok(Kept))
  }

  /** Fill first, then the paper trail. */
  function Fulfil(rig: Rig, desk: Desk, d: Decision, side: string, s: Sized, m: Market, edgeBps: real,
                  seal: Seal): Applied {
    var bought := OpenSized(rig.venue, desk.acct, s, m);
    var booked := Bought(rig, desk, d.asset, s, m);
    match bought.result
    case Err(fault) => booked
    case Ok(fill) => Trail(rig, booked.desk, d, side, s, fill, edgeBps, seal)
  }

  function QuoteOf(quotes: Quotes, asset: string): Option<(Forecast, Cost)> {
    if asset in quotes then Some(quotes[asset]) else None
  }

  ghost function PlanAt(rig: Rig, desk: Desk, d: Decision, m: Market, quotes: Quotes, btc: Option<Regime>): Plan {
    PlanOpen(rig, d, m, QuoteOf(quotes, d.asset), btc, Equity(desk.acct), d.asset in desk.acct.positions,
             |desk.acct.positions|, Exposure(desk.acct))
  }

  ghost function EnterSized(rig: Rig, desk: Desk, d: Decision, m: Market, quotes: Quotes, btc: Option<Regime>,
                            seal: Seal): Applied {
    match PlanAt(rig, desk, d, m, quotes, btc)
    case Stop(why) => Applied(desk, Ok(Vetoed(why)))
    case Raise(fault) => Applied(desk, Err(fault))
    case Go(s) =>
      Fulfil(rig, desk, d, d.side.value, s, m, quotes[d.asset].1.edgeAfterCostBps, seal)
  }

  // --------------------------------------------------------------------- closing

  /** The close as the board records it: what was held before, and the fill. */
  function ExitOf(asset: string, p: Pos, fill: Fill, trigger: string): Exit {
    Exit(asset, p.side, p.qty, p.entryPrice, fill.price, fill.realizedPnl, p.accruedFunding, p.entryTime,
      fill.timestamp, trigger)
  }

  /** Everything that follows a closing fill on an asset. */
  function BookClose(rig: Rig, desk: Desk, asset: string, pre: Option<Pos>, fill: Fill, trigger: string): Desk {
    desk.(fills := Recent(desk.fills, fill),
          sized := desk.sized - {asset},
          board := if rig.showing && pre.Some?
                   then RecordClose(desk.board, ExitOf(asset, pre.value, fill, trigger))
                   else desk.board)
  }

  /** Close a held position because a decision says so. */
  function CloseHeld(rig: Rig, desk: Desk, asset: string, m: Market, trigger: string): Applied
    requires asset in desk.acct.positions
  {
    var pre := desk.acct.positions[asset];
    var closed := Close(rig.venue, desk.acct, asset, m);
    var moved := desk.(acct := closed.account, calls := desk.calls + [Attribution.CloseEv(asset, m)]);
    match closed.result
    case Err(fault) => Applied(moved, Err(fault))
    case Ok(fill) => Applied(BookClose(rig, moved, asset, Some(pre), fill, trigger), Ok(Kept))
  }

  /** Apply one decision. Anything but enter, cut and flip does nothing. */
  ghost function Apply(rig: Rig, desk: Desk, d: Decision, m: Market, quotes: Quotes, btc: Option<Regime>,
                       seal: Seal): Applied {
    var held := d.asset in desk.acct.positions;
    if d.action == "enter" then
      if held then Applied(desk, Ok(Vetoed(HeldAlready))) else EnterSized(rig, desk, d, m, quotes, btc, seal)
    else if d.action == "cut" then
      if !held then Applied(desk, Ok(Vetoed(NothingToCut))) else CloseHeld(rig, desk, d.asset, m, "cut")
    else if d.action == "flip" then
      if !held then EnterSized(rig, desk, d, m, quotes, btc, seal)
      else
        var closed := CloseHeld(rig, desk, d.asset, m, "flip");
        if closed.reply.Err? then closed else EnterSized(rig, closed.desk, d, m, quotes, btc, seal)
    else Applied(desk, Ok(Kept))
  }

  // -------------------------------------------------------------------- one tick

  /** The label of an automatic close, inferred from the exit price. */
  function TriggerOf(p: Pos, exitPrice: real): string {
    if p.take.Some?
       && ((p.side == "long" && exitPrice >= p.take.value) || (p.side == "short" && exitPrice <= p.take.value))
    then "take" else "stop"
  }

  /** What follows the stop check of one asset. */
  function AfterCheck(rig: Rig, desk: Desk, asset: string, pre: Option<Pos>, closed: Result<Option<Fill>>): Applied {
    match closed
    case Err(fault) => Applied(desk, Err(fault))
    case Ok(None) => Applied(desk, Ok(Kept))
    case Ok(Some(fill)) =>
      var trigger := if pre.Some? then TriggerOf(pre.value, fill.price) else "stop";
      Applied(BookClose(rig, desk, asset, pre, fill, trigger), Ok(Kept))
  }

  /** Fire the stop or take of one asset. */
  function FireStops(rig: Rig, desk: Desk, asset: string, m: Market): Applied {
    var pre := if asset in desk.acct.positions then Some(desk.acct.positions[asset]) else None;
    var checked := CheckStops(rig.venue, desk.acct, m);
    var moved := desk.(acct := checked.account, calls := desk.calls + [Attribution.CheckStopsEv(m)]);
    AfterCheck(rig, moved, asset, pre, checked.result)
  }

  function Marked(rig: Rig, desk: Desk, m: Market): Desk {
    desk.(acct := Tick(rig.venue, desk.acct, m), calls := desk.calls + [Attribution.TickEv(m)])
  }

  /** Mark one asset, then fire its stop or take. */
  function TickAsset(rig: Rig, desk: Desk, asset: string, m: Market): Applied {
    FireStops(rig, Marked(rig, desk, m), asset, m)
  }

  /** Walk the assets that were open, in any order; those without a snapshot
      are left alone. */
  function TickAll(rig: Rig, desk: Desk, snaps: map<string, Market>, order: seq<string>): Applied
    decreases |order|
  {
    if order == [] then Applied(desk, Ok(Kept))
    else
      var before := TickAll(rig, desk, snaps, order[..|order| - 1]);
      var asset := order[|order| - 1];
      if before.reply.Err? || asset !in snaps then before else TickAsset(rig, before.desk, asset, snaps[asset])
  }

  function BtcRegime(snaps: map<string, Market>): Option<Regime> {
    if "BTC" !in snaps then None
    else
      var bars := Hourly(snaps["BTC"].bars);
      if |bars| < MIN_1H_BARS then None
      else
        var regime := Classify(bars, snaps["BTC"].fundingRate, ClassifyTier("BTC"));
        if regime.Ok? then Some(regime.value) else None
  }

  datatype Drained = Drained(desk: Desk, replies: seq<Reply>, fault: Option<Fault>)

  /** The next decision of a drain; after an exception nothing more happens. */
  ghost function DrainOne(rig: Rig, before: Drained, snaps: map<string, Market>, quotes: Quotes, d: Decision,
                          seal: Seal): Drained
  {
    if before.fault.Some? then before
    else if d.asset !in snaps then before.(replies := before.replies + [Vetoed(NoSnapshot)])
    else
      var applied := Apply(rig, before.desk, d, snaps[d.asset], quotes, BtcRegime(snaps), seal);
      match applied.reply
      case Err(fault) => Drained(applied.desk, before.replies, Some(fault))
      case Ok(reply) => Drained(applied.desk, before.replies + [reply], None)
  }

  /** Apply the decisions of a completed agent call, in order. */
  ghost function Drain(rig: Rig, desk: Desk, snaps: map<string, Market>, quotes: Quotes, ds: Proposals): Drained
    decreases |ds|
  {
    if ds == [] then Drained(desk, [], None)
    else
      var before := Drain(rig, desk, snaps, quotes, ds[..|ds| - 1]);
      DrainOne(rig, before, snaps, quotes, ds[|ds| - 1].0, ds[|ds| - 1].1)
  }

  /** One pass of the loop: tick and check every open position, then apply the
      decisions if an agent call completed. */
  ghost function Step(rig: Rig, desk: Desk, snaps: map<string, Market>, order: seq<string>, quotes: Quotes,
                      ds: Option<Proposals>): Drained
  {
    var ticked := TickAll(rig, desk, snaps, order);
    if ticked.reply.Err? then Drained(ticked.desk, [], Some(ticked.reply.fault))
    else if ds.None? then Drained(ticked.desk, [], None)
    else Drain(rig, ticked.desk, snaps, quotes, ds.value)
  }

  // ------------------------------------------------------------------------ runs

  /** What can happen to the desk: a pass of the loop, or an anchor result that
      reaches the board between passes. */
  datatype Event =
    | Pass(snaps: map<string, Market>, order: seq<string>, quotes: Quotes, ds: Option<Proposals>)
    | AnchorResult(asset: Option<string>, auditId: string, anchor: Anchor)

  ghost function Advance(rig: Rig, desk: Desk, ev: Event): Drained {
    match ev
    case Pass(snaps, order, quotes, ds) => Step(rig, desk, snaps, order, quotes, ds)
    case AnchorResult(asset, auditId, anchor) =>
      Drained(if rig.showing then desk.(board := UpdateAnchor(desk.board, asset, auditId, anchor)) else desk, [], None)
  }

  ghost function RunDesk(rig: Rig, desk: Desk, evs: seq<Event>): Drained
    decreases |evs|
  {
    if evs == [] then Drained(desk, [], None)
    else
      var before := RunDesk(rig, desk, evs[..|evs| - 1]);
      if before.fault.Some? then before else Advance(rig, before.desk, evs[|evs| - 1])
  }
}
