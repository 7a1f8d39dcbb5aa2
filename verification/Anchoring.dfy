/** The trading thread and the anchor worker as one interleaved state machine:
    a bounded queue and a stop flag between them, the audit log and the board
    shared. Every atomic action of either thread is one step. */
module Anchoring {
  import opened Basics
  import opened Audit
  import opened Feed

  const QUEUE_MAX: nat := 200

  datatype Job = Job(record: AuditRecord, asset: string)

  datatype Item = Work(job: Job) | Pill

  /** What the chain client answers: a transaction, or an exception. */
  datatype Response = Mined(tx: Option<string>, jobId: Option<string>) | Refused

  /** Where the worker is in its loop. */
  datatype Phase =
    | Waiting
    | Taking
    | Calling(job: Job)
    | Appending(job: Job, tx: Option<string>, jobId: Option<string>)
    | Reporting(job: Job, response: Response, failed: bool)
    | Halted

  /** Where the trading thread is: an open is stored, then shown, then
      submitted; an interrupt can end the run anywhere in between. */
  datatype Trader = Ready | Stored(job: Job) | Shown(job: Job) | Finished

  /** The shared state, and the history the properties speak about. */
  datatype World = World(
    log: seq<AuditRecord>,
    board: Board,
    queue: seq<Item>,
    stop: bool,
    worker: Phase,
    trader: Trader,
    accepted: seq<Job>,
    dropped: seq<Job>,
    processed: seq<Job>,
    stamps: seq<(string, Anchor)>,
    pilled: bool)

  datatype Event =
    | Store(record: AuditRecord, asset: string)
    | Show(link: Link, entry: Entry)
    | Submit
    | CloseTrade(exit: Exit)
    | Shutdown
    | Check
    | Get
    | Call(response: Response)
    | Append(succeeds: bool)
    | Report

  function Begin(log: seq<AuditRecord>, board: Board): World {
    World(log, board, [], false, Waiting, Ready, [], [], [], [], false)
  }

  /** put_nowait: a full queue refuses. */
  predicate Accepts(queue: seq<Item>) {
    |queue| < QUEUE_MAX
  }

  /** The callback: a transaction completes the anchor, an exception marks it,
      and a result without a transaction says nothing. */
  function Stamped(response: Response, failed: bool): Option<Anchor> {
    if response.Mined? && response.tx.Some? && response.tx.value != "" then
      Some(Anchor("complete", response.tx, Some(TX_URL + response.tx.value)))
    else if failed then Some(Anchor("error", None, None))
    else None
  }

  function Land(board: Board, job: Job, response: Response, failed: bool): Board {
    var anchor := Stamped(response, failed);
    if anchor.None? then board else UpdateAnchor(board, Some(job.asset), job.record.auditId, anchor.value)
  }

  /** A record as a decision creates it: an id no row has, no anchor fields. */
  predicate Unanchored(r: AuditRecord) {
    r.arcTxHash.None? && r.arcJobId.None?
  }

  predicate Enabled(w: World, ev: Event) {
    match ev
    case Store(record, asset) =>
      w.trader.Ready? && Unanchored(record) && forall r :: r in w.log ==> r.auditId != record.auditId
    case Show(link, entry) => w.trader.Stored?
    case Submit => w.trader.Shown?
    case CloseTrade(exit) => w.trader.Ready?
    case Shutdown => !w.trader.Finished?
    case Check => w.worker.Waiting?
    case Get => w.worker.Taking?
    case Call(response) => w.worker.Calling?
    case Append(succeeds) => w.worker.Appending?
    case Report => w.worker.Reporting?
  }

  /** One atomic action of either thread. */
  function Step(w: World, ev: Event): World
    requires Enabled(w, ev)
  {
    match ev
    case Store(record, asset) => w.(log := w.log + [record], trader := Stored(Job(record, asset)))
    case Show(link, entry) =>
      var job := w.trader.job;
      var linked := RecordOpen(w.board, job.asset, link.(auditId := job.record.auditId));
      w.(board := linked.(feed := RecordDecision(linked.feed, entry.(id := Opening(job.record.auditId)))), trader :=
        Shown(job))
    case Submit =>
      if Accepts(w.queue) then
        w.(queue := w.queue + [Work(w.trader.job)], accepted := w.accepted + [w.trader.job], trader := Ready)
      else w.(dropped := w.dropped + [w.trader.job], trader := Ready)
    case CloseTrade(exit) => w.(board := RecordClose(w.board, exit))
    case Shutdown =>
      if Accepts(w.queue) then w.(queue := w.queue + [Pill], pilled := true, trader := Finished)
      else w.(stop := true, trader := Finished)
    case Check => w.(worker := if w.stop then Halted else Taking)
    case Get =>
      if w.queue == [] then w.(worker := Waiting)
      else if w.queue[0].Pill? then w.(queue := w.queue[1..], stop := true, worker := Halted)
        else w.(queue := w.queue[1..], worker := Calling(w.queue[0].job))
    case Call(response) =>
      var job := w.worker.job;
      if response.Mined? then w.(worker := Appending(job, response.tx, response.jobId))
      else w.(worker := Reporting(job, Refused, true))
    case Append(succeeds) =>
      var Appending(job, tx, jobId) := w.worker;
      w.(log := if succeeds then w.log + [Anchored(job.record, tx, jobId)] else w.log,
         worker := Reporting(job, Mined(tx, jobId), !succeeds))
    case Report =>
      var Reporting(job, response, failed) := w.worker;
      var anchor := Stamped(response, failed);
      w.(board := Land(w.board, job, response, failed),
         stamps := if anchor.Some? then w.stamps + [(job.record.auditId, anchor.value)] else w.stamps,
         processed := w.processed + [job],
         worker := Waiting)
  }

  /** A run: each event happens where it is enabled. */
  predicate Runs(w: World, evs: seq<Event>)
    decreases |evs|, 0
  {
    evs == [] || (Runs(w, evs[..|evs| - 1]) && Enabled(After(w, evs[..|evs| - 1]), evs[|evs| - 1]))
  }

  function After(w: World, evs: seq<Event>): World
    requires Runs(w, evs)
    decreases |evs|, 1
  {
    if evs == [] then w else Step(After(w, evs[..|evs| - 1]), evs[|evs| - 1])
  }

  // ------------------------------------------------------------------ invariants

  function Jobs(queue: seq<Item>): seq<Job>
    decreases |queue|
  {
    if queue == [] then []
    else
      var rest := Jobs(queue[..|queue| - 1]);
      if queue[|queue| - 1].Work? then rest + [queue[|queue| - 1].job] else rest
  }

  /** The job the worker has taken and not reported yet. */
  function InFlight(w: World): seq<Job> {
    match w.worker
    case Calling(job) => [job]
    case Appending(job, _, _) => [job]
    case Reporting(job, _, _) => [job]
    case _ => []
  }

  function Clear(r: AuditRecord): AuditRecord {
    Anchored(r, None, None)
  }

  /** States of one record differ in their anchor fields only. */
  predicate Consistent(log: seq<AuditRecord>) {
    forall i, j :: 0 <= i < j < |log| && log[i].auditId == log[j].auditId ==> Clear(log[i]) == Clear(log[j])
  }

  /** The record was stored as it was decided. */
  predicate Recorded(log: seq<AuditRecord>, job: Job) {
    job.record in log && Unanchored(job.record)
  }

  /** Write-ahead: everything submitted, and whatever the trading thread is
      about to submit, is in the log. */
  predicate WrittenAhead(w: World) {
    && (forall j :: j in w.accepted ==> Recorded(w.log, j))
    && (forall j :: j in w.dropped ==> Recorded(w.log, j))
    && (w.trader.Stored? || w.trader.Shown? ==> Recorded(w.log, w.trader.job))
    && Consistent(w.log)
  }

  /** First in, first out: accepted work is done, in hand, or queued. */
  predicate Accounted(w: World) {
    w.accepted == w.processed + InFlight(w) + Jobs(w.queue)
  }

  /** After an accepted pill the worker stops only at the pill. */
  predicate Draining(w: World) {
    && (w.pilled ==> w.trader.Finished?)
    && (w.worker.Halted? ==> w.stop)
    && (w.stop && !w.pilled ==> w.trader.Finished?)
    && (forall i :: 0 <= i < |w.queue| && w.queue[i].Pill? ==> w.pilled && i == |w.queue| - 1)
    && (w.pilled && !w.worker.Halted? ==> !w.stop && w.queue != [] && w.queue[|w.queue| - 1].Pill?)
    && (w.pilled && w.worker.Halted? ==> w.queue == [])
  }

  /** The last anchor stamped for an id. */
  function LastStamp(stamps: seq<(string, Anchor)>, auditId: string): Option<Anchor>
    decreases |stamps|
  {
    if stamps == [] then None
    else if stamps[|stamps| - 1].0 == auditId then Some(stamps[|stamps| - 1].1)
    else LastStamp(stamps[..|stamps| - 1], auditId)
  }

  /** Every link and every feed entry carries the last stamp of its id; a link
      without one still waits. */
  predicate OwnStamps(w: World) {
    && (forall a :: a in w.board.links ==>
          var l, last := w.board.links[a], LastStamp(w.stamps, w.board.links[a].auditId);
          l.anchor == if last.Some? then last.value else Anchor("pending", None, None))
    && forall e :: e in w.board.feed && e.id.Opening? ==>
         var last := LastStamp(w.stamps, e.id.auditId);
         last.Some? ==> e.anchor == last.value
  }

  predicate Named(log: seq<AuditRecord>, auditId: string) {
    exists i :: 0 <= i < |log| && log[i].auditId == auditId
  }

  /** A link belongs to a stored record, and the accepted job of that record is
      for the asset of the link; the record in the trading thread's hand is in
      no link of another asset and in no accepted job. */
  predicate Paired(w: World) {
    && (forall a :: a in w.board.links ==> Named(w.log, w.board.links[a].auditId))
    && (forall a, j :: a in w.board.links && j in w.accepted && j.record.auditId == w.board.links[a].auditId ==>
          j.asset == a)
    && (w.trader.Stored? || w.trader.Shown? ==>
          var own := w.trader.job;
          && (forall j :: j in w.accepted ==> j.record.auditId != own.record.auditId)
          && (forall a :: a in w.board.links && w.board.links[a].auditId == own.record.auditId ==>
                w.trader.Shown? && a == own.asset))
  }

  /** Stamps are for records that were accepted. */
  predicate StampsAccepted(w: World) {
    forall s :: s in w.stamps ==> exists j :: j in w.accepted && j.record.auditId == s.0
  }

  ghost predicate Inv(w: World) {
    WrittenAhead(w) && Accounted(w) && Draining(w) && Paired(w) && OwnStamps(w) && StampsAccepted(w)
  }

  lemma {:induction false} JobsSnoc(queue: seq<Item>, item: Item)
    ensures Jobs(queue + [item]) == Jobs(queue) + (if item.Work? then [item.job] else [])
  {
    assert (queue + [item])[..|queue|] == queue;
  }

  lemma {:induction false} JobsHead(queue: seq<Item>)
    requires queue != []
    ensures Jobs(queue) == (if queue[0].Work? then [queue[0].job] else []) + Jobs(queue[1..])
    decreases |queue|
  {
    if |queue| == 1 {
      assert queue[..0] == [] && queue[1..] == [];
    } else {
      JobsHead(queue[..|queue| - 1]);
      assert queue[..|queue| - 1][1..] == queue[1..][..|queue| - 2];
    }
  }

  /** The job the trading thread is about to submit. */
  function Pending(w: World): set<Job> {
    if w.trader.Stored? || w.trader.Shown? then {w.trader.job} else {}
  }

  lemma {:induction false} MoreWritten(w: World, after: World)
    requires WrittenAhead(w) && Consistent(after.log) && forall r :: r in w.log ==> r in after.log
    requires forall j :: j in after.accepted ==> j in w.accepted || j in Pending(w)
    requires forall j :: j in after.dropped ==> j in w.dropped || j in Pending(w)
    requires forall j :: j in Pending(after) ==> j in Pending(w) || Recorded(after.log, j)
    ensures WrittenAhead(after)
  {
    hide Consistent, Unanchored;
    assert after.trader.Stored? || after.trader.Shown? ==> after.trader.job in Pending(after);
  }

  lemma {:induction false} StoreWritten(w: World, record: AuditRecord, asset: string)
    requires WrittenAhead(w) && Enabled(w, Store(record, asset))
    ensures WrittenAhead(Step(w, Store(record, asset)))
  {
    var after := Step(w, Store(record, asset));
    FreshConsistent(w.log, record);
    assert record in after.log;
    hide Consistent, Unanchored, WrittenAhead;
    MoreWritten(w, after);
  }

  lemma {:induction false} AppendWritten(w: World, succeeds: bool)
    requires WrittenAhead(w) && Accounted(w) && Enabled(w, Append(succeeds))
    ensures WrittenAhead(Step(w, Append(succeeds)))
  {
    var after := Step(w, Append(succeeds));
    if succeeds {
      assert w.worker.job in w.accepted;
      AppendConsistent(w.log, w.worker.job.record, Anchored(w.worker.job.record, w.worker.tx, w.worker.jobId));
    }
    hide Consistent, Unanchored, WrittenAhead, Anchored;
    MoreWritten(w, after);
  }

  lemma {:induction false} StepWrittenAhead(w: World, ev: Event)
    requires WrittenAhead(w) && Accounted(w) && Enabled(w, ev)
    ensures WrittenAhead(Step(w, ev))
  {
    if ev.Store? {
      StoreWritten(w, ev.record, ev.asset);
    } else if ev.Append? {
      AppendWritten(w, ev.succeeds);
    } else {
      assert Consistent(w.log);
      hide Consistent, Unanchored, WrittenAhead, Accounted, RecordOpen, RecordDecision, RecordClose, Land, Stamped;
      MoreWritten(w, Step(w, ev));
    }
  }

  lemma {:induction false} FreshConsistent(log: seq<AuditRecord>, r: AuditRecord)
    requires Consistent(log) && forall q :: q in log ==> q.auditId != r.auditId
    ensures Consistent(log + [r])
  {
    hide Clear;
  }

  lemma {:induction false} AppendConsistent(log: seq<AuditRecord>, original: AuditRecord, r: AuditRecord)
    requires Consistent(log) && original in log && r.auditId == original.auditId && Clear(r) == Clear(original)
    ensures Consistent(log + [r])
  {
    var k :| 0 <= k < |log| && log[k] == original;
    forall i | 0 <= i < |log| && log[i].auditId == r.auditId ensures Clear(log[i]) == Clear(r) {
      if i < k {
        assert Clear(log[i]) == Clear(log[k]);
      } else if k < i {
        assert Clear(log[k]) == Clear(log[i]);
      }
    }
  }

  /** How one step moves work: in at the back of the queue, off its front into
      the worker's hand, and from there to the processed. */
  lemma {:induction false} StepMovesWork(w: World, ev: Event)
    requires Enabled(w, ev)
    ensures
      var after := Step(w, ev);
      if ev.Submit? && Accepts(w.queue) then
        && after.accepted == w.accepted + [w.trader.job] && after.queue == w.queue + [Work(w.trader.job)]
        && after.processed == w.processed && InFlight(after) == InFlight(w)
      else if ev.Shutdown? && Accepts(w.queue) then
        && after.accepted == w.accepted && after.queue == w.queue + [Pill]
        && after.processed == w.processed && InFlight(after) == InFlight(w)
      else if ev.Get? && w.queue != [] then
        && after.accepted == w.accepted && after.queue == w.queue[1..] && after.processed == w.processed
        && InFlight(w) == [] && InFlight(after) == (if w.queue[0].Work? then [w.queue[0].job] else [])
      else
        && after.accepted == w.accepted && after.queue == w.queue
        && after.processed + InFlight(after) == w.processed + InFlight(w)
  {
    hide RecordOpen, RecordDecision, RecordClose, Land, Stamped, Anchored, Unanchored, Accepts;
  }

  lemma {:induction false} Grouped(a: seq<Job>, b: seq<Job>, c: seq<Job>)
    ensures a + b + c == a + (b + c)
  {
  }

  lemma {:induction false} StepAccounted(w: World, ev: Event)
    requires Accounted(w) && Enabled(w, ev)
    ensures Accounted(Step(w, ev))
  {
    StepMovesWork(w, ev);
    hide Step, InFlight, Enabled, Jobs;
    var done := w.processed + InFlight(w);
    if ev.Submit? && Accepts(w.queue) {
      JobsSnoc(w.queue, Work(w.trader.job));
      Grouped(done, Jobs(w.queue), [w.trader.job]);
    } else if ev.Shutdown? && Accepts(w.queue) {
      JobsSnoc(w.queue, Pill);
    } else if ev.Get? && w.queue != [] {
      JobsHead(w.queue);
      assert w.accepted == w.processed + Jobs(w.queue);
      Grouped(w.processed, if w.queue[0].Work? then [w.queue[0].job] else [], Jobs(w.queue[1..]));
    }
  }

  lemma {:induction false} StepDraining(w: World, ev: Event)
    requires Draining(w) && Enabled(w, ev)
    ensures Draining(Step(w, ev))
  {
    hide RecordOpen, RecordDecision, RecordClose, Land, Stamped;
  }

  lemma {:induction false} StampMore(stamps: seq<(string, Anchor)>, auditId: string, anchor: Anchor, other: string)
    ensures LastStamp(stamps + [(auditId, anchor)], other)
         == if other == auditId then Some(anchor) else LastStamp(stamps, other)
  {
    assert (stamps + [(auditId, anchor)])[..|stamps|] == stamps;
  }

  lemma {:induction false} NoStamp(stamps: seq<(string, Anchor)>, auditId: string)
    requires forall s :: s in stamps ==> s.0 != auditId
    ensures LastStamp(stamps, auditId).None?
    decreases |stamps|
  {
    if stamps != [] {
      NoStamp(stamps[..|stamps| - 1], auditId);
    }
  }

  /** Named stays named, and a stored record is named. */
  lemma {:induction false} MoreNamed(log: seq<AuditRecord>, r: AuditRecord, auditId: string)
    requires Named(log, auditId) || r.auditId == auditId
    ensures Named(log + [r], auditId)
  {
    if Named(log, auditId) {
      var i :| 0 <= i < |log| && log[i].auditId == auditId;
      assert (log + [r])[i].auditId == auditId;
    } else {
      assert (log + [r])[|log|].auditId == auditId;
    }
  }

  lemma {:induction false} RecordedNamed(log: seq<AuditRecord>, job: Job)
    requires Recorded(log, job)
    ensures Named(log, job.record.auditId)
  {
    var i :| 0 <= i < |log| && log[i] == job.record;
  }

  lemma {:induction false} StorePaired(w: World, record: AuditRecord, asset: string)
    requires WrittenAhead(w) && Paired(w) && Enabled(w, Store(record, asset))
    ensures Paired(Step(w, Store(record, asset)))
  {
    assert !Named(w.log, record.auditId);
    forall j | j in w.accepted ensures j.record.auditId != record.auditId {
      RecordedNamed(w.log, j);
    }
    forall a | a in w.board.links ensures Named(w.log + [record], w.board.links[a].auditId) {
      MoreNamed(w.log, record, w.board.links[a].auditId);
    }
    hide Named, Recorded;
  }

  lemma {:induction false} ShowPaired(w: World, link: Link, entry: Entry)
    requires WrittenAhead(w) && Paired(w) && Enabled(w, Show(link, entry))
    ensures Paired(Step(w, Show(link, entry)))
  {
    RecordedNamed(w.log, w.trader.job);
    hide Named, Recorded, RecordDecision, Consistent;
  }

  lemma {:induction false} AppendPaired(w: World, succeeds: bool)
    requires Paired(w) && Enabled(w, Append(succeeds))
    ensures Paired(Step(w, Append(succeeds)))
  {
    forall a | a in w.board.links ensures Named(Step(w, Append(succeeds)).log, w.board.links[a].auditId) {
      if succeeds {
        MoreNamed(w.log, Anchored(w.worker.job.record, w.worker.tx, w.worker.jobId), w.board.links[a].auditId);
      }
    }
    hide Named, Anchored;
  }

  lemma {:induction false} LandKeepsIds(board: Board, job: Job, response: Response, failed: bool)
    ensures
      var after := Land(board, job, response, failed);
      && after.links.Keys == board.links.Keys
      && forall a :: a in board.links ==> after.links[a].auditId == board.links[a].auditId
  {
    hide Stamp;
  }

  lemma {:induction false} StepPaired(w: World, ev: Event)
    requires WrittenAhead(w) && Paired(w) && Enabled(w, ev)
    ensures Paired(Step(w, ev))
  {
    match ev
    case Store(record, asset) => StorePaired(w, record, asset);
    case Show(link, entry) => ShowPaired(w, link, entry);
    case Submit => SubmitPaired(w);
    case Append(succeeds) => AppendPaired(w, succeeds);
    case Report =>
      LandKeepsIds(w.board, w.worker.job, w.worker.response, w.worker.failed);
      hide Paired, Land;
      FewerPaired(w, Step(w, ev));
    case _ =>
      hide Paired, RecordDecision, ClosingEntry;
      FewerPaired(w, Step(w, ev));
  }

  /** Dropping links, or the record in hand, keeps the pairing. */
  lemma {:induction false} FewerPaired(w: World, after: World)
    requires Paired(w) && after.log == w.log && after.accepted == w.accepted
    requires after.trader == w.trader || !(after.trader.Stored? || after.trader.Shown?)
    requires forall a :: a in after.board.links ==>
      a in w.board.links && after.board.links[a].auditId == w.board.links[a].auditId
    ensures Paired(after)
  {
    hide Named;
  }

  lemma {:induction false} SubmitPaired(w: World)
    requires Paired(w) && Enabled(w, Submit)
    ensures Paired(Step(w, Submit))
  {
    hide Named;
  }

  /** Whatever leaves the anchors alone, or only drops links and entries, keeps
      the stamps. */
  lemma {:induction false} FewerOwnStamps(w: World, after: World)
    requires OwnStamps(w) && after.stamps == w.stamps
    requires forall a :: a in after.board.links ==>
      && a in w.board.links && after.board.links[a].auditId == w.board.links[a].auditId
      && after.board.links[a].anchor == w.board.links[a].anchor
    requires forall e :: e in after.board.feed && e.id.Opening? ==> e in w.board.feed
    ensures OwnStamps(after)
  {
    hide LastStamp;
  }

  lemma {:induction false} RecordedAmong(feed: seq<Entry>, e: Entry)
    ensures forall x :: x in RecordDecision(feed, e) ==> x == e || x in feed
  {
    WithoutIs(feed, e.id);
    hide Without;
  }

  lemma {:induction false} ShowOwnStamps(w: World, link: Link, entry: Entry)
    requires Paired(w) && OwnStamps(w) && StampsAccepted(w) && Enabled(w, Show(link, entry))
    ensures OwnStamps(Step(w, Show(link, entry)))
  {
    var own := w.trader.job.record.auditId;
    forall s | s in w.stamps ensures s.0 != own {
      var j :| j in w.accepted && j.record.auditId == s.0;
    }
    NoStamp(w.stamps, own);
    RecordedAmong(w.board.feed, entry.(id := Opening(own)));
    hide LastStamp, RecordDecision, Named;
  }

  lemma {:induction false} CloseOwnStamps(w: World, exit: Exit)
    requires OwnStamps(w) && Enabled(w, CloseTrade(exit))
    ensures OwnStamps(Step(w, CloseTrade(exit)))
  {
    var trade := Trade(exit, HeldSeconds(exit), LinkOf(w.board, exit.asset));
    RecordedAmong(w.board.feed, ClosingEntry(trade));
    hide RecordDecision, OwnStamps;
    FewerOwnStamps(w, Step(w, CloseTrade(exit)));
  }

  /** A result reaches the link of its own record, wherever it is. */
  lemma {:induction false} ReportOwnStamps(w: World)
    requires Paired(w) && Accounted(w) && OwnStamps(w) && Enabled(w, Report)
    ensures OwnStamps(Step(w, Report))
  {
    var Reporting(job, response, failed) := w.worker;
    var anchor := Stamped(response, failed);
    assert job in w.accepted;
    hide Stamped;
    if anchor.Some? {
      LandStamps(w, Step(w, Report), job, anchor.value);
    }
  }

  lemma {:induction false} LandStamps(w: World, after: World, job: Job, anchor: Anchor)
    requires Paired(w) && OwnStamps(w) && job in w.accepted
    requires after.board == UpdateAnchor(w.board, Some(job.asset), job.record.auditId, anchor)
    requires after.stamps == w.stamps + [(job.record.auditId, anchor)]
    ensures OwnStamps(after)
  {
    var own := job.record.auditId;
    forall id ensures LastStamp(after.stamps, id) == if id == own then Some(anchor) else LastStamp(w.stamps, id) {
      StampMore(w.stamps, own, anchor, id);
    }
    forall e | e in after.board.feed && e.id.Opening?
      ensures
        var last := LastStamp(after.stamps, e.id.auditId);
        last.Some? ==> e.anchor == last.value
    {
      var i :| 0 <= i < |after.board.feed| && after.board.feed[i] == e;
      assert w.board.feed[i] in w.board.feed;
    }
    hide LastStamp, Named;
  }

  lemma {:induction false} StepOwnStamps(w: World, ev: Event)
    requires Paired(w) && Accounted(w) && OwnStamps(w) && StampsAccepted(w) && Enabled(w, ev)
    ensures OwnStamps(Step(w, ev))
  {
    match ev
    case Report => ReportOwnStamps(w);
    case Show(link, entry) => ShowOwnStamps(w, link, entry);
    case CloseTrade(exit) => CloseOwnStamps(w, exit);
    case _ =>
      StepKeepsBoard(w, ev);
      hide Step, Enabled, OwnStamps;
      FewerOwnStamps(w, Step(w, ev));
  }

  /** Only showing, closing and reporting touch the board. */
  lemma {:induction false} StepKeepsBoard(w: World, ev: Event)
    requires Enabled(w, ev) && !ev.Show? && !ev.CloseTrade? && !ev.Report?
    ensures Step(w, ev).board == w.board && Step(w, ev).stamps == w.stamps
  {
    hide Anchored, Unanchored;
  }

  lemma {:induction false} StepStampsAccepted(w: World, ev: Event)
    requires StampsAccepted(w) && Accounted(w) && Enabled(w, ev)
    ensures StampsAccepted(Step(w, ev))
  {
    hide RecordOpen, RecordDecision, RecordClose, Land, Stamped;
    var after := Step(w, ev);
    assert forall j :: j in w.accepted ==> j in after.accepted;
    if ev.Report? {
      assert w.worker.job in w.accepted;
    }
  }

  lemma {:induction false} BeginInv(log: seq<AuditRecord>, board: Board)
    requires Consistent(log) && board.links == map[]
    ensures Inv(Begin(log, board))
  {
  }

  /** Main result: every interleaving of the two threads keeps all of it. */
  lemma {:induction false} EveryInterleaving(log: seq<AuditRecord>, board: Board, evs: seq<Event>)
    requires Consistent(log) && board.links == map[] && Runs(Begin(log, board), evs)
    ensures Inv(After(Begin(log, board), evs))
    decreases |evs|
  {
    if evs == [] {
      BeginInv(log, board);
    } else {
      EveryInterleaving(log, board, evs[..|evs| - 1]);
      var w, ev := After(Begin(log, board), evs[..|evs| - 1]), evs[|evs| - 1];
      StepWrittenAhead(w, ev);
      StepAccounted(w, ev);
      StepDraining(w, ev);
      StepPaired(w, ev);
      StepOwnStamps(w, ev);
      StepStampsAccepted(w, ev);
      hide Step, Enabled, WrittenAhead, Accounted, Draining, Paired, OwnStamps, StampsAccepted;
    }
  }

  // ---------------------------------------------------------------- consequences

  /** The chain client is only ever given a record that is already stored. */
  lemma {:induction false} AnchoredAfterStored(w: World)
    requires Inv(w) && w.worker.Calling?
    ensures w.worker.job.record in w.log
  {
    assert w.worker.job in w.accepted;
  }

  /** The newest state of a submitted record is the submitted record plus
      anchor fields, however many rows the worker has added. */
  lemma {:induction false} LatestIsSubmitted(w: World, job: Job)
    requires Inv(w) && (job in w.accepted || job in w.dropped)
    ensures
      var latest := LastOf(w.log, job.record.auditId);
      latest.Some? && Clear(latest.value) == job.record
  {
    assert Recorded(w.log, job);
    LastOfIs(w.log, job.record.auditId);
    var k :| 0 <= k < |w.log| && w.log[k] == job.record;
    var i :| 0 <= i < |w.log| && w.log[i] == LastOf(w.log, job.record.auditId).value
      && w.log[i].auditId == job.record.auditId;
    if i < k {
      assert Clear(w.log[i]) == Clear(w.log[k]);
    } else if k < i {
      assert Clear(w.log[k]) == Clear(w.log[i]);
    }
    assert Clear(job.record) == job.record;
  }

  /** The worker's row becomes the latest state of its own record, and of no
      other. */
  lemma {:induction false} LatestAfterAppend(w: World, auditId: string)
    requires w.worker.Appending?
    ensures
      var anchored := Anchored(w.worker.job.record, w.worker.tx, w.worker.jobId);
      && LastOf(Step(w, Append(true)).log, auditId)
           == (if auditId == w.worker.job.record.auditId then Some(anchored) else LastOf(w.log, auditId))
      && Step(w, Append(false)).log == w.log
  {
    LastOfAppend(w.log, Anchored(w.worker.job.record, w.worker.tx, w.worker.jobId), auditId);
    hide LastOf;
  }

  /** Main result on one report, on the board itself: with a transaction, the
      link of the job's record and every feed entry of it are complete and
      carry it; after a failure without one they are in error; otherwise they
      are as they were. */
  lemma {:induction false} ReportReaches(w: World)
    requires Enabled(w, Report)
    ensures
      var Reporting(job, response, failed) := w.worker;
      var before, after, id := w.board, Step(w, Report).board, w.worker.job.record.auditId;
      var landed := response.Mined? && response.tx.Some? && response.tx.value != "";
      var anchor :=
        if landed then Anchor("complete", response.tx, Some("https://testnet.arcscan.app/tx/" + response.tx.value))
        else Anchor("error", None, None);
      if landed || failed then
        && (job.asset in before.links && before.links[job.asset].auditId == id ==>
              after.links == before.links[job.asset := before.links[job.asset].(anchor := anchor)])
        && |after.feed| == |before.feed|
        && forall i :: 0 <= i < |before.feed| && before.feed[i].id == Opening(id) ==>
             after.feed[i] == before.feed[i].(anchor := anchor)
      else after == before
  {
  }

  /** And when the position is closed, the trade and its feed entry keep what its
      link carried. */
  lemma {:induction false} CloseCarriesAnchor(w: World, exit: Exit)
    requires OwnStamps(w) && Enabled(w, CloseTrade(exit)) && exit.asset in w.board.links
    ensures
      var l, after := w.board.links[exit.asset], Step(w, CloseTrade(exit)).board;
      var last := LastStamp(w.stamps, l.auditId);
      && exit.asset !in after.links && after.trades != [] && after.trades[0].link == Some(l)
      && after.feed != [] && after.feed[0].id == Closing(exit.asset, exit.exitTime)
      && (last.Some? ==> after.feed[0].anchor == Anchor("n/a", last.value.tx, last.value.url))
      && (last.None? ==> after.feed[0].anchor == Anchor("n/a", None, None))
  {
    hide Without, LastStamp;
  }

  /** A result that comes back after its position was closed, and another
      opened on the same asset, changes neither the newer link nor the feed
      entry of any other record. */
  lemma {:induction false} StaleResultHarmless(w: World)
    requires Enabled(w, Report)
    ensures
      var job, after := w.worker.job, Step(w, Report);
      && after.board.links.Keys == w.board.links.Keys && |after.board.feed| == |w.board.feed|
      && (forall a :: a in w.board.links && w.board.links[a].auditId != job.record.auditId ==>
            after.board.links[a] == w.board.links[a])
      && (forall i :: 0 <= i < |w.board.feed| && w.board.feed[i].id != Opening(job.record.auditId) ==>
            after.board.feed[i] == w.board.feed[i])
  {
  }

  /** If the shutdown pill was accepted, the worker halts with everything
      accepted processed; if not, exactly the queued work is left undone. */
  lemma {:induction false} HaltedMeansDrained(w: World)
    requires Inv(w) && w.worker.Halted?
    ensures w.pilled ==> w.processed == w.accepted
    ensures w.accepted == w.processed + Jobs(w.queue)
  {
  }

  function Rank(p: Phase): nat {
    match p
    case Halted => 0
    case Taking => 1
    case Waiting => 2
    case Reporting(_, _, _) => 3
    case Appending(_, _, _) => 4
    case Calling(_) => 5
  }

  predicate WorkerStep(ev: Event) {
    ev.Check? || ev.Get? || ev.Call? || ev.Append? || ev.Report?
  }

  /** After an accepted pill the only steps left are the worker's, and each
      brings the halt closer: the drain always ends. */
  lemma {:induction false} DrainEnds(w: World, ev: Event)
    requires Inv(w) && w.pilled && Enabled(w, ev)
    ensures WorkerStep(ev)
    ensures
      var after := Step(w, ev);
      5 * |after.queue| + Rank(after.worker) < 5 * |w.queue| + Rank(w.worker)
  {
    hide RecordOpen, RecordDecision, RecordClose, Land, Stamped, Recorded, Consistent, OwnStamps, StampsAccepted;
  }

  /** Until it has halted, a worker always has a step to take. */
  lemma {:induction false} WorkerNeverStuck(w: World, response: Response, succeeds: bool)
    requires !w.worker.Halted?
    ensures Enabled(w, Check) || Enabled(w, Get) || Enabled(w, Call(response)) || Enabled(w, Append(succeeds))
      || Enabled(w, Report)
  {
  }
}
