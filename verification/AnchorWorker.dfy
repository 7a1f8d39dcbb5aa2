/** The anchor worker's own code: a bounded queue, a stop flag, and a loop that
    anchors, appends and reports. Each method is tied to the atomic actions the
    Anchoring module interleaves. */
module AnchorWorker {
  import opened Basics
  import opened Audit
  import opened Feed
  import opened Snapshots
  import opened Anchoring

  /** What one job leaves behind: a further row if the chain answered and the
      append went through, and the result on the board either way. */
  function LogAfter(log: seq<AuditRecord>, job: Job, response: Response, appends: bool): seq<AuditRecord> {
    if response.Mined? && appends then log + [Anchored(job.record, response.tx, response.jobId)] else log
  }

  function BoardAfter(board: Board, job: Job, response: Response, appends: bool): Board {
    Land(board, job, response, response.Refused? || !appends)
  }

  /** The worker's three actions on a taken job compose to this. */
  lemma {:induction false} JobIsThreeSteps(w: World, response: Response, appends: bool)
    requires w.worker.Calling?
    ensures
      var job := w.worker.job;
      var called := Step(w, Call(response));
      var landed := if response.Mined? then Step(called, Append(appends)) else called;
      && landed.worker.Reporting?
      && var after := Step(landed, Report);
         && after.log == LogAfter(w.log, job, response, appends)
         && after.board == BoardAfter(w.board, job, response, appends)
         && after.processed == w.processed + [job] && after.worker == Waiting
  {
    hide Land, Stamped;
  }

  /** The loop until it stops or finds the queue empty. */
  function LogServed(log: seq<AuditRecord>, queue: seq<Item>, answer: Job -> (Response, bool)): seq<AuditRecord>
    decreases |queue|
  {
    if queue == [] || queue[0].Pill? then log
    else
      var job := queue[0].job;
      LogServed(LogAfter(log, job, answer(job).0, answer(job).1), queue[1..], answer)
  }

  function BoardServed(board: Board, queue: seq<Item>, answer: Job -> (Response, bool)): Board
    decreases |queue|
  {
    if queue == [] || queue[0].Pill? then board
    else
      var job := queue[0].job;
      BoardServed(BoardAfter(board, job, answer(job).0, answer(job).1), queue[1..], answer)
  }

  /** What a pass over the queue leaves in it: everything behind the pill. */
  function Unserved(queue: seq<Item>): seq<Item>
    decreases |queue|
  {
    if queue == [] then [] else if queue[0].Pill? then queue[1..] else Unserved(queue[1..])
  }

  /** Work, and then the pill. */
  predicate PillLast(queue: seq<Item>) {
    queue != [] && queue[|queue| - 1].Pill? && forall i :: 0 <= i < |queue| - 1 ==> queue[i].Work?
  }

  lemma {:induction false} PillLastServesAll(queue: seq<Item>)
    requires PillLast(queue)
    ensures Unserved(queue) == []
    decreases |queue|
  {
    if |queue| > 1 {
      PillLastServesAll(queue[1..]);
    }
  }

  class Worker {
    const store: AuditStore
    const snap: SnapshotState
    var queue: seq<Item>
    var stop: bool

    constructor (store: AuditStore, snap: SnapshotState)
      ensures this.store == store && this.snap == snap && queue == [] && !stop
    {
      this.store, this.snap, queue, stop := store, snap, [], false;
    }

    /** Never blocks: a full queue drops the job. */
    method Submit(record: AuditRecord, asset: string) returns (accepted: bool)
      modifies this`queue
      ensures accepted == (|old(queue)| < 200)
      ensures queue == if accepted then old(queue) + [Work(Job(record, asset))] else old(queue)
    {
      accepted := |queue| < QUEUE_MAX;
      if accepted {
        queue := queue + [Work(Job(record, asset))];
      }
    }

    /** Ask for the end: a pill behind the queued work, or a stop at once when
        there is no room for one. */
    method Close()
      modifies this`queue, this`stop
      ensures |old(queue)| < QUEUE_MAX ==> queue == old(queue) + [Pill] && stop == old(stop)
      ensures |old(queue)| >= QUEUE_MAX ==> queue == old(queue) && stop
    {
      if |queue| < QUEUE_MAX {
        queue := queue + [Pill];
      } else {
        stop := true;
      }
    }

    /** Anchor, append the anchored state, report. */
    method AnchorOne(job: Job, response: Response, appends: bool)
      requires store.Valid() && (response.Mined? ==> Writable(Anchored(job.record, response.tx, response.jobId)))
      modifies store, snap
      ensures store.Valid() && store.log == LogAfter(old(store.log), job, response, appends)
      ensures snap.View() == old(BoardAfter(snap.View(), job, response, appends))
    {
      hide Writable, AuditStore.Valid, Feed.UpdateAnchor, SnapshotState.View, Anchored, Sealed, Reopened;
      var failed := true;
      if response.Mined? {
        var updated := Anchored(job.record, response.tx, response.jobId);
        SealedReopened(updated);
        var rowid := store.Append(Reopened(updated), appends);
        failed := rowid.Err?;
      }
      if response.Mined? && response.tx.Some? && response.tx.value != "" {
        var url := TX_URL + response.tx.value;
        snap.UpdateAnchor(Some(job.asset), job.record.auditId, Anchor("complete", response.tx, Some(url)));
      } else if failed {
        snap.UpdateAnchor(Some(job.asset), job.record.auditId, Anchor("error", None, None));
      }
    }

    /** The worker loop, run until it stops or would have to wait. */
    method Run(answer: Job -> (Response, bool))
      requires store.Valid() && !stop
      requires forall job: Job ::
        answer(job).0.Mined? ==> Writable(Anchored(job.record, answer(job).0.tx, answer(job).0.jobId))
      modifies this`queue, this`stop, store, snap
      ensures store.Valid()
      ensures store.log == LogServed(old(store.log), old(queue), answer)
      ensures snap.View() == old(BoardServed(snap.View(), queue, answer))
      ensures queue == Unserved(old(queue))
      ensures PillLast(old(queue)) ==> queue == []
      ensures stop <==> exists i :: 0 <= i < |old(queue)| && old(queue)[i].Pill?
    {
      hide Writable, AuditStore.Valid, LogAfter, BoardAfter, SnapshotState.View;
      ghost var queued, log, board := queue, store.log, snap.View();
      ghost var taken := 0;
      while !stop && queue != []
        invariant store.Valid()
        invariant 0 <= taken <= |queued|
        invariant !stop ==> queue == queued[taken..]
        invariant !stop ==> LogServed(store.log, queue, answer) == LogServed(log, queued, answer)
        invariant !stop ==> BoardServed(snap.View(), queue, answer) == BoardServed(board, queued, answer)
        invariant !stop ==> Unserved(queue) == Unserved(queued) && forall i :: 0 <= i < taken ==> queued[i].Work?
        invariant stop ==> store.log == LogServed(log, queued, answer)
        invariant stop ==> snap.View() == BoardServed(board, queued, answer)
        invariant stop ==> queue == Unserved(queued) && exists i :: 0 <= i < |queued| && queued[i].Pill?
        decreases !stop, |queue|
      {
        var item := queue[0];
        assert item == queued[taken];
        queue := queue[1..];
        if item.Pill? {
          stop := true;
        } else {
          var (response, appends) := answer(item.job);
          AnchorOne(item.job, response, appends);
          taken := taken + 1;
        }
      }
      if PillLast(queued) {
        PillLastServesAll(queued);
      }
    }
  }
}
