/** The background agent and its scheduler. The loop polls, then looks whether a
    call is in flight, then launches; the call may finish between any two of
    these. Futures are numbered in launch order. */
module AgentMachine {
  import opened Basics

  /** A launched call; once it has finished, the loop action that was next then,
      and the number of the pass it belonged to. */
  datatype Future = Pending | Finished(during: Stage, pass: nat)

  /** The loop's next action: start a pass, poll, check and decide, launch. */
  datatype Stage = Resting | Polling | Checking | Launching

  datatype Loss = Loss(id: nat, future: Future, relaunch: nat)

  datatype World = World(
    period: real,
    stage: Stage,
    pass: nat,
    now: real,
    futures: seq<Future>,
    current: Option<nat>,
    lastStarted: Option<real>,
    starts: seq<real>,
    applied: seq<nat>,
    lost: seq<Loss>)

  datatype Event =
    | Begin(now: real)
    | Poll
    | Check(signal: bool)
    | Launch
    | Finish(id: nat)

  function Idle(period: real): World {
    World(period, Resting, 0, 0.0, [], None, None, [], [], [])
  }

  predicate InFlight(w: World) {
    w.current.Some? && w.current.value < |w.futures| && w.futures[w.current.value].Pending?
  }

  predicate Due(w: World) {
    w.lastStarted.None? || w.now - w.lastStarted.value >= w.period
  }

  predicate Enabled(w: World, ev: Event) {
    match ev
    case Begin(now) => w.stage.Resting?
    case Poll => w.stage.Polling?
    case Check(signal) => w.stage.Checking?
    case Launch => w.stage.Launching?
    case Finish(id) => id < |w.futures| && w.futures[id].Pending?
  }

  /** Take a finished result off the slot. */
  function Polled(w: World): World {
    if w.current.Some? && !InFlight(w) then w.(applied := w.applied + [w.current.value], current := None) else w
  }

  /** Submit a new call unless one is in flight. A finished call still in the
      slot is overwritten. */
  function Started(w: World): World {
    if InFlight(w) then w
    else
      var lost :=
        if w.current.Some? && w.current.value < |w.futures| then
          w.lost + [Loss(w.current.value, w.futures[w.current.value], w.pass)]
        else w.lost;
      w.(futures := w.futures + [Pending], current := Some(|w.futures|), lost := lost)
  }

  function Step(w: World, ev: Event): World
    requires Enabled(w, ev)
  {
    match ev
    case Begin(now) => w.(stage := Polling, pass := w.pass + 1, now := now)
    case Poll => Polled(w).(stage := Checking)
    case Check(signal) => w.(stage := if !InFlight(w) && Due(w) && signal then Launching else Resting)
    case Launch => Started(w.(lastStarted := Some(w.now), starts := w.starts + [w.now])).(stage := Resting)
    case Finish(id) => w.(futures := w.futures[id := Finished(w.stage, w.pass)])
  }

  predicate Runs(w: World, evs: seq<Event>)
    decreases |evs|, 0
  {
    evs == [] || (Runs(w, evs[..|evs| - 1]) && Enabled(After(w, evs[..|evs| - 1]), evs[|evs| - 1]))
  }

  function After(w: World, evs: seq<Event>): World
    requires Runs(w, evs)
    decreases |evs|, 1
  {
    if evs == [] then w else Step(After(w, evs[..|evs| - 1]), evs[|evs| - 1])
  }

  // ------------------------------------------------------------------ invariants

  /** Only the call in the slot can be pending, and it is the latest launched. */
  predicate OnePending(w: World) {
    && (w.current.Some? ==> w.current.value == |w.futures| - 1 && 0 < |w.futures|)
    && forall id :: 0 <= id < |w.futures| && w.futures[id].Pending? ==> w.current == Some(id)
  }

  predicate Spaced(w: World) {
    && (forall i :: 0 < i < |w.starts| ==> w.starts[i] - w.starts[i - 1] >= w.period)
    && (if w.starts == [] then w.lastStarted.None? else w.lastStarted == Some(w.starts[|w.starts| - 1]))
    && |w.starts| == |w.futures|
    && (w.stage.Launching? ==> Due(w))
  }

  predicate Increasing(ids: seq<nat>) {
    forall i, j :: 0 <= i < j < |ids| ==> ids[i] < ids[j]
  }

  predicate WasLost(w: World, id: nat) {
    exists k :: 0 <= k < |w.lost| && w.lost[k].id == id
  }

  /** Every launched call was applied, was lost, or sits in the slot: exactly
      one of the three. */
  predicate Accounted(w: World) {
    && Increasing(w.applied)
    && (forall id :: id in w.applied ==> id < |w.futures| && w.current != Some(id) && !WasLost(w, id))
    && (forall k :: 0 <= k < |w.lost| ==> w.lost[k].id < |w.futures| && w.current != Some(w.lost[k].id))
    && forall id :: 0 <= id < |w.futures| ==> id in w.applied || WasLost(w, id) || w.current == Some(id)
  }

  /** A call is lost only by finishing after the poll and before the check of
      the very pass that relaunches. */
  predicate Window(w: World) {
    && (forall k :: 0 <= k < |w.lost| ==> w.lost[k].future == Finished(Checking, w.lost[k].relaunch))
    && (w.stage.Checking? && w.current.Some? && !InFlight(w) ==>
          w.current.value < |w.futures| && w.futures[w.current.value] == Finished(Checking, w.pass))
    && (w.stage.Launching? && w.current.Some? ==>
          w.current.value < |w.futures| && w.futures[w.current.value] == Finished(Checking, w.pass))
  }

  predicate Inv(w: World) {
    OnePending(w) && Spaced(w) && Accounted(w) && Window(w)
  }

  lemma {:induction false} StepOnePending(w: World, ev: Event)
    requires OnePending(w) && Enabled(w, ev)
    ensures OnePending(Step(w, ev))
  {
  }

  lemma {:induction false} StepSpaced(w: World, ev: Event)
    requires OnePending(w) && Window(w) && Spaced(w) && Enabled(w, ev)
    ensures Spaced(Step(w, ev))
  {
  }

  /** Only the slot, the applied and the lost matter. */
  lemma {:induction false} AccountedFrame(w: World, after: World)
    requires Accounted(w)
    requires |after.futures| == |w.futures| && after.current == w.current
    requires after.applied == w.applied && after.lost == w.lost
    ensures Accounted(after)
  {
    assert forall id :: WasLost(after, id) == WasLost(w, id);
    hide WasLost;
  }

  lemma {:induction false} PollAccounted(w: World)
    requires OnePending(w) && Accounted(w) && w.current.Some?
    ensures Accounted(w.(applied := w.applied + [w.current.value], current := None))
  {
    var id := w.current.value;
    var after := w.(applied := w.applied + [id], current := None);
    forall i | 0 <= i < |w.applied| ensures w.applied[i] < id {
      assert w.applied[i] in w.applied;
    }
    assert forall x :: WasLost(after, x) == WasLost(w, x);
    assert !WasLost(w, id);
    hide WasLost;
    assert forall x :: x in after.applied <==> x in w.applied || x == id;
  }

  lemma {:induction false} LaunchAccounted(w: World)
    requires OnePending(w) && Accounted(w) && !InFlight(w)
    ensures Accounted(Started(w))
  {
    var after := Started(w);
    if w.current.Some? {
      var loss := Loss(w.current.value, w.futures[w.current.value], w.pass);
      assert after.lost == w.lost + [loss];
      forall x: nat ensures WasLost(after, x) <==> WasLost(w, x) || x == loss.id {
        OneMoreLost(w.lost, loss, x);
      }
    } else {
      assert after.lost == w.lost;
      assert forall x :: WasLost(after, x) == WasLost(w, x);
    }
    hide WasLost, Increasing;
  }

  lemma {:induction false} OneMoreLost(lost: seq<Loss>, loss: Loss, x: nat)
    ensures (exists k :: 0 <= k < |lost + [loss]| && (lost + [loss])[k].id == x)
        <==> (exists k :: 0 <= k < |lost| && lost[k].id == x) || x == loss.id
  {
    var more := lost + [loss];
    assert more[|lost|] == loss;
    assert forall k :: 0 <= k < |lost| ==> more[k] == lost[k];
  }

  lemma {:induction false} StepAccounted(w: World, ev: Event)
    requires OnePending(w) && Accounted(w) && Window(w) && Enabled(w, ev)
    ensures Accounted(Step(w, ev))
  {
    hide Accounted;
    if ev.Launch? {
      var timed := w.(lastStarted := Some(w.now), starts := w.starts + [w.now]);
      AccountedFrame(w, timed);
      LaunchAccounted(timed);
      AccountedFrame(Started(timed), Step(w, ev));
    } else if ev.Poll? && w.current.Some? && !InFlight(w) {
      PollAccounted(w);
      AccountedFrame(Polled(w), Step(w, ev));
    } else {
      AccountedFrame(w, Step(w, ev));
    }
  }

  lemma {:induction false} StepWindow(w: World, ev: Event)
    requires OnePending(w) && Window(w) && Enabled(w, ev)
    ensures Window(Step(w, ev))
  {
  }

  /** Main result, over every interleaving of the loop with finishing calls: at
      most one call is pending; launches are at least a period apart; results
      are applied at most once and in launch order; and a result is lost only
      if its call finished after the poll and before the in-flight check of the
      pass that launched the next one. */
  lemma {:induction false} EveryInterleaving(period: real, evs: seq<Event>)
    requires Runs(Idle(period), evs)
    ensures Inv(After(Idle(period), evs))
    decreases |evs|
  {
    if evs != [] {
      EveryInterleaving(period, evs[..|evs| - 1]);
      var w, ev := After(Idle(period), evs[..|evs| - 1]), evs[|evs| - 1];
      StepOnePending(w, ev);
      StepSpaced(w, ev);
      StepAccounted(w, ev);
      StepWindow(w, ev);
    }
  }

  /** A launch always takes: the second in-flight test never refuses it. */
  lemma {:induction false} LaunchTakes(w: World)
    requires Inv(w) && Enabled(w, Launch)
    ensures
      var after := Step(w, Launch);
      after.current == Some(|w.futures|) && after.futures == w.futures + [Pending] && after.lastStarted == Some(w.now)
  {
  }

  /** And conversely: of a result that finished between the poll and the check,
      the check alone decides. If it finds the next call due and worth making,
      the one step left is the launch that overwrites the result; if not, the
      only steps left lead to the next poll, which applies it. */
  lemma {:induction false} LostIffRelaunched(w: World, signal: bool, next: real)
    requires Inv(w) && w.stage.Checking? && w.current.Some? && !InFlight(w)
    ensures
      var id, checked := w.current.value, Step(w, Check(signal));
      if Due(w) && signal then
        && (forall ev :: Enabled(checked, ev) <==> ev == Launch)
        && WasLost(Step(checked, Launch), id) && id !in Step(checked, Launch).applied
      else
        && (forall ev :: Enabled(checked, ev) <==> ev.Begin?)
        && var begun := Step(checked, Begin(next));
           && (forall ev :: Enabled(begun, ev) <==> ev == Poll)
           && Step(begun, Poll).applied == w.applied + [id] && Step(begun, Poll).lost == w.lost
  {
    var id, checked := w.current.value, Step(w, Check(signal));
    assert forall k :: 0 <= k < |w.futures| ==> !w.futures[k].Pending?;
    if Due(w) && signal {
      var after := Step(checked, Launch);
      assert after.lost == w.lost + [Loss(id, w.futures[id], w.pass)];
      assert after.lost[|w.lost|].id == id;
    }
  }

  /** Such a state is reached, whatever the period. */
  lemma {:induction false} LossHappens(period: real, now: real)
    ensures
      var later := if period > 0.0 then now + period else now;
      var evs := [Begin(now), Poll, Check(true), Launch, Begin(later), Poll, Finish(0), Check(true), Launch];
      Runs(Idle(period), evs) && |After(Idle(period), evs).lost| == 1 && After(Idle(period), evs).applied == []
  {
    var later := if period > 0.0 then now + period else now;
    var w0 := Idle(period);
    var e1: seq<Event> := [Begin(now)];
    var e2 := e1 + [Poll];
    var e3 := e2 + [Check(true)];
    var e4 := e3 + [Launch];
    var e5 := e4 + [Begin(later)];
    var e6 := e5 + [Poll];
    var e7 := e6 + [Finish(0)];
    var e8 := e7 + [Check(true)];
    var e9 := e8 + [Launch];
    Snoc(w0, [], Begin(now));
    Snoc(w0, e1, Poll);
    Snoc(w0, e2, Check(true));
    Snoc(w0, e3, Launch);
    Snoc(w0, e4, Begin(later));
    Snoc(w0, e5, Poll);
    Snoc(w0, e6, Finish(0));
    Snoc(w0, e7, Check(true));
    Snoc(w0, e8, Launch);
    assert [] + [Begin(now)] == e1;
    assert e9 == [Begin(now), Poll, Check(true), Launch, Begin(later), Poll, Finish(0), Check(true), Launch];
  }

  lemma {:induction false} Snoc(w: World, evs: seq<Event>, ev: Event)
    requires Runs(w, evs) && Enabled(After(w, evs), ev)
    ensures Runs(w, evs + [ev]) && After(w, evs + [ev]) == Step(After(w, evs), ev)
  {
    assert (evs + [ev])[..|evs|] == evs;
  }
}
