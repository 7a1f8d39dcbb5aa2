/** The double-checked metadata cache, shared by any number of threads. Reading
    the clock, looking at the cache, taking the lock, fetching, storing and
    releasing are separate atomic actions, interleaved freely. */
module MetaCache {
  import opened Basics

  /** A payload and the clock reading it was stored at. */
  datatype Cached = Cached(at: real, payload: int)

  /** How a call ends: with its own fetch, with a cached payload (and the clock
      reading and stamp that were compared), or with the fetch's exception. */
  datatype Ending = Own(payload: int) | Hit(payload: int, now: real, stamp: real) | Failure

  /** Where a thread is in a call. */
  datatype Place =
    | Away
    | Timed(now: real)
    | Wanting
    | Holding
    | Retimed(now: real)
    | Posting
    | Fetched(payload: int)
    | Stamped(payload: int, at: real)
    | Leaving(ending: Ending)
    | Done(ending: Ending)

  /** The shared state, and the history the properties speak about: what was
      stored, every payload that was fetched, and what each thread fetched
      itself in its current call. */
  datatype World = World(
    ttl: real,
    clock: real,
    cache: Option<Cached>,
    owner: Option<nat>,
    threads: seq<Place>,
    stored: seq<Cached>,
    answers: seq<int>,
    own: seq<Option<int>>)

  datatype Event =
    | Pass(later: real)
    | Start(t: nat)
    | Look(t: nat)
    | Acquire(t: nat)
    | Retime(t: nat)
    | LookAgain(t: nat)
    | Answer(t: nat, payload: Option<int>)
    | ReadStamp(t: nat)
    | Save(t: nat)
    | Release(t: nat)
    | Return(t: nat)

  predicate Warm(ttl: real, cache: Option<Cached>, now: real) {
    cache.Some? && ttl > 0.0 && now - cache.value.at < ttl
  }

  predicate Enabled(w: World, ev: Event) {
    match ev
    case Pass(later) => later >= w.clock
    case Start(t) => t < |w.threads| && w.threads[t].Away?
    case Look(t) => t < |w.threads| && w.threads[t].Timed?
    case Acquire(t) => t < |w.threads| && w.threads[t].Wanting? && w.owner.None?
    case Retime(t) => t < |w.threads| && w.threads[t].Holding?
    case LookAgain(t) => t < |w.threads| && w.threads[t].Retimed?
    case Answer(t, payload) => t < |w.threads| && w.threads[t].Posting?
    case ReadStamp(t) => t < |w.threads| && w.threads[t].Fetched?
    case Save(t) => t < |w.threads| && w.threads[t].Stamped?
    case Release(t) => t < |w.threads| && w.threads[t].Leaving?
    case Return(t) => t < |w.threads| && w.threads[t].Done?
  }

  function Move(w: World, t: nat, p: Place): World
    requires t < |w.threads|
  {
    w.(threads := w.threads[t := p])
  }

  function Record(w: World, t: nat, fetched: Option<int>): World {
    if t < |w.own| then w.(own := w.own[t := fetched]) else w
  }

  function Step(w: World, ev: Event): World
    requires Enabled(w, ev)
  {
    match ev
    case Pass(later) => w.(clock := later)
    case Start(t) => Record(Move(w, t, Timed(w.clock)), t, None)
    case Look(t) =>
      var now := w.threads[t].now;
      if Warm(w.ttl, w.cache, now) then Move(w, t, Done(Hit(w.cache.value.payload, now, w.cache.value.at)))
      else Move(w, t, Wanting)
    case Acquire(t) => Move(w, t, Holding).(owner := Some(t))
    case Retime(t) => Move(w, t, Retimed(w.clock))
    case LookAgain(t) =>
      var now := w.threads[t].now;
      if Warm(w.ttl, w.cache, now) then Move(w, t, Leaving(Hit(w.cache.value.payload, now, w.cache.value.at)))
      else Move(w, t, Posting)
    case Answer(t, payload) =>
      if payload.Some? then
        Record(Move(w, t, Fetched(payload.value)), t, payload).(answers := w.answers + [payload.value])
      else Move(w, t, Leaving(Failure))
    case ReadStamp(t) => Move(w, t, Stamped(w.threads[t].payload, w.clock))
    case Save(t) =>
      var c := Cached(w.threads[t].at, w.threads[t].payload);
      Move(w, t, Leaving(Ending.Own(c.payload))).(cache := Some(c), stored := w.stored + [c])
    case Release(t) => Move(w, t, Done(w.threads[t].ending)).(owner := None)
    case Return(t) => Move(w, t, Away)
  }

  predicate Runs(w: World, evs: seq<Event>)
    decreases |evs|, 0
  {
    evs == [] || (Runs(w, evs[..|evs| - 1]) && Enabled(After(w, evs[..|evs| - 1]), evs[|evs| - 1]))
  }

  function After(w: World, evs: seq<Event>): World
    requires Runs(w, evs)
    decreases |evs|, 1
  {
    if evs == [] then w else Step(After(w, evs[..|evs| - 1]), evs[|evs| - 1])
  }

  function Cold(ttl: real, clock: real, n: nat): World {
    World(ttl, clock, None, None, seq(n, i => Away), [], [], seq(n, i => None))
  }

  // ------------------------------------------------------------------ invariants

  /** Inside the locked region. */
  predicate Inside(p: Place) {
    p.Holding? || p.Retimed? || p.Posting? || p.Fetched? || p.Stamped? || p.Leaving?
  }

  /** A hit was stored, and younger than the TTL at the call's own reading. */
  predicate Justified(w: World, e: Ending) {
    e.Hit? ==> Cached(e.stamp, e.payload) in w.stored && w.ttl > 0.0 && e.now - e.stamp < w.ttl
  }

  predicate Excluded(w: World) {
    forall t :: 0 <= t < |w.threads| && Inside(w.threads[t]) ==> w.owner == Some(t)
  }

  predicate Ordered(w: World) {
    && (forall i, j :: 0 <= i < j < |w.stored| ==> w.stored[i].at <= w.stored[j].at)
    && (if w.cache.Some? then w.stored != [] && w.cache.value == w.stored[|w.stored| - 1] else w.stored == [])
    && (forall i :: 0 <= i < |w.stored| ==> w.stored[i].at <= w.clock)
    && forall t :: 0 <= t < |w.threads| && w.threads[t].Stamped? ==>
         w.threads[t].at <= w.clock && (w.cache.Some? ==> w.cache.value.at <= w.threads[t].at)
  }

  predicate Explained(w: World) {
    forall t :: 0 <= t < |w.threads| ==>
      (w.threads[t].Leaving? || w.threads[t].Done? ==> Justified(w, w.threads[t].ending))
  }

  /** What a thread returns as its own it has fetched itself, in this very call;
      with any other ending it has fetched nothing. */
  predicate Honest(w: World) {
    && |w.own| == |w.threads|
    && (forall t :: 0 <= t < |w.threads| ==> Traced(w.threads[t], w.own[t]))
    && (forall t :: 0 <= t < |w.own| && w.own[t].Some? ==> w.own[t].value in w.answers)
    && forall i :: 0 <= i < |w.stored| ==> w.stored[i].payload in w.answers
  }

  predicate Traced(p: Place, own: Option<int>) {
    match p
    case Away => true
    case Fetched(payload) => own == Some(payload)
    case Stamped(payload, _) => own == Some(payload)
    case Leaving(ending) => own == if ending.Own? then Some(ending.payload) else None
    case Done(ending) => own == if ending.Own? then Some(ending.payload) else None
    case _ => own == None
  }

  predicate Inv(w: World) {
    Excluded(w) && Ordered(w) && Explained(w) && Honest(w)
  }

  lemma {:induction false} StepExcluded(w: World, ev: Event)
    requires Excluded(w) && Enabled(w, ev)
    ensures Excluded(Step(w, ev))
  {
  }

  lemma {:induction false} StepOrdered(w: World, ev: Event)
    requires Excluded(w) && Ordered(w) && Enabled(w, ev)
    ensures Ordered(Step(w, ev))
    ensures w.stored <= Step(w, ev).stored
  {
  }

  lemma {:induction false} StepExplained(w: World, ev: Event)
    requires Ordered(w) && Explained(w) && Enabled(w, ev)
    ensures Explained(Step(w, ev))
  {
    assert forall c :: c in w.stored ==> c in Step(w, ev).stored;
  }

  lemma {:induction false} StepHonest(w: World, ev: Event)
    requires Honest(w) && Enabled(w, ev)
    ensures Honest(Step(w, ev))
  {
    hide Warm;
    var after := Step(w, ev);
    assert forall x :: x in w.answers ==> x in after.answers;
    if ev.Answer? && ev.payload.Some? {
      assert after.answers[|w.answers|] == ev.payload.value;
    }
  }

  /** Main result: in every interleaving of any number of threads the lock
      admits one thread at a time, stamps never go backwards, every payload
      returned from the cache was stored less than the TTL before the caller's
      own clock reading, and every other payload is the one the caller fetched
      itself in that call. */
  lemma {:induction false} EveryInterleaving(ttl: real, clock: real, n: nat, evs: seq<Event>)
    requires Runs(Cold(ttl, clock, n), evs)
    ensures Inv(After(Cold(ttl, clock, n), evs))
    decreases |evs|
  {
    if evs != [] {
      EveryInterleaving(ttl, clock, n, evs[..|evs| - 1]);
      var w, ev := After(Cold(ttl, clock, n), evs[..|evs| - 1]), evs[|evs| - 1];
      StepExcluded(w, ev);
      StepOrdered(w, ev);
      StepExplained(w, ev);
      StepHonest(w, ev);
      hide Step, Excluded, Ordered, Explained, Honest;
    }
  }

  /** A look at the cache, the first or the second, serves it exactly when it
      holds something younger than a positive TTL at the caller's reading. */
  lemma {:induction false} LookHitsIff(w: World, t: nat)
    requires t < |w.threads| && (w.threads[t].Timed? || w.threads[t].Retimed?)
    ensures
      var now := w.threads[t].now;
      var after := if w.threads[t].Timed? then Step(w, Look(t)).threads[t] else Step(w, LookAgain(t)).threads[t];
      && ((after.Done? || after.Leaving?)
          <==> w.cache.Some? && w.ttl > 0.0 && w.cache.value.at > now - w.ttl)
      && (after.Done? || after.Leaving? ==> after.ending == Hit(w.cache.value.payload, now, w.cache.value.at))
      && (!after.Done? && !after.Leaving? ==> after == if w.threads[t].Timed? then Wanting else Posting)
  {
  }

  /** A returned payload, wherever it came from, was fetched by some thread. */
  lemma {:induction false} ReturnedWasFetched(w: World, t: nat)
    requires Inv(w) && t < |w.threads| && w.threads[t].Done? && !w.threads[t].ending.Failure?
    ensures w.threads[t].ending.payload in w.answers
  {
    assert Traced(w.threads[t], w.own[t]);
    if w.threads[t].ending.Hit? {
      assert Justified(w, w.threads[t].ending);
      hide Justified;
    }
  }

  /** At most one fetch is in flight. */
  lemma {:induction false} OnePost(w: World, s: nat, t: nat)
    requires Inv(w) && s < |w.threads| && t < |w.threads|
    requires w.threads[s].Posting? && w.threads[t].Posting?
    ensures s == t
  {
    assert Inside(w.threads[s]) && Inside(w.threads[t]);
  }

  /** Without a TTL nothing is ever served from the cache. */
  lemma {:induction false} NoTtlNoHits(w: World, t: nat)
    requires Inv(w) && w.ttl <= 0.0 && t < |w.threads| && w.threads[t].Done?
    ensures !w.threads[t].ending.Hit?
  {
  }

  // ------------------------------------------------------------------ cold burst

  /** A second look that falls within the TTL of what is stored. */
  predicate Timely(w: World, ev: Event) {
    ev.LookAgain? && ev.t < |w.threads| && w.threads[ev.t].Retimed? && w.cache.Some? ==>
      Warm(w.ttl, w.cache, w.threads[ev.t].now)
  }

  predicate AllTimely(w: World, evs: seq<Event>)
    requires Runs(w, evs)
    decreases |evs|
  {
    evs == [] || (AllTimely(w, evs[..|evs| - 1]) && Timely(After(w, evs[..|evs| - 1]), evs[|evs| - 1]))
  }

  predicate Landing(p: Place) {
    p.Fetched? || p.Stamped?
  }

  /** The one successful answer so far is stored, or about to be. */
  predicate Single(w: World) {
    && (w.cache.Some? ==>
          |w.answers| == 1
          && forall t :: 0 <= t < |w.threads| ==> !w.threads[t].Posting? && !Landing(w.threads[t]))
    && (w.cache.None? ==> |w.answers| == (if exists t :: 0 <= t < |w.threads| && Landing(w.threads[t]) then 1 else 0))
    && (forall t :: 0 <= t < |w.threads| && (w.threads[t].Leaving? || w.threads[t].Done?) ==>
          w.threads[t].ending.Failure? || w.cache.Some?)
  }

  lemma {:induction false} StepSingle(w: World, ev: Event)
    requires Inv(w) && Single(w) && Enabled(w, ev) && Timely(w, ev)
    ensures Single(Step(w, ev))
  {
    hide Ordered, Explained, Honest;
    var after := Step(w, ev);
    if !ev.Pass? {
      var t := ev.t;
      assert forall s :: 0 <= s < |w.threads| && s != t ==> after.threads[s] == w.threads[s];
      assert Inside(w.threads[t]) ==> forall s :: 0 <= s < |w.threads| && s != t ==> !Inside(w.threads[s]);
      if exists s :: 0 <= s < |w.threads| && Landing(w.threads[s]) {
        var s :| 0 <= s < |w.threads| && Landing(w.threads[s]);
        assert Inside(w.threads[s]);
        if s != t {
          assert Landing(after.threads[s]);
        } else if ev.ReadStamp? {
          assert Landing(after.threads[t]);
        }
      } else if ev.Answer? && ev.payload.Some? {
        assert Landing(after.threads[t]);
      }
    }
  }

  /** Main result on a cold burst: when every second look falls within the TTL
      of the stored payload, however many threads call, at most one fetch
      succeeds, and exactly one once any call has returned a payload. */
  lemma {:induction false} ColdBurst(ttl: real, clock: real, n: nat, evs: seq<Event>)
    requires Runs(Cold(ttl, clock, n), evs) && AllTimely(Cold(ttl, clock, n), evs)
    ensures
      var w := After(Cold(ttl, clock, n), evs);
      && Single(w) && |w.answers| <= 1
      && ((exists t :: 0 <= t < |w.threads| && w.threads[t].Done? && !w.threads[t].ending.Failure?) ==>
            |w.answers| == 1)
    decreases |evs|
  {
    if evs != [] {
      var before := evs[..|evs| - 1];
      ColdBurst(ttl, clock, n, before);
      EveryInterleaving(ttl, clock, n, before);
      StepSingle(After(Cold(ttl, clock, n), before), evs[|evs| - 1]);
    }
  }
}
