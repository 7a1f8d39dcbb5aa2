/** The scheduler and the asynchronous agent as objects, each call tied to the
    action of the AgentMachine it performs. */
module Agent {
  import opened Basics
  import opened AgentMachine

  class AgentScheduler {
    const period: real
    var lastStarted: Option<real>

    ghost predicate Shows(w: World)
      reads this
    {
      period == w.period && lastStarted == w.lastStarted
    }

    constructor (period: real)
      ensures Shows(Idle(period))
    {
      this.period, lastStarted := period, None;
    }

    method ShouldCall(now: real) returns (due: bool)
      ensures forall w :: Shows(w) && w.now == now ==> due == Due(w)
    {
      if lastStarted.None? {
        return true;
      }
      due := now - lastStarted.value >= period;
    }

    method MarkStarted(now: real)
      modifies this
      ensures lastStarted == Some(now)
    {
      lastStarted := Some(now);
    }
  }

  class AsyncAgent {
    var futures: seq<Future>
    var current: Option<nat>

    ghost predicate Shows(w: World)
      reads this
    {
      futures == w.futures && current == w.current
    }

    predicate Valid()
      reads this
    {
      current.Some? ==> current.value < |futures|
    }

    constructor (period: real)
      ensures Valid() && Shows(Idle(period))
    {
      futures, current := [], None;
    }

    method InFlight() returns (busy: bool)
      requires Valid()
      ensures forall w :: Shows(w) ==> busy == AgentMachine.InFlight(w)
    {
      busy := current.Some? && futures[current.value].Pending?;
    }

    /** Submit a call; nothing happens while one is in flight. */
    method Start(ghost w: World)
      requires Valid() && Shows(w)
      modifies this
      ensures Valid() && Shows(Started(w))
    {
      var busy := InFlight();
      if busy {
        return;
      }
      futures := futures + [Pending];
      current := Some(|futures| - 1);
    }

    /** The finished result, once. */
    method Poll(ghost w: World) returns (result: Option<nat>)
      requires Valid() && Shows(w)
      modifies this
      ensures Valid() && Shows(Polled(w))
      ensures Polled(w).applied == if result.Some? then w.applied + [result.value] else w.applied
    {
      var busy := InFlight();
      if current.None? || busy {
        return None;
      }
      result := current;
      current := None;
    }
  }

  /** The agent part of one pass of the loop, when no call finishes during it:
      drain, then launch if idle, due and there is something to decide on. */
  method Pass(agent: AsyncAgent, scheduler: AgentScheduler, now: real, signal: bool, ghost w: World)
    returns (result: Option<nat>, ghost after: World)
    requires agent.Valid() && agent.Shows(w) && scheduler.Shows(w) && w.stage.Resting?
    modifies agent, scheduler
    ensures agent.Valid() && agent.Shows(after) && scheduler.Shows(after)
    ensures
      var polled := Step(Step(w, Begin(now)), AgentMachine.Poll);
      var checked := Step(polled, Check(signal));
      after == if checked.stage.Launching? then Step(checked, Launch) else checked
    ensures after.applied == if result.Some? then w.applied + [result.value] else w.applied
  {
    after := Step(w, Begin(now));
    result := agent.Poll(after);
    after := Step(after, AgentMachine.Poll);
    var busy := agent.InFlight();
    var due := scheduler.ShouldCall(now);
    after := Step(after, Check(signal));
    if !busy && due && signal {
      scheduler.MarkStarted(now);
      agent.Start(after.(lastStarted := Some(now), starts := after.starts + [now]));
      after := Step(after, Launch);
    }
  }
}
