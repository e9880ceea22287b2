/** The main task of a RabbitMQ worker, statement by statement, while delivery callbacks run
    between its awaits. */
module ShutdownWorkers {
  import opened Wrappers
  import opened Executions
  import opened ShutdownDrain

  /** A move of a callback or of the broker, not of the main task. */
  predicate OfCallback(a: Action) {
    a.Deliver? || a.Enter? || a.Settle? || a.Leave?
  }

  class Loop {
    var state: State

    constructor (state: State)
      ensures this.state == state
    {
      this.state := state;
    }

    method Take(a: Action)
      requires Reachable(state) && Step(state, a).Some?
      modifies this
      ensures Reachable(state) && Step(old(state), a) == Some(state) && Later(old(state), state)
    {
      hide Step;
      hide Reachable;
      ReachableInv(state);
      StepInv(state, a);
      ReachableStep(state, a);
      state := Step(state, a).value;
    }

    /** Callbacks take any number of steps. */
    method Callbacks()
      requires Reachable(state)
      modifies this
      ensures Reachable(state) && Later(old(state), state)
      ensures state.main == old(state.main) && state.stopping == old(state.stopping)
              && state.rounds == old(state.rounds)
    {
      hide Reachable;
      var steps: nat := *;
      while steps > 0
        invariant Reachable(state) && Later(old(state), state)
        invariant state.main == old(state.main) && state.stopping == old(state.stopping)
                  && state.rounds == old(state.rounds)
      {
        var a: Action := *;
        if OfCallback(a) && Step(state, a).Some? {
          Take(a);
        }
        steps := steps - 1;
      }
    }
  }

  class Worker {
    const loop: Loop

    constructor (loop: Loop)
      ensures this.loop == loop
    {
      this.loop := loop;
    }

    /** Consume until the stop event, drain, close the connection, dispose of the engine. `rounds`
        counts the iterations of the drain loop. */
    method RunWorker() returns (rounds: nat)
      requires loop.state == START
      modifies loop
      ensures Reachable(loop.state) && loop.state.main.Finished? && loop.state.inside == {}
      ensures rounds <= 1
    {
      hide Reachable;
      hide Later;
      rounds := 0;
      assert Reachable(START) by { StartIsReachable(); }
      var connects: bool := *;
      loop.Take(Connect(connects));
      if connects {
        loop.Callbacks();
        loop.Take(StopRequested);
        loop.Callbacks();
        loop.Take(CancelReturned);
        while loop.state.inFlight != {}
          invariant Reachable(loop.state) && loop.state.main.Draining?
          invariant rounds == loop.state.rounds <= 1
          decreases 1 - rounds
        {
          AtMostOneRound(loop.state);
          loop.Take(TestInFlight);
          Gather();
          loop.Take(GatherReturned);
          rounds := rounds + 1;
        }
        loop.Take(TestInFlight);
        loop.Take(Close);
      }
      loop.Take(Dispose);
      AtMostOneRound(loop.state);
    }

    /** Wait until every callback of the snapshot has returned or raised. */
    method Gather()
      requires Reachable(loop.state) && loop.state.main.Gathering?
      modifies loop
      ensures Reachable(loop.state) && loop.state.main == old(loop.state.main)
              && loop.state.rounds == old(loop.state.rounds)
      ensures loop.state.main.waited * loop.state.inside == {}
    {
      hide Reachable;
      var waited := loop.state.main.waited;
      while waited * loop.state.inside != {}
        invariant Reachable(loop.state) && loop.state.main == Gathering(waited)
                  && loop.state.rounds == old(loop.state.rounds)
        decreases |waited * loop.state.inside|
      {
        var m :| m in waited * loop.state.inside;
        ghost var before := loop.state.inside;
        AtMostOneRound(loop.state);
        loop.Take(Leave(m));
        AtMostOneRound(loop.state);
        ghost var between := loop.state.inside;
        loop.Callbacks();
        AtMostOneRound(loop.state);
        Smaller(waited, before, between, loop.state.inside, m);
      }
    }
  }

  /** The callback given to the queue, as one task of the event loop. */
  class Callback {
    const loop: Loop
    const message: Message

    constructor (loop: Loop, message: Message)
      ensures this.loop == loop && this.message == message
    {
      this.loop := loop;
      this.message := message;
    }

    /** The main task, the broker and the other callbacks take any number of steps. */
    method Others()
      requires Reachable(loop.state) && message in loop.state.inside
      modifies loop
      ensures Reachable(loop.state) && Later(old(loop.state), loop.state)
      ensures message in loop.state.inside && (message in loop.state.settled <==> message in old(loop.state.settled))
    {
      hide Reachable;
      var steps: nat := *;
      while steps > 0
        invariant Reachable(loop.state) && Later(old(loop.state), loop.state)
        invariant message in loop.state.inside
                  && (message in loop.state.settled <==> message in old(loop.state.settled))
      {
        var a: Action := *;
        if !(OfCallback(a) && a.message == message) && Step(loop.state, a).Some? { loop.Take(a); }
        steps := steps - 1;
      }
    }

    /** Defer during shutdown; otherwise register, run the consumer, and leave. From the check to the
        registration there is no await. The connection is open whenever the consumer settles. */
    method ProcessMessage() returns (deferred: bool, settled: bool)
      requires Reachable(loop.state) && message in loop.state.created
      modifies loop
      ensures Reachable(loop.state) && message !in loop.state.inside && message !in loop.state.inFlight
      ensures deferred == old(loop.state.stopping)
      ensures deferred ==> message in loop.state.deferred && message !in loop.state.settled
                           && loop.state.inside == old(loop.state.inside)
      ensures !deferred ==> message !in loop.state.deferred && (settled <==> message in loop.state.settled)
    {
      hide Reachable;
      hide Later;
      NotYetSettled(loop.state, message);
      deferred := loop.state.stopping;
      loop.Take(Enter(message));
      if deferred { return true, false; }
      Others();
      settled := *;
      if settled {
        InsideIsOpen(loop.state, message);
        loop.Take(ShutdownDrain.Action.Settle(message));
      }
      Others();
      InsideIsOpen(loop.state, message);
      loop.Take(Leave(message));
    }
  }

  /** A callback inside the consumer still has its connection. */
  lemma InsideIsOpen(s: State, m: Message)
    requires Reachable(s) && m in s.inside
    ensures Open(s.main) && m in s.inFlight && m !in s.deferred
  {
    hide Reachable;
    ReachableInv(s);
  }

  lemma NotYetSettled(s: State, m: Message)
    requires Reachable(s) && m in s.created
    ensures m !in s.settled && m !in s.inside && m !in s.deferred && s.inside == s.inFlight
  {
    hide Reachable;
    ReachableInv(s);
  }

  lemma Smaller(waited: set<Message>, before: set<Message>, between: set<Message>, after: set<Message>, m: Message)
    requires m in waited && m in before && between == before - {m} && after <= between
    ensures |waited * after| < |waited * before|
  {
    assert waited * after <= waited * before - {m};
    Fewer(waited * after, waited * before - {m});
  }

  lemma {:induction false} Fewer(a: set<Message>, b: set<Message>)
    requires a <= b
    ensures |a| <= |b|
  {
    if a != {} {
      var m :| m in a;
      Fewer(a - {m}, b - {m});
    }
  }

  lemma StartIsReachable()
    ensures Reachable(START)
  {
    StartReaches(Step, Init, START);
  }

  lemma AtMostOneRound(s: State)
    requires Reachable(s)
    ensures s.rounds <= 1 && s.inside == s.inFlight
    ensures s.main.Draining? && s.rounds == 1 ==> s.inFlight == {}
    ensures s.main.Draining? || s.main.Gathering? || s.main.Closing? ==> s.stopping
    ensures s.main.Disposing? || s.main.Finished? ==> s.inFlight == {}
  {
    hide Reachable;
    ReachableInv(s);
  }
}
