/** The worker loop, statement by statement, while producers append between any two awaits. Each
    statement that touches Kafka or Redis is a step of the protocol in module `KafkaConsumption`. */
module KafkaWorkers {
  import opened Wrappers
  import opened KafkaEvents
  import opened KafkaConsumption
  import opened KafkaSafety

  /** How many of the handled records belong to `tp`. */
  function Count(done: seq<(TopicPartition, nat)>, tp: TopicPartition): nat {
    if done == [] then 0
    else Count(done[..|done| - 1], tp) + (if done[|done| - 1].0 == tp then 1 else 0)
  }

  lemma CountAppend(done: seq<(TopicPartition, nat)>, d: (TopicPartition, nat), tp: TopicPartition)
    ensures Count(done + [d], tp) == Count(done, tp) + (if d.0 == tp then 1 else 0)
  {
    assert (done + [d])[..|done|] == done;
  }

  /** Each partition's offset moved past exactly its handled records, which were consecutive. */
  ghost predicate MovedPast(s: State, s': State, done: seq<(TopicPartition, nat)>) {
    && (forall tp :: Offset(s'.committed, tp) == Offset(s.committed, tp) + Count(done, tp))
    && forall k :: 0 <= k < |done| ==> done[k].1 == Offset(s.committed, done[k].0) + Count(done[..k], done[k].0)
  }

  lemma MovedPastOne(s: State, t: State, t': State, done: seq<(TopicPartition, nat)>, d: (TopicPartition, nat))
    requires MovedPast(s, t, done) && d.1 == Offset(t.committed, d.0) && t'.committed == t.committed[d.0 := d.1 + 1]
    ensures MovedPast(s, t', done + [d])
  {
    forall tp ensures Offset(t'.committed, tp) == Offset(s.committed, tp) + Count(done + [d], tp) {
      CountAppend(done, d, tp);
      assert Offset(t.committed, tp) == Offset(s.committed, tp) + Count(done, tp);
    }
    forall k | 0 <= k < |done + [d]|
      ensures (done + [d])[k].1 == Offset(s.committed, (done + [d])[k].0) + Count((done + [d])[..k], (done + [d])[k].0)
    {
      assert (done + [d])[..k] == done[..k];
      assert done[..|done|] == done;
    }
  }

  lemma {:induction false} CountGrows(done: seq<(TopicPartition, nat)>, k: nat)
    requires k < |done|
    ensures Count(done[..k], done[k].0) < Count(done, done[k].0)
    decreases |done|
  {
    var front := done[..|done| - 1];
    if k < |front| {
      CountGrows(front, k);
      assert front[..k] == done[..k];
    }
  }

  /** The handled records have the fields their topics ask for. */
  ghost predicate AllWellFormed(s: State, done: seq<(TopicPartition, nat)>) {
    forall k :: 0 <= k < |done| ==>
                  done[k].1 < |LogOf(s, done[k].0)| && WellFormed(done[k].0.topic, LogOf(s, done[k].0)[done[k].1])
  }

  lemma HandledAreWellFormed(s: State, s': State, done: seq<(TopicPartition, nat)>)
    requires Reachable(s') && MovedPast(s, s', done)
    ensures AllWellFormed(s', done)
  {
    hide Reachable;
    hide WellFormed;
    forall k | 0 <= k < |done|
      ensures done[k].1 < |LogOf(s', done[k].0)| && WellFormed(done[k].0.topic, LogOf(s', done[k].0)[done[k].1])
    {
      CountGrows(done, k);
      assert Offset(s'.committed, done[k].0) == Offset(s.committed, done[k].0) + Count(done, done[k].0);
      CommittedMeansHandled(s', done[k].0, done[k].1);
    }
  }

  lemma NothingHandled()
    ensures forall s :: AllWellFormed(s, [])
  {
  }

  lemma MovedPastFront(s: State, s': State, done: seq<(TopicPartition, nat)>, d: (TopicPartition, nat))
    requires Reachable(s') && MovedPast(s, s', done + [d])
    ensures AllWellFormed(s', done)
  {
    hide Reachable;
    hide WellFormed;
    HandledAreWellFormed(s, s', done + [d]);
    assert forall k :: 0 <= k < |done| ==> (done + [d])[k] == done[k];
  }

  lemma NextAfter(s: State, t: State, done: seq<(TopicPartition, nat)>, d: (TopicPartition, nat))
    requires MovedPast(s, t, done) && d.1 == Offset(t.committed, d.0)
    ensures d.1 == Offset(s.committed, d.0) + Count(done, d.0)
  {
  }

  lemma NothingMoved(s: State, s': State)
    requires s'.committed == s.committed
    ensures MovedPast(s, s', [])
  {
  }

  class World {
    var state: State

    constructor (state: State)
      ensures this.state == state
    {
      this.state := state;
    }

    /** The state is reachable, and later than `start`. */
    ghost predicate Since(start: State)
      reads this
    {
      Reachable(state) && Later(start, state)
    }

    /** Producers append any number of records. */
    method Others(ghost start: State)
      requires Since(start)
      modifies this
      ensures Since(start) && state == old(state).(log := state.log)
      ensures forall tp :: LogOf(old(state), tp) <= LogOf(state, tp)
    {
      hide Reachable;
      hide Later;
      var steps: nat := *;
      while steps > 0
        invariant Since(start) && state == old(state).(log := state.log)
        invariant forall tp :: LogOf(old(state), tp) <= LogOf(state, tp)
      {
        var tp: TopicPartition := *;
        var r: Record := *;
        ghost var before := state;
        Take(Append(tp, r), start);
        forall p ensures LogOf(old(state), p) <= LogOf(state, p) {
          assert LogOf(old(state), p) <= LogOf(before, p);
        }
        steps := steps - 1;
      }
    }

    /** One step of the protocol. */
    method Take(a: Action, ghost start: State)
      requires Since(start) && Step(state, a).Some?
      modifies this
      ensures Since(start) && Step(old(state), a) == Some(state)
    {
      hide Reachable;
      hide Inv;
      hide Step;
      hide Later;
      ReachableInv(state);
      StepInv(state, a);
      ReachableStep(state, a);
      LaterTransitive(start, state, Step(state, a).value);
      state := Step(state, a).value;
    }
  }

  /** The record in the worker's hands is the next uncommitted one. */
  lemma InHand(s: State)
    requires Reachable(s) && s.worker.Up? && !s.worker.phase.Polling?
    ensures s.worker.phase.offset == Offset(s.committed, s.worker.phase.source)
    ensures s.worker.phase.offset < |LogOf(s, s.worker.phase.source)|
  {
    hide Reachable;
    hide CommittedOk;
    hide PublicationsOk;
    ReachableInv(s);
  }

  class KafkaWorker {
    const world: World

    constructor (world: World)
      ensures this.world == world
    {
      this.world := world;
    }

    ghost predicate At(phase: Phase, start: State)
      reads world
    {
      world.Since(start) && world.state.worker.Up? && world.state.worker.phase == phase
    }

    /** A failure: the worker is down, and the offset has not moved unless only the reply to its
        commit was lost. */
    ghost predicate Failed(was: map<TopicPartition, nat>, d: (TopicPartition, nat), start: State)
      reads world
    {
      && world.Since(start) && world.state.worker.Down?
      && d.1 < |LogOf(world.state, d.0)|
      && (world.state.committed == was || world.state.committed == was[d.0 := d.1 + 1])
    }

    /** Consume until the stop event is set, which is seen after `rounds` polls. A normal return has
        committed every record it handled, in order. A failure on a record names it in `last`: it is the
        next record of its partition after those handled, and it is uncommitted unless only the reply to
        its commit was lost. Without `last`, the worker did not even start. */
    method RunWorker(rounds: nat)
      returns (failed: bool, done: seq<(TopicPartition, nat)>, last: Option<(TopicPartition, nat)>)
      requires Reachable(world.state) && world.state.worker.Down?
      modifies world
      ensures world.Since(old(world.state)) && world.state.worker.Down?
      ensures AllWellFormed(world.state, done)
      ensures old(world.state.group) == Metrics ==> world.state.redis == old(world.state.redis)
      ensures !failed ==> last == None && MovedPast(old(world.state), world.state, done)
      ensures failed && last == None ==> done == [] && MovedPast(old(world.state), world.state, done)
      ensures failed && last != None ==>
                && last.value.1 < |LogOf(world.state, last.value.0)|
                && last.value.1 == Offset(old(world.state).committed, last.value.0) + Count(done, last.value.0)
                && (MovedPast(old(world.state), world.state, done)
                    || MovedPast(old(world.state), world.state, done + [last.value]))
    {
      hide Reachable;
      hide Later;
      hide MovedPast;
      hide AllWellFormed;
      NothingHandled();
      failed, done, last := false, [], None;
      ghost var start := world.state;
      LaterReflexive(start);
      world.Others(start);
      NothingMoved(start, world.state);
      var starts: bool := *;
      if !starts { return true, [], None; }
      world.Take(Start, start);
      NothingMoved(start, world.state);
      var round := 0;
      while round < rounds
        invariant At(Polling, start) && MovedPast(start, world.state, done) && last == None && !failed
        invariant start.group == Metrics ==> world.state.redis == start.redis
      {
        ghost var before := world.state;
        var batch := GetMany(start);
        if batch.Some? {
          var message := batch.value;
          InHand(world.state);
          ghost var was := world.state;
          SameOffsets(start, before, was, done);
          NextAfter(start, was, done, message);
          SameGroup(start, was);
          var ok := Process(message.0, message.1, start);
          if !ok {
            if world.state.committed == was.committed {
              SameOffsets(start, was, world.state, done);
              HandledAreWellFormed(start, world.state, done);
            } else {
              MovedPastOne(start, was, world.state, done, message);
              MovedPastFront(start, world.state, done, message);
            }
            return true, done, Some(message);
          }
          MovedPastOne(start, was, world.state, done, message);
          done := done + [message];
        } else {
          SameOffsets(start, before, world.state, done);
        }
        round := round + 1;
      }
      ghost var before := world.state;
      world.Take(Stop, start);
      SameOffsets(start, before, world.state, done);
      HandledAreWellFormed(start, world.state, done);
    }

    /** At most one message, or none before the timeout. */
    method GetMany(ghost start: State) returns (batch: Option<(TopicPartition, nat)>)
      requires At(Polling, start)
      modifies world
      ensures world.state.committed == old(world.state.committed) && world.state.redis == old(world.state.redis)
      ensures batch.None? ==> At(Polling, start)
      ensures batch.Some? ==> At(Handling(batch.value.0, batch.value.1), start)
    {
      hide Reachable;
      hide Later;
      world.Others(start);
      var tp: TopicPartition := *;
      var offset := Offset(world.state.worker.position, tp);
      var quiet: bool := *;
      if quiet || offset >= |LogOf(world.state, tp)| { return None; }
      world.Take(Poll(tp), start);
      return Some((tp, offset));
    }

    /** Handle one message and commit its next offset; an exception ends the worker. */
    method Process(tp: TopicPartition, offset: nat, ghost start: State) returns (ok: bool)
      requires At(Handling(tp, offset), start)
      modifies world
      ensures ok ==> At(Polling, start) && world.state.committed == old(world.state.committed)[tp := offset + 1]
      ensures !ok ==> Failed(old(world.state.committed), (tp, offset), start)
      ensures ok ==> offset < |LogOf(old(world.state), tp)| && WellFormed(tp.topic, LogOf(old(world.state), tp)[offset])
      // The event goes to Redis, in the notifications group only.
      ensures old(world.state.group) != Notifications || tp.topic != AnalysisCompleted ==>
                world.state.redis == old(world.state.redis)
      ensures ok && old(world.state.group) == Notifications && tp.topic == AnalysisCompleted ==>
                && |world.state.redis| == |old(world.state.redis)| + 1
                && world.state.redis[..|old(world.state.redis)|] == old(world.state.redis)
                && var p := world.state.redis[|old(world.state.redis)|];
                   && p.source == tp && p.offset == offset
                   && Carries(LogOf(old(world.state), tp)[offset], p.event)
    {
      hide Reachable;
      hide Later;
      hide DecodeTicketCreated;
      hide DecodeAnalysisCompleted;
      hide Carries;
      InHand(world.state);
      var message := LogOf(world.state, tp)[offset];
      if tp.topic == TicketCreated {
        ok := LogTicketCreated(tp, offset, message, start);
      } else if tp.topic == AnalysisCompleted {
        if world.state.group == Metrics {
          ok := LogAnalysisCompleted(tp, offset, message, start);
        } else {
          var event := DecodeAnalysisCompleted(message);
          var outcome: CommitOutcome := *;
          world.Take(Handle(outcome), start);
          if event.Err? || !outcome.Committed? { return false; }
          Decoded(message, event.value);
          ok := CommitOffset(tp, offset, start);
        }
      } else {
        world.Take(Handle(Refused), start);
        ok := false;
      }
    }

    method LogTicketCreated(tp: TopicPartition, offset: nat, message: Record, ghost start: State) returns (ok: bool)
      requires At(Handling(tp, offset), start) && tp.topic == TicketCreated
      requires offset < |LogOf(world.state, tp)| && LogOf(world.state, tp)[offset] == message
      modifies world
      ensures ok ==> At(Polling, start) && world.state.committed == old(world.state.committed)[tp := offset + 1]
      ensures !ok ==> Failed(old(world.state.committed), (tp, offset), start)
      ensures ok ==> WellFormed(TicketCreated, message)
      ensures world.state.redis == old(world.state.redis)
    {
      hide Reachable;
      hide Later;
      hide DecodeTicketCreated;
      var event := DecodeTicketCreated(message);
      world.Take(Handle(Committed), start);
      if event.Err? { return false; }
      ok := CommitOffset(tp, offset, start);
    }

    method LogAnalysisCompleted(tp: TopicPartition, offset: nat, message: Record, ghost start: State) returns (ok: bool)
      requires At(Handling(tp, offset), start) && tp.topic == AnalysisCompleted && world.state.group == Metrics
      requires offset < |LogOf(world.state, tp)| && LogOf(world.state, tp)[offset] == message
      modifies world
      ensures ok ==> At(Polling, start) && world.state.committed == old(world.state.committed)[tp := offset + 1]
      ensures !ok ==> Failed(old(world.state.committed), (tp, offset), start)
      ensures ok ==> WellFormed(AnalysisCompleted, message)
      ensures world.state.redis == old(world.state.redis)
    {
      hide Reachable;
      hide Later;
      hide DecodeAnalysisCompleted;
      var event := DecodeAnalysisCompleted(message);
      world.Take(Handle(Committed), start);
      if event.Err? { return false; }
      ok := CommitOffset(tp, offset, start);
    }

    /** Commit the next offset of one partition. */
    method CommitOffset(tp: TopicPartition, offset: nat, ghost start: State) returns (ok: bool)
      requires At(Committing(tp, offset), start)
      modifies world
      ensures ok ==> At(Polling, start) && world.state.committed == old(world.state.committed)[tp := offset + 1]
      ensures !ok ==> Failed(old(world.state.committed), (tp, offset), start)
      ensures world.state.redis == old(world.state.redis)
    {
      hide Reachable;
      hide Later;
      world.Others(start);
      InHand(world.state);
      var outcome: CommitOutcome := *;
      world.Take(Commit(outcome), start);
      ok := outcome.Committed?;
    }
  }

  lemma SameGroup(s: State, s': State)
    requires Later(s, s')
    ensures s'.group == s.group
  {
  }

  lemma SameOffsets(s: State, t: State, t': State, done: seq<(TopicPartition, nat)>)
    requires MovedPast(s, t, done) && t'.committed == t.committed
    ensures MovedPast(s, t', done)
  {
  }
}
