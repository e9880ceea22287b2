/** The consumer and handler code of ticket analysis, statement by statement, while everybody else
    moves between any two awaits. Each statement that touches the database, Kafka or the broker is
    a step of the protocol in module `TicketAnalysis`. */
module TicketConsumers {
  import opened Wrappers
  import opened Failures
  import opened Brokers
  import opened TicketAnalysis
  import opened TicketAnalysisSafety

  /** An action that is not a move of worker `w`. Its connection may still be lost. */
  predicate NotBy(a: Action, w: WorkerId) {
    match a
    case Create(_) => true
    case Publish(_, _) => true
    case Disconnect(_) => true
    case Deliver(v, _) => v != w
    case Act(v, _) => v != w
    case Settle(v, _) => v != w
    case Crash(v) => v != w
  }

  lemma TaskUntouched(s: State, a: Action, w: WorkerId)
    requires NotBy(a, w) && Step(s, a).Some? && w in s.tasks
    ensures w in Step(s, a).value.tasks && Step(s, a).value.tasks[w] == s.tasks[w]
  {
    hide TaskStep;
    hide CanDeliver;
  }

  class World {
    var state: State

    constructor (state: State)
      ensures this.state == state
    {
      this.state := state;
    }

    /** Worker `w` stands at `task`, in a reachable state. */
    ghost predicate At(w: WorkerId, task: Task)
      reads this
    {
      Reachable(state) && w in state.tasks && state.tasks[w] == task && task.tag in state.broker.bodies
    }

    /** Any number of steps of everybody else. */
    method Others(w: WorkerId, ghost task: Task)
      requires At(w, task)
      modifies this
      ensures At(w, task) && Later(old(state), state)
    {
      hide Reachable;
      hide Step;
      hide Inv;
      LaterReflexive(state);
      var steps: nat := *;
      while steps > 0
        invariant At(w, task) && Later(old(state), state)
      {
        var a: Action := *;
        var next := Step(state, a);
        if NotBy(a, w) && next.Some? {
          ReachableInv(state);
          StepInv(state, a);
          ReachableStep(state, a);
          TaskUntouched(state, a, w);
          LaterTransitive(old(state), state, next.value);
          state := next.value;
        }
        steps := steps - 1;
      }
    }

    /** The await of worker `w` ends with effect `e`. */
    method Await(w: WorkerId, e: Effect, ghost task: Task)
      requires At(w, task) && state.broker.bodies[task.tag].Job?
      requires TaskStep(task, state.broker.bodies[task.tag].subject, state.store, e).Some?
      modifies this
      ensures Step(old(state), Act(w, e)) == Some(state)
      ensures At(w, old(TaskStep(task, state.broker.bodies[task.tag].subject, state.store, e).value.0))
    {
      hide Reachable;
      hide TaskStep;
      ReachableInv(state);
      TaskOfInv(state, w);
      StoreOfInv(state);
      TaskStepKeeps(task, state.broker.bodies[task.tag].subject, state.store, e);
      ReachableStep(state, Act(w, e));
      state := Step(state, Act(w, e)).value;
    }

    /** The settlement of worker `w`, which the broker may never see. */
    method Settle(w: WorkerId, seen: bool, ghost task: Task)
      requires At(w, task) && task.phase.Settling?
      modifies this
      ensures Step(old(state), Action.Settle(w, seen)) == Some(state)
      ensures At(w, task.(phase := Done))
    {
      hide Reachable;
      hide ActStep;
      ReachableStep(state, Action.Settle(w, seen));
      state := Step(state, Action.Settle(w, seen)).value;
    }
  }

  lemma StoreOfInv(s: State)
    requires Inv(s)
    ensures StoreOk(s.store)
  {
  }

  /** Only well-formed deliveries get past decoding, and their tasks are in order. */
  lemma TaskOfReachable(s: State, w: WorkerId)
    requires Reachable(s) && w in s.tasks && Active(s.tasks[w])
    ensures s.tasks[w].tag in s.broker.bodies && s.broker.bodies[s.tasks[w].tag].Job?
    ensures TaskOk(s.tasks[w], s.broker.bodies[s.tasks[w].tag].subject, s.store)
    ensures StoreOk(s.store)
  {
    hide TaskOk;
    hide Reachable;
    ReachableInv(s);
    assert TaskFits(s, s.tasks[w]);
  }

  lemma AckIsAnnounced(s: State, w: WorkerId)
    requires Reachable(s) && w in s.tasks && s.tasks[w].phase == Settling(Ack)
    ensures Announced(s, s.tasks[w].tag)
  {
    hide Reachable;
    hide Announced;
    ReachableInv(s);
    assert TaskFits(s, s.tasks[w]);
    SettlingFits(s, s.tasks[w]);
  }

  class TicketAnalysisConsumer {
    const world: World
    const id: WorkerId

    constructor (world: World, id: WorkerId)
      ensures this.world == world && this.id == id
    {
      this.world := world;
      this.id := id;
    }

    /** Return the stored analysis of the ticket, or analyze once and store the result. */
    method Handle(ghost task: Task, tag: Tag) returns (found: bool, result: Result<Event, Failure>)
      requires world.At(id, task) && task.tag == tag && task.phase.Loading?
      modifies world
      ensures !found ==> world.At(id, task.(phase := Settling(Reject), failure := None))
      ensures found && result.Err? ==> world.At(id, OnFailure(task, result.error))
      ensures found && result.Ok? ==> world.At(id, Completed(task, result.value))
    {
      hide Reachable;
      hide IsRetryableForTickets;
      hide TaskOk;
      hide StoreOk;
      found := true;
      result := Err(OtherFailure(""));
      var error: Option<Failure> := *;

      world.Others(id, task);
      TaskOfReachable(world.state, id);
      var ticket := world.state.broker.bodies[tag].subject;
      var present := ticket in world.state.store.tickets;
      world.Await(id, Query(error, None), task);
      if error.Some? { return true, Err(error.value); }
      if !present { return false, result; }

      ghost var finding := task.(phase := Finding);
      world.Others(id, finding);
      TaskOfReachable(world.state, id);
      var failing: bool := *;
      if failing {
        var f: Failure := *;
        world.Await(id, Query(Some(f), None), finding);
        return true, Err(f);
      }
      var existing := FindLatest(world.state.store.records, ticket);
      world.Await(id, Query(None, existing), finding);
      if existing.Some? {
        return true, Ok(Event(ticket, existing.value));
      }

      result := Create(task, task.(phase := Analyzing), tag);
    }

    /** Ask the language model, insert the row and commit it. */
    method Create(ghost task: Task, ghost analyzing: Task, tag: Tag) returns (result: Result<Event, Failure>)
      requires world.At(id, analyzing) && analyzing == task.(phase := Analyzing) && task.tag == tag
      modifies world
      ensures result.Err? ==> world.At(id, OnFailure(task, result.error))
      ensures result.Ok? ==> world.At(id, Completed(task, result.value))
    {
      hide Reachable;
      hide IsRetryableForTickets;
      hide TaskOk;
      hide StoreOk;
      hide Inv;
      world.Others(id, analyzing);
      TaskOfReachable(world.state, id);
      var ticket := world.state.broker.bodies[tag].subject;
      var failing: bool := *;
      if failing {
        var f: Failure := *;
        world.Await(id, Raise(f), analyzing);
        return Err(f);
      }
      var created: int := *;
      var analysis: AnalysisId := *;
      if analysis in world.state.store.issued {
        // A colliding identifier: the insert fails.
        var f: Failure := *;
        world.Await(id, Raise(f), analyzing);
        return Err(f);
      }
      world.Await(id, Answer(analysis, created), analyzing);

      ghost var committing := task.(phase := Committing(analysis, Record(ticket, created)));
      world.Others(id, committing);
      TaskOfReachable(world.state, id);
      var outcome: CommitOutcome := *;
      var failure: Failure := *;
      if analysis in world.state.store.records {
        outcome := Refused;  // the primary key
      }
      world.Await(id, Write(outcome, failure), committing);
      result := if outcome.Committed? then Ok(Event(ticket, analysis)) else Err(failure);
    }

    /** Analyze, publish the completion, then settle the delivery exactly once. The ACK comes only
        after the event is in the topic; three failed publishes put the delivery back. */
    method ProcessMessage(ghost task: Task, tag: Tag, malformed: bool)
      returns (attempts: nat, errors: seq<Failure>, publishes: nat, settlements: seq<Verdict>)
      requires world.At(id, task)
      requires task == Task(tag, 1, if malformed then Settling(Reject) else Loading, None, None)
      modifies world
      ensures Reachable(world.state) && id in world.state.tasks && world.state.tasks[id].phase == Done
      ensures attempts <= 3 && (attempts == 0 <==> malformed) && |errors| <= attempts <= |errors| + 1
      ensures forall k :: 0 <= k < |errors| ==> (attempts > k + 1 <==> k < 2 && TransientTrouble(errors[k]))
      ensures publishes <= 3 && (publishes > 0 <==> settlements != [Reject])
      ensures publishes > 0 ==> attempts == |errors| + 1
      ensures settlements == [Ack] || settlements == [Reject] || settlements == [Requeue]
      ensures settlements == [Ack] ==> Announced(world.state, tag)
      ensures settlements == [Requeue] ==> publishes == 3
    {
      hide Reachable;
      hide IsRetryableForTickets;
      hide TransientTrouble;
      hide TaskStep;
      hide Announced;
      attempts, errors, publishes, settlements := 0, [], 0, [];
      if malformed {
        Settle(task);
        settlements := settlements + [Reject];
        return;
      }
      var attempt := 1;
      var completed := Event(0, 0);
      ghost var now := task;
      while attempt <= MAX_HANDLER_ATTEMPTS
        invariant 1 <= attempt <= MAX_HANDLER_ATTEMPTS && attempts == attempt - 1 && settlements == []
        invariant |errors| == attempts && forall k :: 0 <= k < |errors| ==> k < 2 && TransientTrouble(errors[k])
        invariant world.At(id, now) && now.tag == tag && now.attempt == attempt && now.phase.Loading?
        decreases MAX_HANDLER_ATTEMPTS - attempt
      {
        attempts := attempts + 1;
        var found, result := Handle(now, tag);
        if !found {
          Settle(now.(phase := Settling(Reject), failure := None));
          settlements := settlements + [Reject];
          return;
        }
        if result.Ok? {
          completed := result.value;
          now := Completed(now, completed);
          break;
        }
        errors := errors + [result.error];
        now := OnFailure(now, result.error);
        if attempt < MAX_HANDLER_ATTEMPTS && IsRetryableForTickets(result.error) {
          Delay(now);
          attempt := attempt + 1;
          now := now.(phase := Loading, attempt := attempt);
          continue;
        }
        Settle(now);
        settlements := settlements + [Reject];
        assert settlements == [Reject];
        return;
      }

      publishes, settlements := PublishAndSettle(now, completed);
    }

    /** Send the event up to three times: the ACK follows the first confirmed send, and three failed ones
        put the delivery back. */
    method PublishAndSettle(ghost task: Task, completed: Event) returns (publishes: nat, settlements: seq<Verdict>)
      requires world.At(id, task) && task.phase == Publishing(completed, 1)
      modifies world
      ensures Reachable(world.state) && id in world.state.tasks && world.state.tasks[id].phase == Done
      ensures 1 <= publishes <= 3 && (settlements == [Ack] || (settlements == [Requeue] && publishes == 3))
      ensures settlements == [Ack] ==> Announced(world.state, task.tag)
    {
      hide Reachable;
      hide TaskStep;
      hide Announced;
      publishes, settlements := 0, [];
      var attempt := 1;
      ghost var now := task;
      while attempt <= MAX_HANDLER_ATTEMPTS
        invariant 1 <= attempt <= MAX_HANDLER_ATTEMPTS && publishes == attempt - 1 && settlements == []
        invariant world.At(id, now) && now.tag == task.tag && now.phase == Publishing(completed, attempt)
        decreases MAX_HANDLER_ATTEMPTS - attempt
      {
        publishes := publishes + 1;
        var sent := PublishEvent(now);
        if sent {
          now := now.(phase := Settling(Ack));
          break;
        }
        if attempt < MAX_HANDLER_ATTEMPTS {
          now := now.(phase := PublishWaiting(completed, attempt));
          Delay(now);
          attempt := attempt + 1;
          now := now.(phase := Publishing(completed, attempt));
          continue;
        }
        Settle(now.(phase := Settling(Requeue)));
        settlements := settlements + [Requeue];
        return;
      }
      Settle(now);
      settlements := settlements + [Ack];
    }

    /** A retry delay: no settlement, the delivery stays where it is. */
    method Delay(ghost task: Task)
      requires world.At(id, task) && (task.phase.Waiting? || task.phase.PublishWaiting?)
      modifies world
      ensures task.phase.Waiting? ==> world.At(id, task.(phase := Loading, attempt := task.attempt + 1))
      ensures task.phase.PublishWaiting? ==>
                world.At(id, task.(phase := Publishing(task.phase.event, task.phase.attempt + 1)))
    {
      hide Reachable;
      world.Others(id, task);
      TaskOfReachable(world.state, id);
      world.Await(id, Wake, task);
    }

    /** One send to Kafka, which may be appended even though it reports an error. */
    method PublishEvent(ghost task: Task) returns (sent: bool)
      requires world.At(id, task) && task.phase.Publishing?
      modifies world
      ensures sent ==> world.At(id, task.(phase := Settling(Ack)))
      ensures !sent && task.phase.attempt < MAX_HANDLER_ATTEMPTS ==>
                world.At(id, task.(phase := PublishWaiting(task.phase.event, task.phase.attempt)))
      ensures !sent && task.phase.attempt >= MAX_HANDLER_ATTEMPTS ==> world.At(id, task.(phase := Settling(Requeue)))
    {
      hide Reachable;
      hide TaskOk;
      hide StoreOk;
      world.Others(id, task);
      TaskOfReachable(world.state, id);
      var outcome: CommitOutcome := *;
      var partition: Partition := *;
      world.Await(id, Send(outcome, partition), task);
      sent := outcome.Committed?;
    }

    method Settle(ghost task: Task)
      requires world.At(id, task) && task.phase.Settling?
      modifies world
      ensures world.At(id, task.(phase := Done))
      ensures task.phase.verdict == Ack ==> Announced(world.state, task.tag)
    {
      hide Reachable;
      hide Step;
      hide Inv;
      hide Announced;
      world.Others(id, task);
      var seen: bool := *;
      ghost var before := world.state;
      if task.phase.verdict == Ack { AckIsAnnounced(before, id); }
      ReachableInv(before);
      world.Settle(id, seen, task);
      StepInv(before, Action.Settle(id, seen));
      if task.phase.verdict == Ack { AnnouncedLater(before, world.state, task.tag); }
    }
  }

  /** The row that the query ordered by creation time and id returns first. */
  method FindLatest(records: map<AnalysisId, Record>, ticket: TicketId) returns (r: Option<AnalysisId>)
    ensures r.Some? ==> r.value in records && records[r.value].ticket == ticket && IsLatest(records, ticket, r.value)
    ensures r.Some? ==> forall id :: id in records && records[id].ticket == ticket ==>
                                       || records[id].created < records[r.value].created
                                       || (records[id].created == records[r.value].created && id <= r.value)
    ensures r.None? ==> NoAnalysis(records, ticket)
  {
    r := None;
    var rest := records.Keys;
    while rest != {}
      invariant rest <= records.Keys
      invariant r.None? ==> forall id :: id in records && id !in rest ==> records[id].ticket != ticket
      invariant r.Some? ==> r.value in records && records[r.value].ticket == ticket
      invariant r.Some? ==> forall id :: id in records && id !in rest && records[id].ticket == ticket ==>
                                           NotAfter(records, id, r.value)
      decreases |rest|
    {
      var id :| id in rest;
      rest := rest - {id};
      if records[id].ticket == ticket && (r.None? || !NotAfter(records, id, r.value)) {
        r := Some(id);
      }
    }
  }

  predicate NotAfter(records: map<AnalysisId, Record>, a: AnalysisId, b: AnalysisId)
    requires a in records && b in records
  {
    records[a].created < records[b].created || (records[a].created == records[b].created && a <= b)
  }
}
