/** The consumer and handler code of document ingestion, statement by statement, while every other
    worker, the broker and the network do what they like between any two awaits. Each statement
    that touches the database or the broker is a step of the protocol in module `Ingestion`. */
module IngestionConsumers {
  import opened Wrappers
  import opened Chunking
  import opened Failures
  import opened Brokers
  import opened Ingestion
  import opened IngestionSafety
  import opened IngestionSequential

  /** An action that is not a move of worker `w`. Its connection may still be lost. */
  predicate NotBy(a: Action, w: WorkerId) {
    match a
    case Upload(_) => true
    case Publish(_, _) => true
    case Disconnect(_) => true
    case Deliver(v, _) => v != w
    case Act(v, _) => v != w
    case Settle(v, _) => v != w
    case Crash(v) => v != w
  }

  class World {
    var state: State

    constructor (state: State)
      ensures this.state == state
    {
      this.state := state;
    }

    /** Worker `w` stands at `task`, in a reachable state. */
    ghost predicate At(w: WorkerId, task: Task)
      reads this
    {
      Reachable(state) && w in state.tasks && state.tasks[w] == task && task.tag in state.broker.bodies
    }

    /** Any number of steps of everybody else. */
    method Others(w: WorkerId, ghost task: Task)
      requires At(w, task)
      modifies this
      ensures At(w, task) && Later(old(state), state)
    {
      hide Reachable;
      hide Step;
      hide Inv;
      LaterReflexive(state);
      var steps: nat := *;
      while steps > 0
        invariant At(w, task) && Later(old(state), state)
      {
        var a: Action := *;
        var next := Step(state, a);
        if NotBy(a, w) && next.Some? {
          ReachableInv(state);
          StepInv(state, a);
          ReachableStep(state, a);
          TaskUntouched(state, a, w);
          LaterTransitive(old(state), state, next.value);
          state := next.value;
        }
        steps := steps - 1;
      }
    }

    /** The await of worker `w` ends with effect `e`. */
    method Await(w: WorkerId, e: Effect, ghost task: Task)
      requires At(w, task) && state.broker.bodies[task.tag].Job?
      requires TaskStep(task, DocumentOf(state, task.tag), state.limit, e).Some?
      modifies this
      ensures Step(old(state), Act(w, e)) == Some(state)
      ensures At(w, old(TaskStep(task, DocumentOf(state, task.tag), state.limit, e).value.0))
    {
      hide Reachable;
      hide TaskStep;
      TaskStepStays(task, DocumentOf(state, task.tag), state.limit, e);
      ReachableStep(state, Act(w, e));
      state := Step(state, Act(w, e)).value;
    }

    /** The settlement of worker `w`, which the broker may never see. */
    method Settle(w: WorkerId, seen: bool, ghost task: Task)
      requires At(w, task) && task.phase.Settling?
      modifies this
      ensures Step(old(state), Action.Settle(w, seen)) == Some(state)
      ensures At(w, task.(phase := Done))
    {
      hide Reachable;
      hide ActStep;
      ReachableStep(state, Action.Settle(w, seen));
      state := Step(state, Action.Settle(w, seen)).value;
    }
  }

  lemma TaskUntouched(s: State, a: Action, w: WorkerId)
    requires NotBy(a, w) && Step(s, a).Some? && w in s.tasks
    ensures w in Step(s, a).value.tasks && Step(s, a).value.tasks[w] == s.tasks[w]
  {
    hide TaskStep;
    hide CanDeliver;
  }

  class DocumentIngestionConsumer {
    const world: World
    const id: WorkerId

    constructor (world: World, id: WorkerId)
      ensures this.world == world && this.id == id
    {
      this.world := world;
      this.id := id;
    }

    /** One query; it may fail. `document` is what the database held at that moment. */
    method Query(ghost task: Task, tag: Tag) returns (error: Option<Failure>, document: Option<Document>)
      requires world.At(id, task) && task.tag == tag
      requires task.phase.Loading? || task.phase.Checking? || task.phase.MarkLoading? || task.phase.MarkChecking?
      modifies world
      ensures task.phase.Checking? || task.phase.MarkChecking? ==> document.Some?
      ensures world.At(id, AfterQuery(task, document, error))
    {
      hide Reachable;
      hide TaskStep;
      hide TaskOk;
      world.Others(id, task);
      TaskOfReachable(world.state, id);
      error := *;
      document := DocumentOf(world.state, tag);
      QueryStep(task, document, world.state.limit, error);
      world.Await(id, Effect.Query(error), task);
    }

    /** One commit of the handler. It may be applied or not, and its reply may be lost. */
    method Commit(ghost task: Task, tag: Tag) returns (error: Option<Failure>)
      requires world.At(id, task) && task.tag == tag
      requires task.phase.Reconciling? || task.phase.Starting? || task.phase.Inserting? || task.phase.Completing?
      modifies world
      ensures world.At(id, AfterCommit(task, error))
    {
      hide Reachable;
      hide TaskStep;
      hide TaskOk;
      world.Others(id, task);
      TaskOfReachable(world.state, id);
      var outcome: CommitOutcome := *;
      var failure: Failure := *;
      var document := DocumentOf(world.state, tag);
      if world.state.tasks[id].phase.Inserting? && document.Some?
         && !(world.state.tasks[id].phase.rows.Keys !! document.value.chunks.Keys) {
        outcome := Refused;  // the unique constraint
      }
      CommitStep(task, document, world.state.limit, outcome, failure);
      world.Await(id, Write(outcome, failure), task);
      error := if outcome.Committed? then None else Some(failure);
    }

    /** Parse, chunk, embed and insert; the chunks become visible with the commit or not at all. */
    method Ingest(ghost task: Task, tag: Tag) returns (error: Option<Failure>)
      requires world.At(id, task) && task.tag == tag && task.phase.Working?
      modifies world
      ensures error.Some? ==> world.At(id, OnFailure(task, error.value))
      ensures error.None? ==> world.At(id, task.(phase := Completing))
    {
      hide Reachable;
      hide TaskStep;
      hide TaskOk;
      hide Prepare;
      world.Others(id, task);
      TaskOfReachable(world.state, id);
      var raised: Option<Failure> := *;
      var extracted: string := *;
      var vectors: seq<Vector> := *;
      var prepared := Prepare(extracted, vectors, world.state.limit);
      WorkStep(task, DocumentOf(world.state, tag), world.state.limit, raised, extracted, vectors);
      if raised.Some? {
        world.Await(id, Raise(raised.value), task);
        return raised;
      }
      world.Await(id, Produce(extracted, vectors), task);
      if prepared.Err? {
        return Some(prepared.error);
      }
      error := Commit(task.(phase := Inserting(prepared.value)), tag);
    }

    /** Ingest once, or return if chunks exist. */
    method Handle(ghost task: Task, tag: Tag) returns (found: bool, error: Option<Failure>)
      requires world.At(id, task) && task.tag == tag && task.phase.Loading?
      modifies world
      ensures !found ==> world.At(id, task.(phase := Settling(Reject), failure := None))
      ensures found && error.Some? ==> world.At(id, OnFailure(task, error.value))
      ensures found && error.None? ==> world.At(id, task.(phase := Settling(Ack)))
    {
      hide Reachable;
      hide Failures.FailureReason;
      hide IsRetryable;
      found := true;
      var document;
      error, document := Query(task, tag);
      if error.Some? { return; }
      if document.None? { return false, None; }
      var seen := document.value.fields;

      ghost var checking := task.(phase := Checking(seen));
      error, document := Query(checking, tag);
      if error.Some? { return; }
      if document.value.chunks != map[] {
        if seen.status != Completed || (seen.reason.Some? && seen.reason.value != "") {
          error := Commit(task.(phase := Reconciling(seen)), tag);
        }
        return;
      }

      error := Commit(task.(phase := Starting(seen)), tag);
      if error.Some? { return; }
      error := Ingest(task.(phase := Working), tag);
      if error.Some? { return; }
      error := Commit(task.(phase := Completing), tag);
    }

    /** Persist the failure, or reconcile a committed ingestion; `None` when that fails too. */
    method MarkFailed(ghost task: Task, tag: Tag, reason: string) returns (status: Option<Status>)
      requires world.At(id, task) && task.tag == tag && task.phase == MarkLoading(reason)
      modifies world
      ensures world.At(id, task.(phase := Settling(if status == Some(Completed) then Ack else Reject)))
    {
      hide Reachable;
      hide TaskOk;
      hide TaskStep;
      var error, document := Query(task, tag);
      if error.Some? || document.None? { return None; }
      var seen := document.value.fields;
      error, document := Query(task.(phase := MarkChecking(reason, seen)), tag);
      if error.Some? { return None; }
      var next := if document.value.chunks != map[] then COMPLETED else Fields(Failed, Some(Truncate(reason, 255)));
      ghost var committing := task.(phase := MarkCommitting(seen, next));
      world.Others(id, committing);
      TaskOfReachable(world.state, id);
      var outcome: CommitOutcome := *;
      var failure: Failure := *;
      MarkStep(committing, DocumentOf(world.state, tag), world.state.limit, outcome, failure);
      world.Await(id, Write(outcome, failure), committing);
      status := if outcome.Committed? then Some(next.status) else None;
    }

    /** The one settlement of a call; the broker may never see it. */
    method Settle(ghost task: Task)
      requires world.At(id, task) && task.phase.Settling?
      modifies world
      ensures world.At(id, task.(phase := Done))
      ensures task.phase.verdict == Ack ==> Stored(world.state, task.tag)
    {
      hide Reachable;
      hide Step;
      hide Inv;
      world.Others(id, task);
      var seen: bool := *;
      ghost var before := world.state;
      if task.phase.verdict == Ack { AckIsStored(before, id); }
      ReachableInv(before);
      world.Settle(id, seen, task);
      StepInv(before, Action.Settle(id, seen));
    }

    /** Retry transient failures while keeping the delivery, then settle it exactly once: ACK only
        when the handler or `mark_failed` found the chunks stored. */
    method ProcessMessage(ghost task: Task, tag: Tag, malformed: bool)
      returns (attempts: nat, errors: seq<Failure>, settlements: seq<Verdict>)
      requires world.At(id, task)
      requires task == Task(tag, 1, if malformed then Settling(Reject) else Loading, None)
      modifies world
      ensures Reachable(world.state) && id in world.state.tasks && world.state.tasks[id].phase == Done
      ensures attempts <= 3 && (attempts == 0 <==> malformed) && |errors| <= attempts <= |errors| + 1
      ensures forall k :: 0 <= k < |errors| ==> (attempts > k + 1 <==> k < 2 && ConnectionTrouble(errors[k]))
      ensures settlements == [Ack] || settlements == [Reject]
      ensures malformed ==> settlements == [Reject]
      ensures settlements == [Ack] ==> Stored(world.state, tag)
      ensures settlements == [Reject] && !malformed ==>
                world.state.tasks[id].failure.None? || (RejectCause(world.state.tasks[id]) && |errors| == attempts)
    {
      hide Reachable;
      hide Failures.FailureReason;
      hide IsRetryable;
      hide ConnectionTrouble;
      hide Step;
      hide TaskStep;
      attempts, errors, settlements := 0, [], [];
      if malformed {
        Settle(task);
        settlements := settlements + [Reject];
        return;
      }
      var attempt := 1;
      ghost var now := task;
      while attempt <= MAX_HANDLER_ATTEMPTS
        invariant 1 <= attempt <= MAX_HANDLER_ATTEMPTS && attempts == attempt - 1 && settlements == []
        invariant |errors| == attempts && forall k :: 0 <= k < |errors| ==> k < 2 && ConnectionTrouble(errors[k])
        invariant world.At(id, now) && now.tag == tag && now.attempt == attempt && now.phase.Loading?
        decreases MAX_HANDLER_ATTEMPTS - attempt
      {
        attempts := attempts + 1;
        var found, error := Handle(now, tag);
        if !found {
          Settle(now.(phase := Settling(Reject), failure := None));
          settlements := settlements + [Reject];
          return;
        }
        if error.None? {
          now := now.(phase := Settling(Ack));
          break;
        }
        if attempt < MAX_HANDLER_ATTEMPTS && IsRetryable(error.value) {
          // The retry delay: no settlement, the delivery stays where it is.
          errors := errors + [error.value];
          now := OnFailure(now, error.value);
          world.Others(id, now);
          TaskOfReachable(world.state, id);
          WakeStep(now, DocumentOf(world.state, tag), world.state.limit);
          world.Await(id, Wake, now);
          attempt := attempt + 1;
          now := now.(phase := Loading, attempt := attempt);
          continue;
        }
        errors := errors + [error.value];
        now := OnFailure(now, error.value);
        var status := MarkFailed(now, tag, FailureReason(error.value));
        if status == Some(Completed) {
          now := now.(phase := Settling(Ack));
          break;
        }
        Settle(now.(phase := Settling(Reject)));
        settlements := settlements + [Reject];
        assert settlements == [Reject];
        return;
      }
      Settle(now);
      settlements := settlements + [Ack];
    }
  }

  function AfterQuery(task: Task, document: Option<Document>, error: Option<Failure>): Task {
    match task.phase
    case Loading =>
      if error.Some? then OnFailure(task, error.value)
      else if document.None? then task.(phase := Settling(Reject), failure := None)
      else task.(phase := Checking(document.value.fields))
    case Checking(seen) =>
      if error.Some? then OnFailure(task, error.value)
      else if document.None? then task
      else if document.value.chunks == map[] then task.(phase := Starting(seen))
      else if seen.status != Completed || (seen.reason.Some? && seen.reason.value != "")
      then task.(phase := Reconciling(seen))
      else task.(phase := Settling(Ack))
    case MarkLoading(reason) =>
      if error.Some? || document.None? then OnMarkFailure(task)
      else task.(phase := MarkChecking(reason, document.value.fields))
    case MarkChecking(reason, seen) =>
      if error.Some? then OnMarkFailure(task)
      else if document.None? then task
      else task.(phase := MarkCommitting(seen, if document.value.chunks != map[] then COMPLETED
                                               else Fields(Failed, Some(Truncate(reason, 255)))))
    case _ => task
  }

  function AfterCommit(task: Task, error: Option<Failure>): Task {
    if error.Some? then OnFailure(task, error.value)
    else
      match task.phase
      case Starting(_) => task.(phase := Working)
      case Inserting(_) => task.(phase := Completing)
      case _ => task.(phase := Settling(Ack))
  }

  /** Only well-formed deliveries get past decoding, and their tasks are in order. */
  lemma TaskOfReachable(s: State, w: WorkerId)
    requires Reachable(s) && w in s.tasks && Active(s.tasks[w])
    ensures s.tasks[w].tag in s.broker.bodies && s.broker.bodies[s.tasks[w].tag].Job?
    ensures TaskOk(s.tasks[w], DocumentOf(s, s.tasks[w].tag), s.limit)
  {
    hide TaskOk;
    ReachableInv(s);
    assert TaskFits(s, s.tasks[w]);
  }

  /** A worker about to acknowledge has its document stored, whatever the others did since. */
  lemma AckIsStored(s: State, w: WorkerId)
    requires Reachable(s) && w in s.tasks && s.tasks[w].phase == Settling(Ack)
    ensures Stored(s, s.tasks[w].tag)
  {
    hide OneIngestion;
    hide Reachable;
    ReachableInv(s);
    assert TaskFits(s, s.tasks[w]);
  }

  lemma QueryStep(task: Task, doc: Option<Document>, limit: Limit, error: Option<Failure>)
    requires TaskOk(task, doc, limit)
    requires task.phase.Loading? || task.phase.Checking? || task.phase.MarkLoading? || task.phase.MarkChecking?
    ensures TaskStep(task, doc, limit, Effect.Query(error)) == Some((AfterQuery(task, doc, error), doc))
    ensures task.phase.Checking? || task.phase.MarkChecking? ==> doc.Some?
  {
    hide OneIngestion;
  }

  lemma CommitStep(task: Task, doc: Option<Document>, limit: Limit, outcome: CommitOutcome, f: Failure)
    requires TaskOk(task, doc, limit)
    requires task.phase.Reconciling? || task.phase.Starting? || task.phase.Inserting? || task.phase.Completing?
    requires task.phase.Inserting? && doc.Some? && !(task.phase.rows.Keys !! doc.value.chunks.Keys) ==>
               outcome == Refused
    ensures TaskStep(task, doc, limit, Write(outcome, f)).Some?
    ensures TaskStep(task, doc, limit, Write(outcome, f)).value.0
         == AfterCommit(task, if outcome.Committed? then None else Some(f))
  {
    hide OneIngestion;
  }

  lemma WorkStep(task: Task, doc: Option<Document>, limit: Limit, raised: Option<Failure>,
                 extracted: string, vectors: seq<Vector>)
    requires task.phase.Working?
    ensures raised.Some? ==>
              TaskStep(task, doc, limit, Raise(raised.value)) == Some((OnFailure(task, raised.value), doc))
    ensures TaskStep(task, doc, limit, Produce(extracted, vectors)).Some?
    ensures var next := TaskStep(task, doc, limit, Produce(extracted, vectors)).value.0;
            match Prepare(extracted, vectors, limit)
            case Ok(rows) => next == task.(phase := Inserting(rows))
            case Err(f) => next == OnFailure(task, f)
  {
    hide Prepare;
  }

  lemma MarkStep(task: Task, doc: Option<Document>, limit: Limit, outcome: CommitOutcome, f: Failure)
    requires TaskOk(task, doc, limit) && task.phase.MarkCommitting?
    ensures TaskStep(task, doc, limit, Write(outcome, f)).Some?
    ensures TaskStep(task, doc, limit, Write(outcome, f)).value.0
         == task.(phase := Settling(if outcome.Committed? && task.phase.next.status == Completed then Ack else Reject))
  {
    hide OneIngestion;
  }

  lemma WakeStep(task: Task, doc: Option<Document>, limit: Limit)
    requires task.phase.Waiting?
    ensures TaskStep(task, doc, limit, Wake) == Some((task.(phase := Loading, attempt := task.attempt + 1), doc))
  {
  }
}
