/** What holds in every state any interleaving of ingestion workers can reach. */
module IngestionSafety {
  import opened Wrappers
  import opened Executions
  import opened Chunking
  import opened Failures
  import opened Brokers
  import opened Ingestion

  ghost predicate TaskFits(s: State, task: Task) {
    && task.tag in s.broker.bodies
    && match s.broker.bodies[task.tag]
       case Malformed => (task.phase.Done? || task.phase == Settling(Reject)) && task.failure.None?
       case Job(_) => TaskOk(task, DocumentOf(s, task.tag), s.limit)
  }

  /** The delivery's document is stored with its chunks. */
  predicate Stored(s: State, t: Tag) {
    && t in s.broker.bodies && s.broker.bodies[t].Job? && s.broker.bodies[t].subject in s.documents
    && s.documents[s.broker.bodies[t].subject].chunks != map[]
  }

  ghost predicate DocumentsOk(s: State) {
    forall d :: d in s.documents ==> DocumentOk(s.documents[d], s.limit)
  }

  ghost predicate TasksOk(s: State) {
    forall w :: w in s.tasks ==> TaskFits(s, s.tasks[w])
  }

  /** What a worker holds is what its task is about. */
  predicate HoldsOwn(s: State) {
    forall t :: t in s.broker.unacked ==> s.broker.unacked[t] in s.tasks && s.tasks[s.broker.unacked[t]].tag == t
  }

  predicate AckedStored(s: State) {
    forall t :: t in s.broker.acked ==> Stored(s, t)
  }

  ghost predicate Inv(s: State) {
    Conserved(s.broker) && DocumentsOk(s) && TasksOk(s) && HoldsOwn(s) && AckedStored(s)
  }

  /** What every step preserves: nothing published, stored or settled is taken back. */
  predicate Later(s: State, s': State) {
    && s'.limit == s.limit && Settled(s.broker, s'.broker)
    && (forall d :: d in s.documents ==> d in s'.documents && Grows(Some(s.documents[d]), Some(s'.documents[d])))
  }

  lemma TaskFitsLater(s: State, s': State, task: Task)
    requires TaskFits(s, task) && Later(s, s')
    ensures TaskFits(s', task)
  {
    hide OneIngestion;
    hide IsRetryable;
  }

  /** The tasks a step does not touch still fit, and so do the acknowledged deliveries. */
  lemma OthersFit(s: State, s': State, moved: set<WorkerId>)
    requires TasksOk(s) && AckedStored(s) && Later(s, s')
    requires forall w :: w in s'.tasks && w !in moved ==> w in s.tasks && s'.tasks[w] == s.tasks[w]
    ensures forall w :: w in s'.tasks && w !in moved ==> TaskFits(s', s'.tasks[w])
    ensures forall t :: t in s.broker.acked ==> Stored(s', t)
  {
    hide TaskFits;
    forall w | w in s'.tasks && w !in moved ensures TaskFits(s', s'.tasks[w]) {
      TaskFitsLater(s, s', s.tasks[w]);
    }
  }

  lemma ActInv(s: State, w: WorkerId, e: Effect)
    requires Inv(s) && Step(s, Act(w, e)).Some?
    ensures Inv(Step(s, Act(w, e)).value) && Later(s, Step(s, Act(w, e)).value)
  {
    hide TaskStep;
    hide TaskOk;
    hide DocumentOk;
    hide Conserved;
    hide Settled;
    hide Stored;
    var s' := Step(s, Act(w, e)).value;
    var t := s.tasks[w].tag;
    assert TaskFits(s, s.tasks[w]);
    var doc := DocumentOf(s, t);
    TaskStepKeeps(s.tasks[w], doc, s.limit, e);
    var (task', doc') := TaskStep(s.tasks[w], doc, s.limit, e).value;
    SettledReflexive(s.broker);
    assert Later(s, s');
    assert DocumentOf(s', t) == doc';
    OthersFit(s, s', {w});
  }

  lemma EnvironmentInv(s: State, a: Action)
    requires Inv(s) && (a.Upload? || a.Publish? || a.Disconnect? || a.Crash?) && Step(s, a).Some?
    ensures Inv(Step(s, a).value) && Later(s, Step(s, a).value)
  {
    hide TaskFits;
    hide OneIngestion;
    hide Conserved;
    hide Settled;
    hide CanDeliver;
    hide ActStep;
    hide Stored;
    var s' := Step(s, a).value;
    SettledReflexive(s.broker);
    OthersFit(s, s', {});
  }

  lemma SettledReflexive(b: Broker)
    ensures Settled(b, b)
  {
  }

  lemma DeliverInv(s: State, w: WorkerId, t: Tag)
    requires Inv(s) && Step(s, Deliver(w, t)).Some?
    ensures Inv(Step(s, Deliver(w, t)).value) && Later(s, Step(s, Deliver(w, t)).value)
  {
    hide DocumentOk;
    hide Conserved;
    hide Settled;
    var s' := Step(s, Deliver(w, t)).value;
    OthersFit(s, s', {w});
  }

  lemma SettlingFits(s: State, task: Task)
    requires TaskFits(s, task) && task.phase.Settling?
    ensures TaskFits(s, task.(phase := Done)) && task.phase.verdict != Requeue
    ensures task.phase.verdict == Ack ==> Stored(s, task.tag)
  {
    hide OneIngestion;
    hide IsRetryable;
  }

  lemma SettleInv(s: State, w: WorkerId, effective: bool)
    requires Inv(s) && Step(s, Settle(w, effective)).Some?
    ensures Inv(Step(s, Settle(w, effective)).value) && Later(s, Step(s, Settle(w, effective)).value)
  {
    hide DocumentOk;
    hide Conserved;
    hide Settled;
    hide TaskFits;
    hide CanDeliver;
    var s' := Step(s, Settle(w, effective)).value;
    SettlingFits(s, s.tasks[w]);
    SettledReflexive(s.broker);
    TaskFitsLater(s, s', s.tasks[w].(phase := Done));
    OthersFit(s, s', {w});
  }

  lemma StepInv(s: State, a: Action)
    requires Inv(s) && Step(s, a).Some?
    ensures Inv(Step(s, a).value) && Later(s, Step(s, a).value)
  {
    hide Step;
    hide Inv;
    hide Later;
    match a
    case Act(w, e) => ActInv(s, w, e);
    case Deliver(w, t) => DeliverInv(s, w, t);
    case Settle(w, effective) => SettleInv(s, w, effective);
    case _ => EnvironmentInv(s, a);
  }

  lemma LaterTransitive(s: State, t: State, u: State)
    requires Later(s, t) && Later(t, u)
    ensures Later(s, u)
  {
  }

  lemma LaterReflexive(s: State)
    ensures Later(s, s)
  {
  }

  lemma RunInv(s: State, actions: seq<Action>)
    requires Inv(s) && Run(s, actions).Some?
    ensures Inv(Run(s, actions).value) && Later(s, Run(s, actions).value)
  {
    hide Step;
    hide Inv;
    hide Later;
    forall t, a | Inv(t) && Step(t, a).Some?
      ensures Inv(Step(t, a).value) && Later(t, Step(t, a).value)
    {
      StepInv(t, a);
    }
    forall t ensures Later(t, t) { LaterReflexive(t); }
    forall t, u, v | Inv(t) && Inv(u) && Inv(v) && Later(t, u) && Later(u, v)
      ensures Later(t, v)
    {
      LaterTransitive(t, u, v);
    }
    Keeps(Step, Inv, Later, s, actions);
  }

  /** The migration that introduced the status columns: a document that has chunks is completed. */
  function Backfill(chunks: map<nat, ChunkRow>): Document {
    Document(Fields(if chunks != map[] then Completed else Pending, None), chunks)
  }

  ghost predicate Init(s: State) {
    && s.broker == EMPTY && s.tasks == map[]
    && forall d :: d in s.documents ==>
                     && s.documents[d] == Backfill(s.documents[d].chunks)
                     && (s.documents[d].chunks == map[] || OneIngestion(s.documents[d].chunks, s.limit))
  }

  ghost predicate Reachable(s: State) {
    ReachableFrom(Step, Init, s)
  }

  lemma InitInv(s: State)
    requires Init(s)
    ensures Inv(s)
  {
    hide OneIngestion;
  }

  lemma ReachableInv(s: State)
    requires Reachable(s)
    ensures Inv(s)
  {
    hide Step;
    hide Inv;
    forall t | Init(t) ensures Inv(t) { InitInv(t); }
    forall t, a | Inv(t) && Step(t, a).Some? ensures Inv(Step(t, a).value) { StepInv(t, a); }
    ReachableKeeps(Step, Init, Inv, s);
  }

  lemma ReachableStep(s: State, a: Action)
    requires Reachable(s) && Step(s, a).Some?
    ensures Reachable(Step(s, a).value)
  {
    hide Step;
    StepReaches(Step, Init, s, a);
  }

  /** With any number of workers, crashes and lost replies: the stored chunks of a document are
      none or those of one single ingestion, and a completed document has them. */
  lemma ChunksAreAllOrNothing(s: State, d: DocumentId)
    requires Reachable(s) && d in s.documents
    ensures s.documents[d].chunks == map[] || OneIngestion(s.documents[d].chunks, s.limit)
    ensures s.documents[d].fields.status == Completed ==> s.documents[d].chunks != map[]
    ensures s.documents[d].fields.reason.Some? ==> |s.documents[d].fields.reason.value| <= 255
  {
    hide OneIngestion;
    ReachableInv(s);
  }

  /** Ingestion jobs are conserved, and an acknowledged job's document is completely stored. */
  lemma JobsAreConserved(s: State, t: Tag)
    requires Reachable(s)
    ensures Conserved(s.broker)
    ensures t in s.broker.acked ==> t in s.broker.bodies && s.broker.bodies[t].Job?
                                    && s.broker.bodies[t].subject in s.documents
                                    && OneIngestion(s.documents[s.broker.bodies[t].subject].chunks, s.limit)
    ensures t in s.broker.unacked ==> s.broker.unacked[t] in s.tasks && s.tasks[s.broker.unacked[t]].tag == t
  {
    hide OneIngestion;
    hide Conserved;
    hide Reachable;
    ReachableInv(s);
    if t in s.broker.acked { assert Stored(s, t); }
  }

  /** The handler's query, commit or work fails with `f`. */
  predicate HandlerFails(phase: Phase, e: Effect, f: Failure) {
    match phase
    case Loading => e == Effect.Query(Some(f))
    case Checking(_) => e == Effect.Query(Some(f))
    case Working => e == Raise(f)
    case Reconciling(_) => e.Write? && !e.outcome.Committed? && e.failure == f
    case Starting(_) => e.Write? && !e.outcome.Committed? && e.failure == f
    case Inserting(_) => e.Write? && !e.outcome.Committed? && e.failure == f
    case Completing => e.Write? && !e.outcome.Committed? && e.failure == f
    case _ => false
  }

  /** Wherever the handler fails: on the first or second attempt trouble with a connection leads to the
      retry delay; every other failure, and every third one, leads to `mark_failed` with its reason. The
      document is as before unless a write took effect although it failed. */
  lemma FailureDecides(task: Task, doc: Option<Document>, limit: Limit, e: Effect, f: Failure)
    requires TaskOk(task, doc, limit) && TaskStep(task, doc, limit, e).Some? && HandlerFails(task.phase, e, f)
    ensures var task' := TaskStep(task, doc, limit, e).value.0;
            && task'.failure == Some(f) && task'.attempt == task.attempt && task'.tag == task.tag
            && (task'.phase == Waiting <==> task.attempt < 3 && ConnectionTrouble(f))
            && (task'.phase == MarkLoading(FailureReason(f)) <==> task.attempt == 3 || !ConnectionTrouble(f))
            && (!e.Write? || e.outcome == Refused ==> TaskStep(task, doc, limit, e).value.1 == doc)
  {
    hide OneIngestion;
    hide IsRetryable;
    hide ConnectionTrouble;
    hide Prepare;
    hide FailureReason;
  }

  /** A document without text, or the wrong number of vectors, is a failure that is not retried. */
  lemma UnusableTextIsNotRetried(task: Task, doc: Option<Document>, limit: Limit,
                                 extracted: string, vectors: seq<Vector>)
    requires task.phase.Working? && Prepare(extracted, vectors, limit).Err?
    ensures var f := Prepare(extracted, vectors, limit).error;
            TaskStep(task, doc, limit, Produce(extracted, vectors))
              == Some((task.(phase := MarkLoading(FailureReason(f)), failure := Some(f)), doc))
  {
    hide ChunkText;
    hide FailureReason;
  }

  /** A call comes to reject its delivery without a recorded failure exactly when its handler looked
      for the document and found none. */
  lemma RejectedWithoutFailure(task: Task, doc: Option<Document>, limit: Limit, e: Effect)
    requires TaskOk(task, doc, limit) && TaskStep(task, doc, limit, e).Some?
    ensures var task' := TaskStep(task, doc, limit, e).value.0;
            task'.phase == Settling(Reject) && task'.failure.None? <==>
            task.phase.Loading? && e == Effect.Query(None) && doc.None?
  {
    hide OneIngestion;
    hide IsRetryable;
    hide Prepare;
    hide FailureReason;
  }

  /** A delivery is dead-lettered only when it is malformed, its handler found no document (and so
      recorded no failure), or its handler failed for good: on the third attempt or with an error that
      is not retried. */
  lemma DeadLetteredForCause(s: State, a: Action, t: Tag)
    requires Reachable(s) && Step(s, a).Some? && t !in s.broker.failed && t in Step(s, a).value.broker.failed
    ensures a.Settle? && a.effective && a.worker in s.tasks && s.tasks[a.worker].tag == t && t in s.broker.bodies
    ensures s.broker.bodies[t].Malformed? || s.tasks[a.worker].failure.None? || RejectCause(s.tasks[a.worker])
  {
    hide OneIngestion;
    hide Conserved;
    hide ActStep;
    hide Reachable;
    ReachableInv(s);
    if a.Act? { ActKeepsBroker(s, a); }
    assert TaskFits(s, s.tasks[a.worker]);
  }

  lemma ActKeepsBroker(s: State, a: Action)
    requires a.Act? && Step(s, a).Some?
    ensures Step(s, a).value.broker == s.broker
  {
  }

  /** Every call stays within three handler attempts, and the second and the third follow nothing but
      trouble with a connection. */
  lemma AttemptsAreBounded(s: State, w: WorkerId)
    requires Reachable(s) && w in s.tasks && s.tasks[w].tag in s.broker.bodies && s.broker.bodies[s.tasks[w].tag].Job?
    ensures 1 <= s.tasks[w].attempt <= 3
    ensures var task := s.tasks[w];
            InHandler(task.phase) ==> && (task.attempt > 1 <==> task.failure.Some?)
                                      && (task.failure.Some? ==> ConnectionTrouble(task.failure.value))
  {
    hide OneIngestion;
    ReachableInv(s);
    assert TaskFits(s, s.tasks[w]);
  }
}
