/** The document status when the deliveries of a document are processed one at a time, and what
    goes wrong when they are not. */
module IngestionSequential {
  import opened Wrappers
  import opened Executions
  import opened Chunking
  import opened Failures
  import opened Brokers
  import opened Ingestion
  import opened IngestionSafety

  /** The task may still query or write its document. */
  predicate Active(task: Task) {
    !task.phase.Settling? && !task.phase.Done?
  }

  predicate WorksOn(s: State, w: WorkerId, d: DocumentId) {
    && w in s.tasks && Active(s.tasks[w])
    && s.tasks[w].tag in s.broker.bodies && s.broker.bodies[s.tasks[w].tag] == Job(d)
  }

  /** No document has two active tasks. */
  ghost predicate OneAtATime(s: State) {
    forall v, w, d :: WorksOn(s, v, d) && WorksOn(s, w, d) ==> v == w
  }

  /** A run in which every state has at most one active task per document. */
  ghost predicate SequentialRun(s: State, actions: seq<Action>) {
    StaysIn(Step, OneAtATime, s, actions)
  }

  /** Failed exactly when a reason is stored, which is that of some failure, and then without chunks. */
  ghost predicate StatusOk(doc: Document) {
    && (doc.fields.reason.Some? <==> doc.fields.status == Failed)
    && (doc.fields.status == Failed ==> doc.chunks == map[] && exists f :: doc.fields.reason == Some(FailureReason(f)))
  }

  /** What an undisturbed task knows about its document. */
  predicate Knows(task: Task, doc: Document) {
    match task.phase
    case Checking(seen) => seen == doc.fields
    case Reconciling(seen) => seen == doc.fields
    case Starting(seen) => seen == doc.fields && doc.chunks == map[]
    case Working => doc.fields == PROCESSING && doc.chunks == map[]
    case Inserting(_) => doc.fields == PROCESSING && doc.chunks == map[]
    case Completing => doc.fields == PROCESSING
    case MarkChecking(_, seen) => seen == doc.fields
    case MarkCommitting(seen, next) =>
      && seen == doc.fields
      && (next == COMPLETED || (next.status == Failed && doc.chunks == map[] && task.failure.Some?
                                && next.reason == Some(FailureReason(task.failure.value))))
    case _ => true
  }

  ghost predicate SequentialInv(s: State) {
    && Inv(s)
    && (forall d :: d in s.documents ==> StatusOk(s.documents[d]))
    && (forall w, d :: WorksOn(s, w, d) && d in s.documents ==> Knows(s.tasks[w], s.documents[d]))
  }

  lemma TaskStepSequential(task: Task, doc: Option<Document>, limit: Limit, e: Effect)
    requires TaskStep(task, doc, limit, e).Some? && TaskOk(task, doc, limit)
    requires doc.Some? ==> StatusOk(doc.value) && Knows(task, doc.value)
    ensures var (task', doc') := TaskStep(task, doc, limit, e).value;
            doc'.Some? ==> StatusOk(doc'.value) && Knows(task', doc'.value)
  {
    hide OneIngestion;
    hide IsRetryable;
    hide Prepare;
    hide FailureReason;
  }

  lemma ActSequential(s: State, w: WorkerId, e: Effect)
    requires SequentialInv(s) && OneAtATime(s) && Step(s, Act(w, e)).Some?
    ensures SequentialInv(Step(s, Act(w, e)).value)
  {
    hide TaskStep;
    hide StatusOk;
    hide Knows;
    hide TaskOk;
    hide Inv;
    var s' := Step(s, Act(w, e)).value;
    StepInv(s, Act(w, e));
    var t := s.tasks[w].tag;
    var d := s.broker.bodies[t].subject;
    var doc := DocumentOf(s, t);
    assert TaskOk(s.tasks[w], doc, s.limit) by { TaskOfInv(s, w); }
    assert Active(s.tasks[w]) by { ActiveToAct(s.tasks[w], doc, s.limit, e); }
    assert WorksOn(s, w, d);
    TaskStepSequential(s.tasks[w], doc, s.limit, e);
    TaskStepStays(s.tasks[w], doc, s.limit, e);
    assert s.broker.bodies[t] == Job(d);
    forall v, c | WorksOn(s', v, c) && c in s'.documents ensures Knows(s'.tasks[v], s'.documents[c]) {
      if v != w {
        assert WorksOn(s, v, c) && c != d;
      } else {
        assert c == d && DocumentOf(s', t) == TaskStep(s.tasks[w], doc, s.limit, e).value.1;
      }
    }
  }

  lemma TaskStepStays(task: Task, doc: Option<Document>, limit: Limit, e: Effect)
    requires TaskStep(task, doc, limit, e).Some?
    ensures TaskStep(task, doc, limit, e).value.0.tag == task.tag
    ensures TaskStep(task, doc, limit, e).value.1.Some? <==> doc.Some?
  {
    hide IsRetryable;
    hide Prepare;
    hide FailureReason;
  }

  lemma TaskOfInv(s: State, w: WorkerId)
    requires Inv(s) && w in s.tasks && s.tasks[w].tag in s.broker.bodies && s.broker.bodies[s.tasks[w].tag].Job?
    ensures TaskOk(s.tasks[w], DocumentOf(s, s.tasks[w].tag), s.limit)
  {
    hide TaskOk;
    assert TaskFits(s, s.tasks[w]);
  }

  lemma ActiveToAct(task: Task, doc: Option<Document>, limit: Limit, e: Effect)
    requires TaskStep(task, doc, limit, e).Some?
    ensures Active(task)
  {
  }

  lemma OtherSequential(s: State, a: Action)
    requires SequentialInv(s) && !a.Act? && Step(s, a).Some?
    ensures SequentialInv(Step(s, a).value)
  {
    hide ActStep;
    hide Inv;
    hide CanDeliver;
    StepInv(s, a);
    var s' := Step(s, a).value;
    assert TasksOk(s) by { InvHasTasksOk(s); }
    forall v, c | WorksOn(s', v, c) && c in s'.documents ensures Knows(s'.tasks[v], s'.documents[c]) {
      if !(a.Deliver? && v == a.worker) {
        assert s'.tasks[v] == s.tasks[v];
        assert TaskFits(s, s.tasks[v]);
        if c in s.documents { assert WorksOn(s, v, c); } else { AbsentDocument(s, v, c); }
      }
    }
  }

  lemma InvHasTasksOk(s: State)
    requires Inv(s)
    ensures TasksOk(s)
  {
  }

  /** A task whose document is absent has seen nothing of it. */
  lemma AbsentDocument(s: State, v: WorkerId, c: DocumentId)
    requires v in s.tasks && TaskFits(s, s.tasks[v]) && s.broker.bodies[s.tasks[v].tag] == Job(c) && c !in s.documents
    ensures forall doc :: Knows(s.tasks[v], doc)
  {
    hide OneIngestion;
  }

  lemma SequentialStep(s: State, a: Action)
    requires SequentialInv(s) && OneAtATime(s) && Step(s, a).Some?
    ensures SequentialInv(Step(s, a).value)
  {
    hide Step;
    hide SequentialInv;
    hide OneAtATime;
    if a.Act? { ActSequential(s, a.worker, a.effect); } else { OtherSequential(s, a); }
  }

  lemma SequentialRunKeeps(s: State, actions: seq<Action>)
    requires SequentialInv(s) && SequentialRun(s, actions)
    ensures Run(s, actions).Some? && SequentialInv(Run(s, actions).value)
  {
    hide Step;
    hide SequentialInv;
    hide OneAtATime;
    forall t, a | SequentialInv(t) && OneAtATime(t) && Step(t, a).Some? ensures SequentialInv(Step(t, a).value) {
      SequentialStep(t, a);
    }
    KeepsWithin(Step, OneAtATime, SequentialInv, s, actions);
  }

  /** Processed one delivery at a time, through any crashes, requeues and lost replies: a failed
      document has no chunks, and a reason is stored exactly when the status is failed. */
  lemma StatusIsTruthful(s: State, actions: seq<Action>, d: DocumentId)
    requires Init(s) && SequentialRun(s, actions) && Run(s, actions).Some? && d in Run(s, actions).value.documents
    ensures var doc := Run(s, actions).value.documents[d];
            && (doc.fields.status == Failed ==> doc.chunks == map[])
            && (doc.fields.reason.Some? <==> doc.fields.status == Failed)
            && (doc.fields.status == Failed ==> exists f :: doc.fields.reason == Some(FailureReason(f)))
  {
    hide OneIngestion;
    hide Run;
    hide SequentialRun;
    assert Inv(s);
    assert SequentialInv(s);
    SequentialRunKeeps(s, actions);
  }

  /** Processed one delivery at a time: while a call works on a document or stores its chunks, the status
      is processing and there is neither a reason nor a chunk. */
  lemma WorkingIsProcessing(s0: State, actions: seq<Action>, w: WorkerId, d: DocumentId)
    requires Init(s0) && SequentialRun(s0, actions) && Run(s0, actions).Some?
    requires WorksOn(Run(s0, actions).value, w, d) && d in Run(s0, actions).value.documents
    requires var phase := Run(s0, actions).value.tasks[w].phase; phase.Working? || phase.Inserting?
    ensures Run(s0, actions).value.documents[d] == Document(Fields(Processing, None), map[])
  {
    hide OneIngestion;
    hide Run;
    hide SequentialRun;
    assert SequentialInv(s0) by { InitInv(s0); }
    SequentialRunKeeps(s0, actions);
    assert Knows(Run(s0, actions).value.tasks[w], Run(s0, actions).value.documents[d]);
  }

  /** Processed one delivery at a time: when the commit that records a failure goes through, the document
      is failed with exactly the reason of the call's failure, which is of the third attempt or not
      trouble with a connection. */
  lemma FailureIsRecorded(s0: State, actions: seq<Action>, w: WorkerId, d: DocumentId,
                          outcome: CommitOutcome, g: Failure)
    requires Init(s0) && SequentialRun(s0, actions) && Run(s0, actions).Some?
    requires WorksOn(Run(s0, actions).value, w, d) && d in Run(s0, actions).value.documents
    requires Run(s0, actions).value.tasks[w].phase.MarkCommitting?
    requires Run(s0, actions).value.documents[d].chunks == map[] && outcome.Applied()
    ensures var s := Run(s0, actions).value;
            var task := s.tasks[w];
            && task.failure.Some? && (task.attempt == 3 || !ConnectionTrouble(task.failure.value))
            && Step(s, Act(w, Write(outcome, g))).Some?
            && var s' := Step(s, Act(w, Write(outcome, g))).value;
               && s'.documents[d] == Document(Fields(Failed, Some(FailureReason(task.failure.value))), map[])
               && s'.tasks[w].phase == Settling(Reject)
  {
    hide OneIngestion;
    hide Run;
    hide SequentialRun;
    hide ConnectionTrouble;
    hide FailureReason;
    hide Inv;
    assert SequentialInv(s0) by { InitInv(s0); }
    SequentialRunKeeps(s0, actions);
    var s := Run(s0, actions).value;
    var task := s.tasks[w];
    assert Knows(task, s.documents[d]);
    TaskOfInv(s, w);
    assert DocumentOf(s, task.tag) == Some(s.documents[d]);
    MarksFailed(task, s.documents[d], s.limit, outcome, g);
  }

  lemma MarksFailed(task: Task, doc: Document, limit: Limit, outcome: CommitOutcome, g: Failure)
    requires task.phase.MarkCommitting? && TaskOk(task, Some(doc), limit) && Knows(task, doc)
    requires doc.chunks == map[] && outcome.Applied()
    ensures RejectCause(task)
    ensures TaskStep(task, Some(doc), limit, Write(outcome, g))
         == Some((task.(phase := Settling(Reject)),
                  Some(Document(Fields(Failed, Some(FailureReason(task.failure.value))), map[]))))
  {
    hide ConnectionTrouble;
    hide FailureReason;
  }

  // ---- An acknowledged document is and stays completed ----

  predicate Finished(doc: Document) {
    doc.fields == COMPLETED && doc.chunks != map[]
  }

  predicate FinishedFor(s: State, t: Tag) {
    && t in s.broker.bodies && s.broker.bodies[t].Job?
    && s.broker.bodies[t].subject in s.documents && Finished(s.documents[s.broker.bodies[t].subject])
  }

  ghost predicate AckInv(s: State) {
    && SequentialInv(s)
    && (forall w :: w in s.tasks && s.tasks[w].phase == Settling(Ack) ==> FinishedFor(s, s.tasks[w].tag))
    && (forall t :: t in s.broker.acked ==> FinishedFor(s, t))
  }

  lemma TaskStepFinishes(task: Task, doc: Option<Document>, limit: Limit, e: Effect)
    requires TaskStep(task, doc, limit, e).Some? && TaskOk(task, doc, limit)
    requires doc.Some? ==> StatusOk(doc.value) && Knows(task, doc.value)
    ensures var (task', doc') := TaskStep(task, doc, limit, e).value;
            && (task'.phase == Settling(Ack) ==> doc'.Some? && Finished(doc'.value))
            && (doc.Some? && Finished(doc.value) ==> doc'.Some? && Finished(doc'.value))
  {
    hide OneIngestion;
    hide IsRetryable;
    hide Prepare;
    hide FailureReason;
  }

  lemma ActAcks(s: State, w: WorkerId, e: Effect)
    requires AckInv(s) && OneAtATime(s) && Step(s, Act(w, e)).Some?
    ensures AckInv(Step(s, Act(w, e)).value)
  {
    hide TaskStep;
    hide StatusOk;
    hide Knows;
    hide TaskOk;
    hide Inv;
    hide Finished;
    var s' := Step(s, Act(w, e)).value;
    ActSequential(s, w, e);
    var t := s.tasks[w].tag;
    var d := s.broker.bodies[t].subject;
    var doc := DocumentOf(s, t);
    assert TaskOk(s.tasks[w], doc, s.limit) by { TaskOfInv(s, w); }
    assert Active(s.tasks[w]) by { ActiveToAct(s.tasks[w], doc, s.limit, e); }
    assert WorksOn(s, w, d);
    TaskStepFinishes(s.tasks[w], doc, s.limit, e);
    TaskStepStays(s.tasks[w], doc, s.limit, e);
    forall u | FinishedFor(s, u) ensures FinishedFor(s', u) {
      if s.broker.bodies[u].subject == d { assert doc == Some(s.documents[d]); }
    }
  }

  lemma OtherAcks(s: State, a: Action)
    requires AckInv(s) && !a.Act? && Step(s, a).Some?
    ensures AckInv(Step(s, a).value)
  {
    hide ActStep;
    hide SequentialInv;
    hide CanDeliver;
    hide Finished;
    OtherSequential(s, a);
    var s' := Step(s, a).value;
    forall u | FinishedFor(s, u) ensures FinishedFor(s', u) {}
  }

  lemma AckStep(s: State, a: Action)
    requires AckInv(s) && OneAtATime(s) && Step(s, a).Some?
    ensures AckInv(Step(s, a).value)
  {
    hide Step;
    hide AckInv;
    hide OneAtATime;
    if a.Act? { ActAcks(s, a.worker, a.effect); } else { OtherAcks(s, a); }
  }

  /** Processed one delivery at a time: once any delivery of a document is acknowledged, the document
      is completed without a failure reason, with the chunks of one ingestion, and stays so. */
  lemma AcknowledgedIsCompleted(s: State, actions: seq<Action>, t: Tag)
    requires Init(s) && SequentialRun(s, actions) && Run(s, actions).Some? && t in Run(s, actions).value.broker.acked
    ensures var s' := Run(s, actions).value;
            && t in s'.broker.bodies && s'.broker.bodies[t].Job? && s'.broker.bodies[t].subject in s'.documents
            && s'.documents[s'.broker.bodies[t].subject].fields.status == Completed
            && s'.documents[s'.broker.bodies[t].subject].fields.reason == None
            && OneIngestion(s'.documents[s'.broker.bodies[t].subject].chunks, s'.limit)
  {
    hide OneIngestion;
    hide Step;
    hide OneAtATime;
    assert AckInv(s) by { InitAcks(s); }
    hide AckInv;
    forall u, a | AckInv(u) && OneAtATime(u) && Step(u, a).Some? ensures AckInv(Step(u, a).value) { AckStep(u, a); }
    KeepsWithin(Step, OneAtATime, AckInv, s, actions);
    AckedAreFinished(Run(s, actions).value, t);
  }

  lemma InitAcks(s: State)
    requires Init(s)
    ensures AckInv(s)
  {
    hide OneIngestion;
    InitInv(s);
  }

  lemma AckedAreFinished(s: State, t: Tag)
    requires AckInv(s) && t in s.broker.acked
    ensures FinishedFor(s, t) && OneIngestion(s.documents[s.broker.bodies[t].subject].chunks, s.limit)
  {
    hide OneIngestion;
    assert FinishedFor(s, t);
    assert DocumentOk(s.documents[s.broker.bodies[t].subject], s.limit);
  }

  // ---- Two workers on one document ----

  /** Document 0 while workers 0 and 1 each process a delivery of it. */
  function Two(limit: Limit, doc: Document, tasks: map<WorkerId, Task>): State {
    State(limit, map[0 := doc], Broker(map[0 := Job(0), 1 := Job(0)], {}, map[0 := 0, 1 := 1], {}, {}), tasks)
  }

  const BOTH_LOADING: map<WorkerId, Task> := map[0 := Task(0, 1, Loading, None), 1 := Task(1, 1, Loading, None)]
  const UPLOADED := Document(Fields(Pending, None), map[])

  lemma TwoStart(limit: Limit)
    ensures Reachable(Two(limit, UPLOADED, BOTH_LOADING))
  {
    hide Reachable;
    hide ActStep;
    var s0 := State(limit, map[], EMPTY, map[]);
    EmptyReachable(s0);
    ReachableStep(s0, Upload(0));
    var s1 := Step(s0, Upload(0)).value;
    ReachableStep(s1, Action.Publish(0, Job(0)));
    var s2 := Step(s1, Action.Publish(0, Job(0))).value;
    ReachableStep(s2, Action.Publish(1, Job(0)));
    var s3 := Step(s2, Action.Publish(1, Job(0))).value;
    ReachableStep(s3, Action.Deliver(0, 0));
    var s4 := Step(s3, Action.Deliver(0, 0)).value;
    ReachableStep(s4, Action.Deliver(1, 1));
    var s5 := Step(s4, Action.Deliver(1, 1)).value;
    assert s5.broker.ready == {} && s5.broker.bodies == map[0 := Job(0), 1 := Job(0)];
  }

  lemma EmptyReachable(s: State)
    requires s.documents == map[] && s.broker == EMPTY && s.tasks == map[]
    ensures Reachable(s)
  {
    StartReaches(Step, Init, s);
  }

  /** One of the two workers takes a step. */
  lemma OneActs(limit: Limit, doc: Document, tasks: map<WorkerId, Task>, w: WorkerId,
                e: Effect, doc': Document, task': Task)
    requires Reachable(Two(limit, doc, tasks)) && w < 2 && w in tasks && tasks[w].tag == w
    requires TaskStep(tasks[w], Some(doc), limit, e) == Some((task', Some(doc')))
    ensures Reachable(Two(limit, doc', tasks[w := task']))
  {
    hide Reachable;
    hide TaskStep;
    var s := Two(limit, doc, tasks);
    ReachableStep(s, Act(w, e));
    assert Step(s, Act(w, e)).value == Two(limit, doc', tasks[w := task']);
  }

  /** A worker loads a document without chunks and is about to mark it as processing. */
  lemma Begins(limit: Limit, doc: Document, tasks: map<WorkerId, Task>, w: WorkerId)
    requires Reachable(Two(limit, doc, tasks)) && doc.chunks == map[]
    requires w < 2 && w in tasks && tasks[w] == Task(w, 1, Loading, None)
    ensures Reachable(Two(limit, doc, tasks[w := Task(w, 1, Starting(doc.fields), None)]))
  {
    hide Reachable;
    hide Two;
    var t1 := Task(w, 1, Checking(doc.fields), None);
    OneActs(limit, doc, tasks, w, Query(None), doc, t1);
    var t2 := Task(w, 1, Starting(doc.fields), None);
    OneActs(limit, doc, tasks[w := t1], w, Query(None), doc, t2);
    assert tasks[w := t1][w := t2] == tasks[w := t2];
  }

  function FailureFields(f: Failure): Fields {
    Fields(Failed, Some(Truncate(FailureReason(f), 255)))
  }

  /** A worker fails for good and, having seen no chunks, is about to record it. */
  lemma GivesUp(limit: Limit, doc: Document, tasks: map<WorkerId, Task>, w: WorkerId, e: Effect, f: Failure)
    requires Reachable(Two(limit, doc, tasks)) && doc.chunks == map[] && !IsRetryable(f)
    requires w < 2 && w in tasks && tasks[w].tag == w
    requires TaskStep(tasks[w], Some(doc), limit, e) == Some((OnFailure(tasks[w], f), Some(doc)))
    ensures var judging := Task(w, tasks[w].attempt, MarkCommitting(doc.fields, FailureFields(f)), Some(f));
            Reachable(Two(limit, doc, tasks[w := judging]))
  {
    hide Reachable;
    hide Two;
    hide FailureReason;
    hide IsRetryable;
    var t1 := OnFailure(tasks[w], f);
    OneActs(limit, doc, tasks, w, e, doc, t1);
    var t2 := t1.(phase := MarkChecking(FailureReason(f), doc.fields));
    OneActs(limit, doc, tasks[w := t1], w, Query(None), doc, t2);
    assert tasks[w := t1][w := t2] == tasks[w := t2];
    var t3 := t1.(phase := MarkCommitting(doc.fields, FailureFields(f)));
    OneActs(limit, doc, tasks[w := t2], w, Query(None), doc, t3);
    assert tasks[w := t2][w := t3] == tasks[w := t3];
  }

  /** A worker that is about to mark the document ingests it without a failure. */
  lemma Ingests(limit: Limit, doc: Document, tasks: map<WorkerId, Task>, w: WorkerId, seen: Fields,
                extracted: string, vectors: seq<Vector>)
    requires Reachable(Two(limit, doc, tasks)) && doc.chunks == map[] && Prepare(extracted, vectors, limit).Ok?
    requires w < 2 && w in tasks && tasks[w] == Task(w, 1, Starting(seen), None)
    ensures var rows := Prepare(extracted, vectors, limit).value;
            rows != map[] &&
            Reachable(Two(limit, Document(Flush(Flush(doc.fields, seen, PROCESSING), PROCESSING, COMPLETED), rows),
                          tasks[w := Task(w, 1, Settling(Ack), None)]))
  {
    hide Reachable;
    hide Two;
    hide Prepare;
    hide IsRetryable;
    hide OneIngestion;
    hide TaskStep;
    var rows := Prepare(extracted, vectors, limit).value;
    PreparedRowsFit(extracted, vectors, limit);
    OneIngestionHasFirst(rows, limit);
    var d1 := Document(Flush(doc.fields, seen, PROCESSING), map[]);
    var t1 := Task(w, 1, Working, None);
    Marks(tasks[w], doc, seen, limit);
    OneActs(limit, doc, tasks, w, Write(Committed, NoExtractableText), d1, t1);
    var t2 := Task(w, 1, Inserting(rows), None);
    Parses(t1, d1, limit, extracted, vectors);
    OneActs(limit, d1, tasks[w := t1], w, Produce(extracted, vectors), d1, t2);
    assert tasks[w := t1][w := t2] == tasks[w := t2];
    Stores(limit, d1, tasks[w := t2], w, rows);
    var t4 := Task(w, 1, Settling(Ack), None);
    assert tasks[w := t2][w := t4] == tasks[w := t4];
  }

  lemma Marks(task: Task, doc: Document, seen: Fields, limit: Limit)
    requires task.phase == Starting(seen)
    ensures TaskStep(task, Some(doc), limit, Write(Committed, NoExtractableText))
         == Some((task.(phase := Working), Some(doc.(fields := Flush(doc.fields, seen, PROCESSING)))))
  {
  }

  lemma Parses(task: Task, doc: Document, limit: Limit, extracted: string, vectors: seq<Vector>)
    requires task.phase == Working && Prepare(extracted, vectors, limit).Ok?
    ensures TaskStep(task, Some(doc), limit, Produce(extracted, vectors))
         == Some((task.(phase := Inserting(Prepare(extracted, vectors, limit).value)), Some(doc)))
  {
    hide Prepare;
  }

  lemma Stores(limit: Limit, doc: Document, tasks: map<WorkerId, Task>, w: WorkerId, rows: map<nat, ChunkRow>)
    requires Reachable(Two(limit, doc, tasks)) && doc.chunks == map[]
    requires w < 2 && w in tasks && tasks[w] == Task(w, 1, Inserting(rows), None)
    ensures Reachable(Two(limit, Document(Flush(doc.fields, PROCESSING, COMPLETED), rows),
                          tasks[w := Task(w, 1, Settling(Ack), None)]))
  {
    hide Reachable;
    hide Two;
    hide IsRetryable;
    var ok := Write(Committed, NoExtractableText);
    assert map[] + rows == rows;
    var t3 := Task(w, 1, Completing, None);
    OneActs(limit, doc, tasks, w, ok, Document(doc.fields, rows), t3);
    var t4 := Task(w, 1, Settling(Ack), None);
    OneActs(limit, Document(doc.fields, rows), tasks[w := t3], w, ok,
            Document(Flush(doc.fields, PROCESSING, COMPLETED), rows), t4);
    assert tasks[w := t3][w := t4] == tasks[w := t4];
  }

  lemma TwoDocument(limit: Limit, doc: Document, tasks: map<WorkerId, Task>)
    requires Reachable(Two(limit, doc, tasks))
    ensures exists s :: Reachable(s) && 0 in s.documents && s.documents[0] == doc
  {
    hide Reachable;
    assert 0 in Two(limit, doc, tasks).documents;
  }

  /** Two deliveries of one document at the same time, for any text that can be ingested: one
      worker may record `failed` over the chunks the other stored. */
  lemma ConcurrentFailedWithChunks(limit: Limit, extracted: string, vectors: seq<Vector>)
    requires Prepare(extracted, vectors, limit).Ok?
    ensures exists s :: Reachable(s) && 0 in s.documents
                        && s.documents[0].fields.status == Failed && s.documents[0].chunks != map[]
  {
    hide Reachable;
    hide Prepare;
    hide Two;
    hide FailureReason;
    var f := OtherFailure("OSError");
    var rows := Prepare(extracted, vectors, limit).value;
    TwoStart(limit);
    GivesUp(limit, UPLOADED, BOTH_LOADING, 0, Query(Some(f)), f);
    var judging := Task(0, 1, MarkCommitting(UPLOADED.fields, FailureFields(f)), Some(f));
    Begins(limit, UPLOADED, BOTH_LOADING[0 := judging], 1);
    var both := BOTH_LOADING[0 := judging][1 := Task(1, 1, Starting(UPLOADED.fields), None)];
    Ingests(limit, UPLOADED, both, 1, UPLOADED.fields, extracted, vectors);
    both := both[1 := Task(1, 1, Settling(Ack), None)];
    var last := Document(FailureFields(f), rows);
    OneActs(limit, Document(COMPLETED, rows), both, 0, Write(Committed, f), last, judging.(phase := Settling(Reject)));
    TwoDocument(limit, last, both[0 := judging.(phase := Settling(Reject))]);
  }

  /** And a completed document may keep the other worker's failure reason: a session that loaded
      no reason never writes that column. */
  lemma ConcurrentCompletedWithReason(limit: Limit, extracted: string, vectors: seq<Vector>)
    requires Prepare(extracted, vectors, limit).Ok?
    ensures exists s :: Reachable(s) && 0 in s.documents
                        && s.documents[0].fields.status == Completed && s.documents[0].fields.reason.Some?
  {
    hide Reachable;
    hide Prepare;
    hide Two;
    hide FailureReason;
    var f := OtherFailure("OSError");
    TwoStart(limit);
    Begins(limit, UPLOADED, BOTH_LOADING, 0);
    var starting := Task(0, 1, Starting(UPLOADED.fields), None);
    GivesUp(limit, UPLOADED, BOTH_LOADING[0 := starting], 1, Query(Some(f)), f);
    var judging := Task(1, 1, MarkCommitting(UPLOADED.fields, FailureFields(f)), Some(f));
    var both := BOTH_LOADING[0 := starting][1 := judging];
    var given := Document(FailureFields(f), map[]);
    OneActs(limit, UPLOADED, both, 1, Write(Committed, f), given, judging.(phase := Settling(Reject)));
    both := both[1 := judging.(phase := Settling(Reject))];
    Ingests(limit, given, both, 0, UPLOADED.fields, extracted, vectors);
    var rows := Prepare(extracted, vectors, limit).value;
    TwoDocument(limit, Document(Fields(Completed, FailureFields(f).reason), rows),
                both[0 := Task(0, 1, Settling(Ack), None)]);
  }
}
