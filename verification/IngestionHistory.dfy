/** Where the stored chunks come from and why deliveries were dead-lettered, told by the actions of
    the run itself. */
module IngestionHistory {
  import opened Wrappers
  import opened Executions
  import opened Chunking
  import opened Failures
  import opened Brokers
  import opened Ingestion
  import opened IngestionSafety

  // ---- The one step that stores chunks ----

  lemma WritesChunks(task: Task, doc: Option<Document>, limit: Limit, e: Effect)
    requires TaskStep(task, doc, limit, e).Some? && TaskOk(task, doc, limit)
             && doc.Some? && DocumentOk(doc.value, limit)
    ensures var doc' := TaskStep(task, doc, limit, e).value.1;
            && doc'.Some?
            && (doc'.value.chunks != doc.value.chunks ==>
                  && doc.value.chunks == map[] && task.phase == Inserting(doc'.value.chunks)
                  && e.Write? && e.outcome.Applied())
  {
    hide OneIngestion;
    hide IsRetryable;
    hide Prepare;
    hide FailureReason;
    if task.phase.Inserting? {
      OneIngestionHasFirst(task.phase.rows, limit);
      if doc.value.chunks == map[] {
        assert doc.value.chunks + task.phase.rows == task.phase.rows;
      } else {
        OneIngestionHasFirst(doc.value.chunks, limit);
      }
    }
  }

  /** In action `a` the worker's bulk insert of `rows` into document `d` takes effect. */
  predicate Inserts(s: State, a: Action, d: DocumentId, rows: map<nat, ChunkRow>) {
    && a.Act? && a.effect.Write? && a.effect.outcome.Applied() && a.worker in s.tasks
    && s.tasks[a.worker].phase == Inserting(rows)
    && s.tasks[a.worker].tag in s.broker.bodies && s.broker.bodies[s.tasks[a.worker].tag] == Job(d)
  }

  /** Whatever the other workers do, the chunks of a document change in one kind of step only: none
      were stored, one worker's bulk insert takes effect, and exactly its rows are stored. */
  lemma ChunksAreWrittenOnce(s: State, a: Action, d: DocumentId)
    requires Reachable(s) && Step(s, a).Some? && d in s.documents
    ensures var s' := Step(s, a).value;
            && d in s'.documents
            && (s'.documents[d].chunks != s.documents[d].chunks ==>
                  s.documents[d].chunks == map[] && Inserts(s, a, d, s'.documents[d].chunks))
  {
    hide Reachable;
    hide TaskStep;
    hide TaskOk;
    hide DocumentOk;
    ReachableInv(s);
    if a.Act? {
      var task := s.tasks[a.worker];
      assert TaskFits(s, task);
      if s.broker.bodies[task.tag].subject == d { WritesChunks(task, Some(s.documents[d]), s.limit, a.effect); }
    }
  }

  /** Over every continuation: stored chunks stay as they are, and an acknowledged or dead-lettered
      delivery stays where it is. */
  lemma StoredForGood(s: State, actions: seq<Action>)
    requires Reachable(s) && Run(s, actions).Some?
    ensures var s' := Run(s, actions).value;
            && (forall d :: d in s.documents && s.documents[d].chunks != map[] ==>
                              d in s'.documents && s'.documents[d].chunks == s.documents[d].chunks)
            && s.broker.acked <= s'.broker.acked && s.broker.failed <= s'.broker.failed
  {
    hide Reachable;
    hide Run;
    hide Inv;
    ReachableInv(s);
    RunInv(s, actions);
  }

  // ---- The run behind a state ----

  function StateAt(s0: State, actions: seq<Action>, i: nat): Option<State>
    requires i <= |actions|
  {
    Run(s0, actions[..i])
  }

  /** At action `i` the worker of `task`, then still working on document `d`, prepared `rows` from the
      text and the vectors of its own call, and became `task`. */
  ghost predicate PreparedAt(s0: State, actions: seq<Action>, i: nat, d: DocumentId, task: Task, w: WorkerId)
    requires i < |actions|
  {
    var s := StateAt(s0, actions, i);
    && s.Some? && actions[i].Act? && actions[i].worker == w && actions[i].effect.Produce? && w in s.value.tasks
    && s.value.tasks[w].phase.Working? && task.phase.Inserting?
    && task == s.value.tasks[w].(phase := task.phase)
    && task.tag in s.value.broker.bodies && s.value.broker.bodies[task.tag] == Job(d)
    && Prepare(actions[i].effect.extracted, actions[i].effect.vectors, s0.limit) == Ok(task.phase.rows)
  }

  ghost predicate Prepared(s0: State, actions: seq<Action>, d: DocumentId, task: Task, w: WorkerId) {
    exists i :: 0 <= i < |actions| && PreparedAt(s0, actions, i, d, task, w)
  }

  /** One call of one worker prepared `chunks` at action `i` and, with nothing stored yet, inserted them
      at action `j`. */
  ghost predicate IngestedAt(s0: State, actions: seq<Action>, i: nat, j: nat, d: DocumentId, chunks: map<nat, ChunkRow>)
    requires i < j < |actions|
  {
    var s := StateAt(s0, actions, j);
    && s.Some? && Inserts(s.value, actions[j], d, chunks)
    && d in s.value.documents && s.value.documents[d].chunks == map[]
    && PreparedAt(s0, actions, i, d, s.value.tasks[actions[j].worker], actions[j].worker)
  }

  ghost predicate Ingested(s0: State, actions: seq<Action>, d: DocumentId, chunks: map<nat, ChunkRow>) {
    exists i, j :: 0 <= i < j < |actions| && IngestedAt(s0, actions, i, j, d, chunks)
  }

  lemma SamePast(s0: State, past: seq<Action>, a: Action, i: nat)
    requires i <= |past|
    ensures StateAt(s0, past + [a], i) == StateAt(s0, past, i)
    ensures i < |past| ==> (past + [a])[i] == past[i]
    ensures StateAt(s0, past, |past|) == Run(s0, past)
  {
    assert (past + [a])[..i] == past[..i];
    assert past[..|past|] == past;
  }

  lemma PreparedBefore(s0: State, past: seq<Action>, a: Action, d: DocumentId, task: Task, w: WorkerId)
    requires Prepared(s0, past, d, task, w)
    ensures Prepared(s0, past + [a], d, task, w)
  {
    hide StateAt;
    hide Prepare;
    var i :| 0 <= i < |past| && PreparedAt(s0, past, i, d, task, w);
    SamePast(s0, past, a, i);
    assert PreparedAt(s0, past + [a], i, d, task, w);
  }

  lemma IngestedBefore(s0: State, past: seq<Action>, a: Action, d: DocumentId, chunks: map<nat, ChunkRow>)
    requires Ingested(s0, past, d, chunks)
    ensures Ingested(s0, past + [a], d, chunks)
  {
    hide StateAt;
    hide Prepare;
    hide Inserts;
    var i, j :| 0 <= i < j < |past| && IngestedAt(s0, past, i, j, d, chunks);
    SamePast(s0, past, a, i);
    SamePast(s0, past, a, j);
    assert IngestedAt(s0, past + [a], i, j, d, chunks);
  }

  lemma BecomesInserting(task: Task, doc: Option<Document>, limit: Limit, e: Effect)
    requires TaskStep(task, doc, limit, e).Some? && TaskStep(task, doc, limit, e).value.0.phase.Inserting?
    ensures var task' := TaskStep(task, doc, limit, e).value.0;
            && task.phase.Working? && task' == task.(phase := task'.phase) && e.Produce?
            && Prepare(e.extracted, e.vectors, limit) == Ok(task'.phase.rows)
  {
    hide IsRetryable;
    hide Prepare;
    hide FailureReason;
  }

  /** Every worker about to insert has prepared its rows itself. */
  ghost predicate InsertersPrepared(s0: State, past: seq<Action>, s: State) {
    && s.limit == s0.limit
    && forall w, d :: (w in s.tasks && s.tasks[w].phase.Inserting? && s.tasks[w].tag in s.broker.bodies
                       && s.broker.bodies[s.tasks[w].tag] == Job(d)) ==> Prepared(s0, past, d, s.tasks[w], w)
  }

  lemma InsertersStep(s0: State, past: seq<Action>, s: State, a: Action)
    requires Inv(s) && Run(s0, past) == Some(s) && InsertersPrepared(s0, past, s) && Step(s, a).Some?
    ensures InsertersPrepared(s0, past + [a], Step(s, a).value)
  {
    hide Run;
    hide TaskStep;
    hide Prepared;
    hide TaskOk;
    hide CanDeliver;
    var s' := Step(s, a).value;
    forall w, d | w in s'.tasks && s'.tasks[w].phase.Inserting? && s'.tasks[w].tag in s'.broker.bodies
                  && s'.broker.bodies[s'.tasks[w].tag] == Job(d)
      ensures Prepared(s0, past + [a], d, s'.tasks[w], w)
    {
      if w in s.tasks && s'.tasks[w] == s.tasks[w] {
        assert TaskFits(s, s.tasks[w]);
        PreparedBefore(s0, past, a, d, s.tasks[w], w);
      } else {
        PreparedNow(s0, past, s, a, w, d);
      }
    }
  }

  lemma PreparedNow(s0: State, past: seq<Action>, s: State, a: Action, w: WorkerId, d: DocumentId)
    requires Run(s0, past) == Some(s) && s.limit == s0.limit && Step(s, a).Some?
    requires var s' := Step(s, a).value;
             && w in s'.tasks && s'.tasks[w].phase.Inserting? && (w in s.tasks ==> s'.tasks[w] != s.tasks[w])
             && s'.tasks[w].tag in s'.broker.bodies && s'.broker.bodies[s'.tasks[w].tag] == Job(d)
    ensures Prepared(s0, past + [a], d, Step(s, a).value.tasks[w], w)
  {
    hide Run;
    hide TaskStep;
    hide CanDeliver;
    var task := s.tasks[w];
    BecomesInserting(task, DocumentOf(s, task.tag), s.limit, a.effect);
    SamePast(s0, past, a, |past|);
    assert PreparedAt(s0, past + [a], |past|, d, Step(s, a).value.tasks[w], w);
  }

  lemma InsertersHistory(s0: State, actions: seq<Action>)
    requires Init(s0) && Run(s0, actions).Some?
    ensures InsertersPrepared(s0, actions, Run(s0, actions).value)
  {
    hide Step;
    hide Init;
    hide InsertersPrepared;
    hide Inv;
    assert InsertersPrepared(s0, [], s0) by { InsertersStart(s0); }
    forall past, t, a | Execute(Step, s0, past) == Some(t) && InsertersPrepared(s0, past, t) && Step(t, a).Some?
      ensures InsertersPrepared(s0, past + [a], Step(t, a).value)
    {
      PastInv(s0, past);
      InsertersStep(s0, past, t, a);
    }
    KeepsHistory(Step, (past, t) => InsertersPrepared(s0, past, t), s0, actions);
  }

  lemma InsertersStart(s0: State)
    requires Init(s0)
    ensures InsertersPrepared(s0, [], s0)
  {
  }

  lemma PastInv(s0: State, past: seq<Action>)
    requires Init(s0) && Run(s0, past).Some?
    ensures Inv(Run(s0, past).value) && Reachable(Run(s0, past).value)
  {
    hide Step;
    hide Inv;
    hide Later;
    InitInv(s0);
    RunInv(s0, past);
  }

  /** A stored document has the chunks it started with, or those of one call of the run. */
  ghost predicate ChunksExplained(s0: State, past: seq<Action>, s: State) {
    forall d :: d in s.documents && s.documents[d].chunks != map[] ==>
                  || (d in s0.documents && s.documents[d].chunks == s0.documents[d].chunks)
                  || Ingested(s0, past, d, s.documents[d].chunks)
  }

  lemma ChunksExplainedStep(s0: State, past: seq<Action>, s: State, a: Action)
    requires Init(s0) && Run(s0, past) == Some(s) && ChunksExplained(s0, past, s) && Step(s, a).Some?
    ensures ChunksExplained(s0, past + [a], Step(s, a).value)
  {
    hide Run;
    hide Step;
    hide Init;
    hide Ingested;
    hide Reachable;
    PastInv(s0, past);
    var s' := Step(s, a).value;
    forall d | d in s'.documents && s'.documents[d].chunks != map[]
      ensures || (d in s0.documents && s'.documents[d].chunks == s0.documents[d].chunks)
              || Ingested(s0, past + [a], d, s'.documents[d].chunks)
    {
      NewDocumentIsEmpty(s, a, d);
      ChunksAreWrittenOnce(s, a, d);
      if s'.documents[d].chunks != s.documents[d].chunks {
        IngestedNow(s0, past, s, a, d, s'.documents[d].chunks);
      } else if Ingested(s0, past, d, s.documents[d].chunks) {
        IngestedBefore(s0, past, a, d, s.documents[d].chunks);
      }
    }
  }

  lemma NewDocumentIsEmpty(s: State, a: Action, d: DocumentId)
    requires Step(s, a).Some? && d in Step(s, a).value.documents && Step(s, a).value.documents[d].chunks != map[]
    ensures d in s.documents
  {
    if a.Act? { NewByAct(s, a, d); }
  }

  lemma NewByAct(s: State, a: Action, d: DocumentId)
    requires a.Act? && Step(s, a).Some? && d in Step(s, a).value.documents
    ensures d in s.documents
  {
    hide IsRetryable;
    hide Prepare;
    hide FailureReason;
  }

  lemma IngestedNow(s0: State, past: seq<Action>, s: State, a: Action, d: DocumentId, chunks: map<nat, ChunkRow>)
    requires Init(s0) && Run(s0, past) == Some(s) && Inserts(s, a, d, chunks)
    requires d in s.documents && s.documents[d].chunks == map[]
    ensures Ingested(s0, past + [a], d, chunks)
  {
    hide Run;
    hide Init;
    hide PreparedAt;
    InsertersHistory(s0, past);
    assert Prepared(s0, past, d, s.tasks[a.worker], a.worker);
    var i :| 0 <= i < |past| && PreparedAt(s0, past, i, d, s.tasks[a.worker], a.worker);
    SamePast(s0, past, a, |past|);
    assert PreparedAt(s0, past + [a], i, d, s.tasks[a.worker], a.worker)
    by { SamePreparation(s0, past, a, i, d, s.tasks[a.worker], a.worker); }
    assert IngestedAt(s0, past + [a], i, |past|, d, chunks);
  }

  lemma SamePreparation(s0: State, past: seq<Action>, a: Action, i: nat, d: DocumentId, task: Task, w: WorkerId)
    requires i < |past| && PreparedAt(s0, past, i, d, task, w)
    ensures PreparedAt(s0, past + [a], i, d, task, w)
  {
    hide StateAt;
    SamePast(s0, past, a, i);
  }

  /** With any number of workers, crashes and lost replies, over every run: the chunks of a document
      are those it started with, or none, or exactly the rows that one call of one worker prepared
      from its own text and its own vectors and then inserted while nothing was stored. */
  lemma StoredByOneCall(s0: State, actions: seq<Action>, d: DocumentId)
    requires Init(s0) && Run(s0, actions).Some? && d in Run(s0, actions).value.documents
    ensures var chunks := Run(s0, actions).value.documents[d].chunks;
            || chunks == map[]
            || (d in s0.documents && chunks == s0.documents[d].chunks)
            || Ingested(s0, actions, d, chunks)
  {
    hide Step;
    hide Init;
    hide ChunksExplained;
    assert ChunksExplained(s0, [], s0) by { ExplainedStart(s0); }
    forall past, t, a | Execute(Step, s0, past) == Some(t) && ChunksExplained(s0, past, t) && Step(t, a).Some?
      ensures ChunksExplained(s0, past + [a], Step(t, a).value)
    {
      ChunksExplainedStep(s0, past, t, a);
    }
    KeepsHistory(Step, (past, t) => ChunksExplained(s0, past, t), s0, actions);
    Explains(s0, actions, Run(s0, actions).value, d);
  }

  lemma ExplainedStart(s0: State)
    ensures ChunksExplained(s0, [], s0)
  {
  }

  lemma Explains(s0: State, actions: seq<Action>, s: State, d: DocumentId)
    requires ChunksExplained(s0, actions, s) && d in s.documents
    ensures || s.documents[d].chunks == map[]
            || (d in s0.documents && s.documents[d].chunks == s0.documents[d].chunks)
            || Ingested(s0, actions, d, s.documents[d].chunks)
  {
  }

  // ---- A lost race ----

  /** The worker whose bulk insert hits chunks that are already there cannot commit it. Refused by the
      unique constraint, it does not retry: finding the chunks, it commits the document as completed
      and acknowledges its delivery. */
  lemma LoserReconciles(s: State, w: WorkerId, d: DocumentId, origin: Origin, name: string, g: Failure)
    requires Reachable(s) && w in s.tasks && s.tasks[w].phase.Inserting?
    requires s.tasks[w].tag in s.broker.bodies && s.broker.bodies[s.tasks[w].tag] == Job(d)
    requires d in s.documents && s.documents[d].chunks != map[]
    ensures var violation := DatabaseFailure(false, Some("23505"), origin, name);
            && (forall outcome :: Step(s, Act(w, Write(outcome, violation))).Some? <==> outcome == Refused)
            && var end := Run(s, [Act(w, Write(Refused, violation)), Act(w, Query(None)), Act(w, Query(None)),
                                  Act(w, Write(Committed, g))]);
               && end.Some? && w in end.value.tasks && end.value.tasks[w].phase == Settling(Ack)
               && end.value.documents == s.documents[d := Document(COMPLETED, s.documents[d].chunks)]
  {
    hide Reachable;
    hide TaskStep;
    hide OneIngestion;
    hide IsRetryable;
    hide FailureReason;
    hide TaskOk;
    hide DocumentOk;
    var task, doc := s.tasks[w], s.documents[d];
    LoserFits(s, w, d);
    var violation := DatabaseFailure(false, Some("23505"), origin, name);
    LoserSteps(task, doc, s.limit, violation, g) by { UniqueViolationIsTerminal(origin, name); }
    var reason := FailureReason(violation);
    var next := COMPLETED;
    var t1 := task.(phase := MarkLoading(reason), failure := Some(violation));
    var t2 := t1.(phase := MarkChecking(reason, doc.fields));
    var t3 := t1.(phase := MarkCommitting(doc.fields, next));
    var t4 := t1.(phase := Settling(Ack));
    var last := Document(COMPLETED, doc.chunks);
    var s1 := s.(tasks := s.tasks[w := t1]);
    var s2 := s.(tasks := s.tasks[w := t2]);
    var s3 := s.(tasks := s.tasks[w := t3]);
    var s4 := s.(tasks := s.tasks[w := t4], documents := s.documents[d := last]);
    assert s.documents[d := doc] == s.documents;
    assert s1.tasks[w := t2] == s2.tasks && s2.tasks[w := t3] == s3.tasks && s3.tasks[w := t4] == s4.tasks;
    FourSteps(s, s1, s2, s3, s4, Act(w, Write(Refused, violation)), Act(w, Query(None)), Act(w, Query(None)),
              Act(w, Write(Committed, g)));
  }

  lemma LoserFits(s: State, w: WorkerId, d: DocumentId)
    requires Reachable(s) && w in s.tasks && s.tasks[w].tag in s.broker.bodies && d in s.documents
    requires s.broker.bodies[s.tasks[w].tag] == Job(d)
    ensures TaskOk(s.tasks[w], Some(s.documents[d]), s.limit) && DocumentOk(s.documents[d], s.limit)
  {
    hide Reachable;
    hide TaskOk;
    hide DocumentOk;
    ReachableInv(s);
    assert TaskFits(s, s.tasks[w]);
  }

  lemma LoserSteps(task: Task, doc: Document, limit: Limit, violation: Failure, g: Failure)
    requires task.phase.Inserting? && doc.chunks != map[] && !IsRetryable(violation)
    requires TaskOk(task, Some(doc), limit) && DocumentOk(doc, limit)
    ensures forall outcome :: TaskStep(task, Some(doc), limit, Write(outcome, violation)).Some? <==> outcome == Refused
    ensures var reason := FailureReason(violation);
            var t1 := task.(phase := MarkLoading(reason), failure := Some(violation));
            var t2 := t1.(phase := MarkChecking(reason, doc.fields));
            var t3 := t1.(phase := MarkCommitting(doc.fields, COMPLETED));
            && TaskStep(task, Some(doc), limit, Write(Refused, violation)) == Some((t1, Some(doc)))
            && TaskStep(t1, Some(doc), limit, Query(None)) == Some((t2, Some(doc)))
            && TaskStep(t2, Some(doc), limit, Query(None)) == Some((t3, Some(doc)))
            && TaskStep(t3, Some(doc), limit, Write(Committed, g))
               == Some((t1.(phase := Settling(Ack)), Some(Document(COMPLETED, doc.chunks))))
  {
    hide OneIngestion;
    hide IsRetryable;
    hide FailureReason;
    OneIngestionHasFirst(task.phase.rows, limit);
    OneIngestionHasFirst(doc.chunks, limit);
  }

  lemma FourSteps(s: State, s1: State, s2: State, s3: State, s4: State, a: Action, b: Action, c: Action, e: Action)
    requires Step(s, a) == Some(s1) && Step(s1, b) == Some(s2) && Step(s2, c) == Some(s3) && Step(s3, e) == Some(s4)
    ensures Run(s, [a, b, c, e]) == Some(s4)
  {
    hide Step;
    assert [a, b, c, e][1..] == [b, c, e] && [b, c, e][1..] == [c, e] && [c, e][1..] == [e] && [e][1..] == [];
    assert Execute(Step, s3, [e]) == Execute(Step, s4, []);
    assert Execute(Step, s2, [c, e]) == Execute(Step, s3, [e]);
    assert Execute(Step, s1, [b, c, e]) == Execute(Step, s2, [c, e]);
  }

  // ---- A delivery stays where it is while its call works or waits ----

  /** Until its call settles it or its connection goes, a delivery stays unacknowledged with the worker
      that holds it, in particular through every retry wait. */
  lemma DeliveryIsHeld(s: State, a: Action, w: WorkerId, t: Tag)
    requires Reachable(s) && Step(s, a).Some?
    requires t in s.broker.unacked && s.broker.unacked[t] == w && a != Disconnect(w) && a != Crash(w)
    ensures w in s.tasks && s.tasks[w].tag == t
    ensures var b' := Step(s, a).value.broker;
            (t in b'.unacked && b'.unacked[t] == w) || (a.Settle? && a.worker == w && s.tasks[w].phase.Settling?)
  {
    hide Reachable;
    hide ActStep;
    hide OneIngestion;
    ReachableInv(s);
    if a.Act? { ActKeepsBroker(s, a); } else { InExactlyOnePlace(s.broker, t); }
  }

  /** Over every run in which the worker neither settles nor loses its connection. */
  lemma {:induction false} HeldThroughout(s: State, actions: seq<Action>, w: WorkerId, t: Tag)
    requires Reachable(s) && Run(s, actions).Some? && t in s.broker.unacked && s.broker.unacked[t] == w
    requires forall a :: a in actions ==> a != Disconnect(w) && a != Crash(w) && !(a.Settle? && a.worker == w)
    ensures var b' := Run(s, actions).value.broker; t in b'.unacked && b'.unacked[t] == w
    decreases |actions|
  {
    hide Reachable;
    hide Step;
    if actions != [] {
      DeliveryIsHeld(s, actions[0], w, t);
      ReachableStep(s, actions[0]);
      HeldThroughout(Step(s, actions[0]).value, actions[1..], w, t);
    }
  }

  // ---- Why a delivery was dead-lettered ----

  /** At action `i` the worker of `task` looked for its document, found none, and became `task`. */
  ghost predicate NotFoundAt(s0: State, actions: seq<Action>, i: nat, task: Task, w: WorkerId)
    requires i < |actions|
  {
    var s := StateAt(s0, actions, i);
    && s.Some? && actions[i] == Act(w, Query(None)) && w in s.value.tasks && s.value.tasks[w].phase.Loading?
    && task == s.value.tasks[w].(phase := Settling(Reject), failure := None)
    && task.tag in s.value.broker.bodies && s.value.broker.bodies[task.tag].Job?
    && s.value.broker.bodies[task.tag].subject !in s.value.documents
  }

  ghost predicate NotFound(s0: State, actions: seq<Action>, task: Task, w: WorkerId) {
    exists i :: 0 <= i < |actions| && NotFoundAt(s0, actions, i, task, w)
  }

  /** At action `j` the worker that held `t` rejected it: its handler had found no document before, or
      had failed for good. */
  ghost predicate RejectedAt(s0: State, actions: seq<Action>, j: nat, t: Tag)
    requires j < |actions|
  {
    var s := StateAt(s0, actions, j);
    && s.Some? && actions[j].Settle? && actions[j].effective && actions[j].worker in s.value.tasks
    && var w := actions[j].worker;
       var task := s.value.tasks[w];
       && task.tag == t && task.phase == Settling(Reject)
       && t in s.value.broker.unacked && s.value.broker.unacked[t] == w
       && (RejectCause(task) || NotFound(s0, actions[..j], task, w))
  }

  ghost predicate Rejected(s0: State, actions: seq<Action>, t: Tag) {
    exists j :: 0 <= j < |actions| && RejectedAt(s0, actions, j, t)
  }

  lemma NotFoundBefore(s0: State, past: seq<Action>, a: Action, task: Task, w: WorkerId)
    requires NotFound(s0, past, task, w)
    ensures NotFound(s0, past + [a], task, w)
  {
    hide StateAt;
    var i :| 0 <= i < |past| && NotFoundAt(s0, past, i, task, w);
    SamePast(s0, past, a, i);
    assert NotFoundAt(s0, past + [a], i, task, w);
  }

  lemma RejectedBefore(s0: State, past: seq<Action>, a: Action, t: Tag)
    requires Rejected(s0, past, t)
    ensures Rejected(s0, past + [a], t)
  {
    hide StateAt;
    hide NotFound;
    var j :| 0 <= j < |past| && RejectedAt(s0, past, j, t);
    SamePast(s0, past, a, j);
    assert (past + [a])[..j] == past[..j];
    assert RejectedAt(s0, past + [a], j, t);
  }

  /** Every call about to reject without a recorded failure has looked for its document in vain. */
  ghost predicate QuietRejectsExplained(s0: State, past: seq<Action>, s: State) {
    forall w :: (w in s.tasks && s.tasks[w].phase == Settling(Reject) && s.tasks[w].failure.None?
                 && s.tasks[w].tag in s.broker.bodies && s.broker.bodies[s.tasks[w].tag].Job?)
                ==> NotFound(s0, past, s.tasks[w], w)
  }

  lemma QuietRejectsStep(s0: State, past: seq<Action>, s: State, a: Action)
    requires Inv(s) && Run(s0, past) == Some(s) && QuietRejectsExplained(s0, past, s) && Step(s, a).Some?
    ensures QuietRejectsExplained(s0, past + [a], Step(s, a).value)
  {
    hide Run;
    hide TaskStep;
    hide NotFound;
    hide TaskOk;
    hide CanDeliver;
    var s' := Step(s, a).value;
    forall w | w in s'.tasks && s'.tasks[w].phase == Settling(Reject) && s'.tasks[w].failure.None?
               && s'.tasks[w].tag in s'.broker.bodies && s'.broker.bodies[s'.tasks[w].tag].Job?
      ensures NotFound(s0, past + [a], s'.tasks[w], w)
    {
      if w in s.tasks && s'.tasks[w] == s.tasks[w] {
        assert TaskFits(s, s.tasks[w]);
        NotFoundBefore(s0, past, a, s.tasks[w], w);
      } else {
        NotFoundNow(s0, past, s, a, w);
      }
    }
  }

  lemma NotFoundNow(s0: State, past: seq<Action>, s: State, a: Action, w: WorkerId)
    requires Inv(s) && Run(s0, past) == Some(s) && Step(s, a).Some?
    requires var s' := Step(s, a).value;
             && w in s'.tasks && s'.tasks[w].phase == Settling(Reject) && s'.tasks[w].failure.None?
             && (w in s.tasks ==> s'.tasks[w] != s.tasks[w])
             && s'.tasks[w].tag in s'.broker.bodies && s'.broker.bodies[s'.tasks[w].tag].Job?
    ensures NotFound(s0, past + [a], Step(s, a).value.tasks[w], w)
  {
    hide Run;
    hide TaskStep;
    hide CanDeliver;
    hide TaskOk;
    var task := s.tasks[w];
    var doc := DocumentOf(s, task.tag);
    assert TaskFits(s, task);
    RejectedWithoutFailure(task, doc, s.limit, a.effect);
    NotFoundTask(task, s.limit);
    SamePast(s0, past, a, |past|);
    assert NotFoundAt(s0, past + [a], |past|, Step(s, a).value.tasks[w], w);
  }

  lemma NotFoundTask(task: Task, limit: Limit)
    requires task.phase.Loading?
    ensures TaskStep(task, None, limit, Query(None)) == Some((task.(phase := Settling(Reject), failure := None), None))
  {
  }

  lemma QuietRejectsHistory(s0: State, actions: seq<Action>)
    requires Init(s0) && Run(s0, actions).Some?
    ensures QuietRejectsExplained(s0, actions, Run(s0, actions).value)
  {
    hide Step;
    hide Init;
    hide QuietRejectsExplained;
    hide Inv;
    assert QuietRejectsExplained(s0, [], s0) by { QuietRejectsStart(s0); }
    forall past, t, a | Execute(Step, s0, past) == Some(t) && QuietRejectsExplained(s0, past, t) && Step(t, a).Some?
      ensures QuietRejectsExplained(s0, past + [a], Step(t, a).value)
    {
      PastInv(s0, past);
      QuietRejectsStep(s0, past, t, a);
    }
    KeepsHistory(Step, (past, t) => QuietRejectsExplained(s0, past, t), s0, actions);
  }

  lemma QuietRejectsStart(s0: State)
    requires Init(s0)
    ensures QuietRejectsExplained(s0, [], s0)
  {
  }

  ghost predicate DeadLettersExplained(s0: State, past: seq<Action>, s: State) {
    forall t :: t in s.broker.failed ==>
                  t in s.broker.bodies && (s.broker.bodies[t].Malformed? || Rejected(s0, past, t))
  }

  lemma DeadLettersStep(s0: State, past: seq<Action>, s: State, a: Action)
    requires Init(s0) && Run(s0, past) == Some(s) && DeadLettersExplained(s0, past, s) && Step(s, a).Some?
    ensures DeadLettersExplained(s0, past + [a], Step(s, a).value)
  {
    hide Run;
    hide Step;
    hide Init;
    hide Rejected;
    hide Reachable;
    hide Inv;
    PastInv(s0, past);
    StepInv(s, a);
    var s' := Step(s, a).value;
    forall t | t in s'.broker.failed
      ensures t in s'.broker.bodies && (s'.broker.bodies[t].Malformed? || Rejected(s0, past + [a], t))
    {
      if t in s.broker.failed {
        if Rejected(s0, past, t) { RejectedBefore(s0, past, a, t); }
      } else {
        DeadLetteredForCause(s, a, t);
        if s.broker.bodies[t].Job? { RejectedNow(s0, past, s, a, t); }
      }
    }
  }

  lemma RejectedNow(s0: State, past: seq<Action>, s: State, a: Action, t: Tag)
    requires Init(s0) && Run(s0, past) == Some(s) && Step(s, a).Some? && a.Settle? && a.effective
    requires a.worker in s.tasks && s.tasks[a.worker].tag == t && t in s.broker.bodies && s.broker.bodies[t].Job?
    requires t !in s.broker.failed && t in Step(s, a).value.broker.failed
    requires s.tasks[a.worker].failure.None? || RejectCause(s.tasks[a.worker])
    ensures Rejected(s0, past + [a], t)
  {
    hide Run;
    hide Init;
    hide NotFound;
    hide Conserved;
    SamePast(s0, past, a, |past|);
    assert (past + [a])[..|past|] == past;
    QuietRejectsHistory(s0, past);
    assert RejectedAt(s0, past + [a], |past|, t);
  }

  /** Over every run: a delivery in the failed queue had a malformed body, or was rejected by the worker
      that held it after its handler had looked for the document and found none, or after its handler
      failed on the third attempt or with an error that is not retried. */
  lemma EveryDeadLetterHasItsCause(s0: State, actions: seq<Action>, t: Tag)
    requires Init(s0) && Run(s0, actions).Some? && t in Run(s0, actions).value.broker.failed
    ensures var b := Run(s0, actions).value.broker;
            t in b.bodies && (b.bodies[t].Malformed? || Rejected(s0, actions, t))
  {
    hide Step;
    hide Init;
    hide Rejected;
    assert DeadLettersExplained(s0, [], s0) by { DeadLettersStart(s0); }
    forall past, u, a | Execute(Step, s0, past) == Some(u) && DeadLettersExplained(s0, past, u) && Step(u, a).Some?
      ensures DeadLettersExplained(s0, past + [a], Step(u, a).value)
    {
      DeadLettersStep(s0, past, u, a);
    }
    KeepsHistory(Step, (past, u) => DeadLettersExplained(s0, past, u), s0, actions);
  }

  lemma DeadLettersStart(s0: State)
    requires Init(s0)
    ensures DeadLettersExplained(s0, [], s0)
  {
  }
}
