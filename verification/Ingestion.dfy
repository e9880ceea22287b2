/** Document ingestion as a protocol: a broker, a database and any number of workers that advance
    one query, commit or settlement at a time. A commit may be applied, be refused, or be applied
    with its reply lost; a worker or its connection may go away between any two steps. */
module Ingestion {
  import opened Wrappers
  import opened Executions
  import opened Text
  import opened Chunking
  import opened ChunkingProperties
  import opened Failures
  import opened Brokers

  type DocumentId = nat
  type Vector = seq<real>

  datatype Status = Pending | Processing | Completed | Failed

  /** The two columns the handler assigns. */
  datatype Fields = Fields(status: Status, reason: Option<string>)

  datatype ChunkRow = ChunkRow(content: string, embedding: Vector)

  /** A document row and its chunk rows, keyed by chunk index as the unique constraint allows. */
  datatype Document = Document(fields: Fields, chunks: map<nat, ChunkRow>)

  /** Where a worker stands between two awaits of `process_message`. */
  datatype Phase =
    | Loading                                          // handler: load the document
    | Checking(seen: Fields)                           // handler: has it chunks already?
    | Reconciling(seen: Fields)                        // handler: commit COMPLETED for old chunks
    | Starting(seen: Fields)                           // handler: commit PROCESSING
    | Working                                          // handler: parse, chunk, embed
    | Inserting(rows: map<nat, ChunkRow>)              // handler: bulk insert and commit
    | Completing                                       // handler: commit COMPLETED
    | Waiting                                          // retry delay
    | MarkLoading(reason: string)                      // mark_failed: load the document
    | MarkChecking(reason: string, seen: Fields)       // mark_failed: has it chunks?
    | MarkCommitting(seen: Fields, next: Fields)       // mark_failed: commit the final status
    | Settling(verdict: Verdict)                       // ACK or reject
    | Done

  /** One call of `process_message`: its delivery, handler attempt and last handler failure. */
  datatype Task = Task(tag: Tag, attempt: nat, phase: Phase, failure: Option<Failure>)

  datatype State = State(
    limit: Limit,
    documents: map<DocumentId, Document>,
    broker: Broker,
    tasks: map<WorkerId, Task>)

  // ---- One worker's database and handler steps ----

  /** What happens at the await a worker stands at. */
  datatype Effect =
    | Query(error: Option<Failure>)
    | Write(outcome: CommitOutcome, failure: Failure)
    | Produce(extracted: string, vectors: seq<Vector>)
    | Raise(failure: Failure)
    | Wake

  /** A session writes only the columns that differ from what it loaded. */
  function Flush(now: Fields, seen: Fields, next: Fields): (written: Fields)
    ensures next == seen ==> written == now
    ensures now == seen ==> written == next
  {
    Fields(if next.status != seen.status then next.status else now.status,
           if next.reason != seen.reason then next.reason else now.reason)
  }

  function RowsOf(texts: seq<string>, vectors: seq<Vector>): map<nat, ChunkRow>
    requires |texts| == |vectors|
  {
    map i: nat | i < |texts| :: i := ChunkRow(texts[i], vectors[i])
  }

  /** Everything between the PROCESSING commit and the bulk insert. */
  function Prepare(extracted: string, vectors: seq<Vector>, limit: Limit): Result<map<nat, ChunkRow>, Failure> {
    var text := Strip(ReplaceCr(ReplaceCrLf(extracted)));
    if text == "" then Err(NoExtractableText)
    else
      var chunks := ChunkText(text, limit);
      if chunks == [] then Err(NoExtractableText)
      else if |vectors| != |chunks| then Err(OtherFailure("EmbeddingError"))
      else Ok(RowsOf(chunks, vectors))
  }

  /** The handler raised: retry, or go on to record the failure. */
  function OnFailure(task: Task, f: Failure): Task {
    if task.attempt < MAX_HANDLER_ATTEMPTS && IsRetryable(f)
    then task.(phase := Waiting, failure := Some(f))
    else task.(phase := MarkLoading(FailureReason(f)), failure := Some(f))
  }

  /** `mark_failed` raised: the message is rejected all the same. */
  function OnMarkFailure(task: Task): Task {
    task.(phase := Settling(Reject))
  }

  function WriteFields(doc: Document, seen: Fields, next: Fields, outcome: CommitOutcome): Document {
    if outcome.Applied() then doc.(fields := Flush(doc.fields, seen, next)) else doc
  }

  const COMPLETED := Fields(Completed, None)
  const PROCESSING := Fields(Processing, None)

  /** One step of a task on its document; `None` when the effect does not fit the phase. */
  function TaskStep(task: Task, doc: Option<Document>, limit: Limit, e: Effect): Option<(Task, Option<Document>)> {
    match task.phase
    case Loading =>
      if !e.Query? then None
      else if e.error.Some? then Some((OnFailure(task, e.error.value), doc))
      else if doc.None? then Some((task.(phase := Settling(Reject), failure := None), doc))
      else Some((task.(phase := Checking(doc.value.fields)), doc))
    case Checking(seen) =>
      if !e.Query? || doc.None? then None
      else if e.error.Some? then Some((OnFailure(task, e.error.value), doc))
      else if doc.value.chunks == map[] then Some((task.(phase := Starting(seen)), doc))
      else if seen.status != Completed || (seen.reason.Some? && seen.reason.value != "")
      then Some((task.(phase := Reconciling(seen)), doc))
      else Some((task.(phase := Settling(Ack)), doc))
    case Reconciling(seen) =>
      if !e.Write? || doc.None? then None
      else Some((if e.outcome.Committed? then task.(phase := Settling(Ack)) else OnFailure(task, e.failure),
                 Some(WriteFields(doc.value, seen, COMPLETED, e.outcome))))
    case Starting(seen) =>
      if !e.Write? || doc.None? then None
      else Some((if e.outcome.Committed? then task.(phase := Working) else OnFailure(task, e.failure),
                 Some(WriteFields(doc.value, seen, PROCESSING, e.outcome))))
    case Working =>
      if e.Raise? then Some((OnFailure(task, e.failure), doc))
      else if e.Produce? then
        (match Prepare(e.extracted, e.vectors, limit)
         case Ok(rows) => Some((task.(phase := Inserting(rows)), doc))
         case Err(f) => Some((OnFailure(task, f), doc)))
      else None
    case Inserting(rows) =>
      if !e.Write? || doc.None? then None
      else if e.outcome.Applied() && !(rows.Keys !! doc.value.chunks.Keys) then None
      else Some((if e.outcome.Committed? then task.(phase := Completing) else OnFailure(task, e.failure),
                 Some(if e.outcome.Applied() then doc.value.(chunks := doc.value.chunks + rows) else doc.value)))
    case Completing =>
      if !e.Write? || doc.None? then None
      else Some((if e.outcome.Committed? then task.(phase := Settling(Ack)) else OnFailure(task, e.failure),
                 Some(WriteFields(doc.value, PROCESSING, COMPLETED, e.outcome))))
    case Waiting =>
      if e.Wake? then Some((task.(phase := Loading, attempt := task.attempt + 1), doc)) else None
    case MarkLoading(reason) =>
      if !e.Query? then None
      else if e.error.Some? || doc.None? then Some((OnMarkFailure(task), doc))
      else Some((task.(phase := MarkChecking(reason, doc.value.fields)), doc))
    case MarkChecking(reason, seen) =>
      if !e.Query? || doc.None? then None
      else if e.error.Some? then Some((OnMarkFailure(task), doc))
      else
        var next := if doc.value.chunks != map[] then COMPLETED else Fields(Failed, Some(Truncate(reason, 255)));
        Some((task.(phase := MarkCommitting(seen, next)), doc))
    case MarkCommitting(seen, next) =>
      if !e.Write? || doc.None? then None
      else
        var verdict := if e.outcome.Committed? && next.status == Completed then Ack else Reject;
        Some((task.(phase := Settling(verdict)), Some(WriteFields(doc.value, seen, next, e.outcome))))
    case Settling(_) => None
    case Done => None
  }

  // ---- The whole system ----

  datatype Action =
    | Upload(document: DocumentId)
    | Publish(tag: Tag, body: Body)
    | Deliver(worker: WorkerId, tag: Tag)
    | Act(worker: WorkerId, effect: Effect)
    | Settle(worker: WorkerId, effective: bool)
    | Disconnect(worker: WorkerId)   // unacknowledged deliveries go back, the callback lives on
    | Crash(worker: WorkerId)        // the callback is gone as well

  function DocumentOf(s: State, t: Tag): Option<Document>
    requires t in s.broker.bodies && s.broker.bodies[t].Job?
  {
    var d := s.broker.bodies[t].subject;
    if d in s.documents then Some(s.documents[d]) else None
  }

  function Step(s: State, a: Action): Option<State> {
    match a
    case Upload(d) =>
      if d in s.documents then None
      else Some(s.(documents := s.documents[d := Document(Fields(Pending, None), map[])]))
    case Publish(t, body) =>
      if t in s.broker.bodies then None else Some(s.(broker := Brokers.Publish(s.broker, t, body)))
    case Deliver(w, t) =>
      if !CanDeliver(s.broker, w, t) || (w in s.tasks && s.tasks[w].phase != Done) then None
      else
        var phase := if s.broker.bodies[t].Malformed? then Settling(Reject) else Loading;
        Some(s.(broker := Brokers.Deliver(s.broker, w, t), tasks := s.tasks[w := Task(t, 1, phase, None)]))
    case Act(w, e) => ActStep(s, w, e)
    case Settle(w, effective) =>
      if w !in s.tasks || !s.tasks[w].phase.Settling? then None
      else
        var task := s.tasks[w];
        Some(s.(broker := if effective then Brokers.Settle(s.broker, w, task.tag, task.phase.verdict) else s.broker,
                tasks := s.tasks[w := task.(phase := Done)]))
    case Disconnect(w) => Some(s.(broker := Release(s.broker, w)))
    case Crash(w) => Some(s.(broker := Release(s.broker, w), tasks := s.tasks - {w}))
  }

  function ActStep(s: State, w: WorkerId, e: Effect): Option<State> {
    if w !in s.tasks || s.tasks[w].tag !in s.broker.bodies || !s.broker.bodies[s.tasks[w].tag].Job? then None
    else
      var t := s.tasks[w].tag;
      match TaskStep(s.tasks[w], DocumentOf(s, t), s.limit, e)
      case None => None
      case Some((task, doc)) =>
        Some(s.(tasks := s.tasks[w := task],
                documents := if doc.Some? then s.documents[s.broker.bodies[t].subject := doc.value] else s.documents))
  }

  function Run(s: State, actions: seq<Action>): Option<State> {
    Execute(Step, s, actions)
  }

  // ---- Invariant of every interleaving ----

  /** Indices 0..n-1 hold the `n` texts in order, each with its own vector, and there is nothing else. */
  ghost predicate Indexed(chunks: map<nat, ChunkRow>, texts: seq<string>, vectors: seq<Vector>) {
    && |vectors| == |texts| > 0
    && (forall i: nat :: i in chunks <==> i < |texts|)
    && (forall i: nat :: i < |texts| ==> chunks[i].content == texts[i] && chunks[i].embedding == vectors[i])
  }

  /** The chunk rows are exactly those of one ingestion of some text. */
  ghost predicate OneIngestion(chunks: map<nat, ChunkRow>, limit: Limit) {
    exists text, vectors :: Indexed(chunks, ChunkText(text, limit), vectors)
  }

  ghost predicate DocumentOk(doc: Document, limit: Limit) {
    && (doc.chunks == map[] || OneIngestion(doc.chunks, limit))
    && (doc.fields.status == Completed ==> doc.chunks != map[])
    && (doc.fields.reason.Some? ==> |doc.fields.reason.value| <= 255)
  }

  /** Why a message may be rejected. */
  predicate RejectCause(task: Task) {
    task.failure.Some? && (task.attempt == 3 || !ConnectionTrouble(task.failure.value))
  }

  /** What the call will store if it records its failure. */
  predicate RecordsItsFailure(task: Task, reason: string) {
    RejectCause(task) && reason == FailureReason(task.failure.value)
  }

  predicate InHandler(phase: Phase) {
    || phase.Loading? || phase.Checking? || phase.Reconciling? || phase.Starting? || phase.Working?
    || phase.Inserting? || phase.Completing?
  }

  /** A later attempt follows a failure that is retried. */
  predicate AttemptOk(task: Task) {
    && 1 <= task.attempt <= MAX_HANDLER_ATTEMPTS
    && (InHandler(task.phase) || task.phase.Waiting? ==>
          task.failure.Some? ==> ConnectionTrouble(task.failure.value))
    && (InHandler(task.phase) ==> (task.attempt > 1 <==> task.failure.Some?))
    && (task.phase.Waiting? ==> task.failure.Some? && task.attempt < MAX_HANDLER_ATTEMPTS)
  }

  ghost predicate TaskOk(task: Task, doc: Option<Document>, limit: Limit) {
    && AttemptOk(task)
    && match task.phase
       case Loading => true
       case Checking(_) => doc.Some?
       case Reconciling(_) => doc.Some? && doc.value.chunks != map[]
       case Starting(_) => doc.Some?
       case Working => doc.Some?
       case Inserting(rows) => doc.Some? && OneIngestion(rows, limit)
       case Completing => doc.Some? && doc.value.chunks != map[]
       case Waiting => true
       case MarkLoading(reason) => RecordsItsFailure(task, reason)
       case MarkChecking(reason, _) => doc.Some? && RecordsItsFailure(task, reason)
       case MarkCommitting(_, next) =>
         && doc.Some? && RejectCause(task)
         && (next.status == Completed ==> doc.value.chunks != map[])
         && (next.reason.Some? ==> |next.reason.value| <= 255)
         && next in {COMPLETED, Fields(Failed, Some(FailureReason(task.failure.value)))}
       case Settling(Ack) => doc.Some? && doc.value.chunks != map[]
       case Settling(Reject) => task.failure.Some? ==> RejectCause(task)
       case Settling(Requeue) => false
       case Done => true
  }

  /** Later documents keep what is stored; a document is never removed. */
  predicate Grows(doc: Option<Document>, doc': Option<Document>) {
    doc.Some? ==> doc'.Some? && (doc.value.chunks != map[] ==> doc'.value.chunks == doc.value.chunks)
  }

  lemma OneIngestionHasFirst(chunks: map<nat, ChunkRow>, limit: Limit)
    requires OneIngestion(chunks, limit)
    ensures 0 in chunks && chunks != map[]
  {
    hide ChunkText;
    var text, vectors :| Indexed(chunks, ChunkText(text, limit), vectors);
  }

  /** The rows an ingestion builds are the chunks of its own text, each with its own vector, in order. */
  lemma PrepareIsOneIngestion(extracted: string, vectors: seq<Vector>, limit: Limit)
    requires Prepare(extracted, vectors, limit).Ok?
    ensures Indexed(Prepare(extracted, vectors, limit).value,
                    ChunkText(Strip(ReplaceCr(ReplaceCrLf(extracted))), limit), vectors)
  {
    hide ChunkText;
    hide Strip;
  }

  lemma PreparedRowsFit(extracted: string, vectors: seq<Vector>, limit: Limit)
    requires Prepare(extracted, vectors, limit).Ok?
    ensures OneIngestion(Prepare(extracted, vectors, limit).value, limit)
  {
    hide ChunkText;
    hide Prepare;
    hide Indexed;
    PrepareIsOneIngestion(extracted, vectors, limit);
  }

  /** The second emptiness test of `ingest` never fires: text that survives stripping has chunks. */
  lemma PrepareFailsOnlyWhenBlank(extracted: string, vectors: seq<Vector>, limit: Limit)
    ensures Prepare(extracted, vectors, limit) == Err(NoExtractableText)
        <==> Strip(ReplaceCr(ReplaceCrLf(extracted))) == ""
  {
    hide ChunkText;
    hide IsSpace;
    hide Strip;
    var lines := ReplaceCr(ReplaceCrLf(extracted));
    var _, _ := StripLocates(lines);
    NoChunksIffBlank(Strip(lines), limit);
    if Strip(lines) != "" { assert !IsSpace(Strip(lines)[0]); }
  }

  /** Text that cannot be prepared is no trouble with a connection. */
  lemma PrepareFailsForGood(extracted: string, vectors: seq<Vector>, limit: Limit)
    requires Prepare(extracted, vectors, limit).Err?
    ensures !ConnectionTrouble(Prepare(extracted, vectors, limit).error)
  {
    hide ChunkText;
    hide Strip;
  }

  /** One task step keeps the attempts in order. */
  lemma AttemptKeeps(task: Task, doc: Option<Document>, limit: Limit, e: Effect)
    requires TaskStep(task, doc, limit, e).Some? && AttemptOk(task)
    ensures AttemptOk(TaskStep(task, doc, limit, e).value.0) && task.attempt <= 3
  {
    hide IsRetryable;
    hide ConnectionTrouble;
    hide Prepare;
    hide FailureReason;
    if e.Produce? && Prepare(e.extracted, e.vectors, limit).Err? {
      PrepareFailsForGood(e.extracted, e.vectors, limit);
    }
  }

  /** One task step keeps the document and the task in order, and loses nothing stored. */
  lemma TaskStepKeeps(task: Task, doc: Option<Document>, limit: Limit, e: Effect)
    requires TaskStep(task, doc, limit, e).Some? && TaskOk(task, doc, limit)
    requires doc.Some? ==> DocumentOk(doc.value, limit)
    ensures var (task', doc') := TaskStep(task, doc, limit, e).value;
            && TaskOk(task', doc', limit) && task'.tag == task.tag && Grows(doc, doc')
            && (doc'.Some? <==> doc.Some?) && (doc'.Some? ==> DocumentOk(doc'.value, limit))
  {
    hide OneIngestion;
    hide IsRetryable;
    hide ConnectionTrouble;
    hide Prepare;
    hide FailureReason;
    hide AttemptOk;
    AttemptKeeps(task, doc, limit, e);
    match task.phase
    case Working =>
      if e.Produce? && Prepare(e.extracted, e.vectors, limit).Ok? {
        PreparedRowsFit(e.extracted, e.vectors, limit);
      }
    case Inserting(rows) =>
      OneIngestionHasFirst(rows, limit);
      if doc.value.chunks != map[] {
        OneIngestionHasFirst(doc.value.chunks, limit);
      } else {
        assert doc.value.chunks + rows == rows;
      }
    case _ =>
  }
}
