/** Ticket analysis as a protocol: persist the analysis, publish its event, then settle the
    delivery, by any number of workers with crashes, lost replies and redelivery. */
module TicketAnalysis {
  import opened Wrappers
  import opened Executions
  import opened Failures
  import opened Brokers

  type TicketId = nat
  type AnalysisId = nat
  type Partition = nat

  datatype Event = Event(ticket: TicketId, analysis: AnalysisId)

  /** A committed analysis row; its creation time is set by the worker, before the commit. */
  datatype Record = Record(ticket: TicketId, created: int)

  /** The database and the `analysis.completed` topic. `issued` holds every analysis id handed out. */
  datatype Store = Store(
    tickets: set<TicketId>,
    records: map<AnalysisId, Record>,
    issued: set<AnalysisId>,
    log: map<Partition, seq<Event>>)

  datatype Phase =
    | Loading                                        // handler: load the ticket
    | Finding                                        // handler: look for an existing analysis
    | Analyzing                                      // handler: ask the language model
    | Committing(id: AnalysisId, record: Record)     // handler: insert and commit
    | Waiting                                        // handler retry delay
    | Publishing(event: Event, attempt: nat)         // send the event to Kafka
    | PublishWaiting(event: Event, attempt: nat)     // publish retry delay
    | Settling(verdict: Verdict)
    | Done

  datatype Task = Task(tag: Tag, attempt: nat, phase: Phase, failure: Option<Failure>, completed: Option<Event>)

  datatype Effect =
    | Query(error: Option<Failure>, found: Option<AnalysisId>)
    | Answer(id: AnalysisId, created: int)
    | Raise(failure: Failure)
    | Write(outcome: CommitOutcome, failure: Failure)
    | Send(outcome: CommitOutcome, partition: Partition)
    | Wake

  /** The most recent analysis of a ticket: latest creation time, then greatest id. */
  predicate IsLatest(records: map<AnalysisId, Record>, ticket: TicketId, id: AnalysisId) {
    && id in records && records[id].ticket == ticket
    && forall other :: other in records && records[other].ticket == ticket ==>
                         records[other].created < records[id].created
                         || (records[other].created == records[id].created && other <= id)
  }

  predicate NoAnalysis(records: map<AnalysisId, Record>, ticket: TicketId) {
    forall id :: id in records ==> records[id].ticket != ticket
  }

  function LogOf(log: map<Partition, seq<Event>>, p: Partition): seq<Event> {
    if p in log then log[p] else []
  }

  function Append(log: map<Partition, seq<Event>>, p: Partition, e: Event): map<Partition, seq<Event>> {
    log[p := LogOf(log, p) + [e]]
  }

  function OnFailure(task: Task, f: Failure): Task {
    if task.attempt < MAX_HANDLER_ATTEMPTS && IsRetryableForTickets(f)
    then task.(phase := Waiting, failure := Some(f))
    else task.(phase := Settling(Reject), failure := Some(f))
  }

  function Completed(task: Task, e: Event): Task {
    task.(phase := Publishing(e, 1), completed := Some(e))
  }

  /** One step of a task for `ticket`; `None` when the effect does not fit the phase. */
  function TaskStep(task: Task, ticket: TicketId, store: Store, e: Effect): Option<(Task, Store)> {
    match task.phase
    case Loading =>
      if !e.Query? then None
      else if e.error.Some? then Some((OnFailure(task, e.error.value), store))
      else if ticket !in store.tickets then Some((task.(phase := Settling(Reject), failure := None), store))
      else Some((task.(phase := Finding), store))
    case Finding =>
      if !e.Query? then None
      else if e.error.Some? then Some((OnFailure(task, e.error.value), store))
      else if e.found.Some? then
        if IsLatest(store.records, ticket, e.found.value)
        then Some((Completed(task, Event(ticket, e.found.value)), store)) else None
      else if NoAnalysis(store.records, ticket) then Some((task.(phase := Analyzing), store)) else None
    case Analyzing =>
      if e.Raise? then Some((OnFailure(task, e.failure), store))
      else if e.Answer? && e.id !in store.issued then
        Some((task.(phase := Committing(e.id, Record(ticket, e.created))), store.(issued := store.issued + {e.id})))
      else None
    case Committing(id, record) =>
      if !e.Write? || (e.outcome.Applied() && id in store.records) then None
      else Some((if e.outcome.Committed? then Completed(task, Event(ticket, id)) else OnFailure(task, e.failure),
                 if e.outcome.Applied() then store.(records := store.records[id := record]) else store))
    case Waiting =>
      if e.Wake? then Some((task.(phase := Loading, attempt := task.attempt + 1), store)) else None
    case Publishing(event, attempt) =>
      if !e.Send? then None
      else
        var phase := if e.outcome.Committed? then Settling(Ack)
                     else if attempt < MAX_HANDLER_ATTEMPTS then PublishWaiting(event, attempt)
                     else Settling(Requeue);
        Some((task.(phase := phase),
              if e.outcome.Applied() then store.(log := Append(store.log, e.partition, event)) else store))
    case PublishWaiting(event, attempt) =>
      if e.Wake? then Some((task.(phase := Publishing(event, attempt + 1)), store)) else None
    case Settling(_) => None
    case Done => None
  }

  datatype State = State(store: Store, broker: Broker, tasks: map<WorkerId, Task>)

  datatype Action =
    | Create(ticket: TicketId)
    | Publish(tag: Tag, body: Body)
    | Deliver(worker: WorkerId, tag: Tag)
    | Act(worker: WorkerId, effect: Effect)
    | Settle(worker: WorkerId, effective: bool)
    | Disconnect(worker: WorkerId)
    | Crash(worker: WorkerId)

  function ActStep(s: State, w: WorkerId, e: Effect): Option<State> {
    if w !in s.tasks || s.tasks[w].tag !in s.broker.bodies || !s.broker.bodies[s.tasks[w].tag].Job? then None
    else
      match TaskStep(s.tasks[w], s.broker.bodies[s.tasks[w].tag].subject, s.store, e)
      case None => None
      case Some((task, store)) => Some(s.(store := store, tasks := s.tasks[w := task]))
  }

  function Step(s: State, a: Action): Option<State> {
    match a
    case Create(ticket) => Some(s.(store := s.store.(tickets := s.store.tickets + {ticket})))
    case Publish(t, body) =>
      if t in s.broker.bodies then None else Some(s.(broker := Brokers.Publish(s.broker, t, body)))
    case Deliver(w, t) =>
      if !CanDeliver(s.broker, w, t) || (w in s.tasks && s.tasks[w].phase != Done) then None
      else
        var phase := if s.broker.bodies[t].Malformed? then Settling(Reject) else Loading;
        Some(s.(broker := Brokers.Deliver(s.broker, w, t), tasks := s.tasks[w := Task(t, 1, phase, None, None)]))
    case Act(w, e) => ActStep(s, w, e)
    case Settle(w, effective) =>
      if w !in s.tasks || !s.tasks[w].phase.Settling? then None
      else
        var task := s.tasks[w];
        Some(s.(broker := if effective then Brokers.Settle(s.broker, w, task.tag, task.phase.verdict) else s.broker,
                tasks := s.tasks[w := task.(phase := Done)]))
    case Disconnect(w) => Some(s.(broker := Release(s.broker, w)))
    case Crash(w) => Some(s.(broker := Release(s.broker, w), tasks := s.tasks - {w}))
  }

  function Run(s: State, actions: seq<Action>): Option<State> {
    Execute(Step, s, actions)
  }

  // ---- Invariant of every interleaving ----

  /** The event names an analysis that is committed for its ticket. */
  predicate Truthful(records: map<AnalysisId, Record>, e: Event) {
    e.analysis in records && records[e.analysis].ticket == e.ticket
  }

  predicate InLog(log: map<Partition, seq<Event>>, e: Event) {
    exists p :: p in log && e in log[p]
  }

  predicate StoreOk(store: Store) {
    && store.records.Keys <= store.issued
    && forall p, e :: p in store.log && e in store.log[p] ==> Truthful(store.records, e)
  }

  /** Where a call stands once its handler has returned. */
  predicate PastHandler(phase: Phase) {
    phase.Publishing? || phase.PublishWaiting? || phase == Settling(Ack) || phase == Settling(Requeue) || phase.Done?
  }

  predicate InHandler(phase: Phase) {
    phase.Loading? || phase.Finding? || phase.Analyzing? || phase.Committing?
  }

  /** A later attempt follows a failure that is retried. */
  predicate AttemptOk(task: Task) {
    && 1 <= task.attempt <= MAX_HANDLER_ATTEMPTS
    && (InHandler(task.phase) || task.phase.Waiting? ==>
          task.failure.Some? ==> TransientTrouble(task.failure.value))
    && (InHandler(task.phase) ==> (task.attempt > 1 <==> task.failure.Some?))
    && (task.phase.Waiting? ==> task.failure.Some?)
  }

  predicate TaskOk(task: Task, ticket: TicketId, store: Store) {
    && AttemptOk(task)
    && (task.completed.Some? ==>
          && task.completed.value.ticket == ticket && Truthful(store.records, task.completed.value)
          && PastHandler(task.phase))
    && match task.phase
       case Committing(id, record) => id in store.issued && record.ticket == ticket
       case Waiting => task.attempt < MAX_HANDLER_ATTEMPTS
       case Publishing(event, attempt) => task.completed == Some(event) && 1 <= attempt <= MAX_HANDLER_ATTEMPTS
       case PublishWaiting(event, attempt) => task.completed == Some(event) && 1 <= attempt < MAX_HANDLER_ATTEMPTS
       case Settling(Ack) => task.completed.Some? && InLog(store.log, task.completed.value)
       case Settling(Requeue) => task.completed.Some?
       case Settling(Reject) =>
         task.failure.Some? ==> task.attempt == 3 || !TransientTrouble(task.failure.value)
       case _ => true
  }

  /** Rows and events are never removed. */
  predicate Grows(store: Store, store': Store) {
    && store.tickets <= store'.tickets && store.issued <= store'.issued
    && (forall id :: id in store.records ==> id in store'.records && store'.records[id] == store.records[id])
    && (forall p :: p in store.log ==> p in store'.log && store.log[p] <= store'.log[p])
  }

  lemma InLogGrows(store: Store, store': Store, e: Event)
    requires Grows(store, store') && InLog(store.log, e)
    ensures InLog(store'.log, e)
  {
    var p :| p in store.log && e in store.log[p];
    assert e in store'.log[p];
  }

  lemma TaskOkGrows(task: Task, ticket: TicketId, store: Store, store': Store)
    requires Grows(store, store') && TaskOk(task, ticket, store)
    ensures TaskOk(task, ticket, store')
  {
    if task.phase == Settling(Ack) { InLogGrows(store, store', task.completed.value); }
  }

  lemma AppendOk(store: Store, p: Partition, e: Event)
    requires StoreOk(store) && Truthful(store.records, e)
    ensures var store' := store.(log := Append(store.log, p, e));
            StoreOk(store') && Grows(store, store') && InLog(store'.log, e)
  {
    var log' := Append(store.log, p, e);
    assert log'[p] == LogOf(store.log, p) + [e];
    assert e in log'[p];
  }

  lemma RecordOk(store: Store, id: AnalysisId, record: Record)
    requires StoreOk(store) && id in store.issued && id !in store.records
    ensures var store' := store.(records := store.records[id := record]);
            StoreOk(store') && Grows(store, store')
  {
    forall p, e | p in store.log && e in store.log[p] ensures Truthful(store.records[id := record], e) {
      assert Truthful(store.records, e);
    }
  }

  lemma IssueOk(store: Store, id: AnalysisId)
    requires StoreOk(store)
    ensures var store' := store.(issued := store.issued + {id});
            StoreOk(store') && Grows(store, store')
  {
  }

  /** One task step keeps the tables, the topic and the task in order, and loses nothing. */
  lemma TaskStepKeeps(task: Task, ticket: TicketId, store: Store, e: Effect)
    requires TaskStep(task, ticket, store, e).Some? && TaskOk(task, ticket, store) && StoreOk(store)
    ensures var (task', store') := TaskStep(task, ticket, store, e).value;
            TaskOk(task', ticket, store') && StoreOk(store') && Grows(store, store') && task'.tag == task.tag
  {
    hide IsRetryableForTickets;
    hide TransientTrouble;
    hide Append;
    hide InLog;
    hide StoreOk;
    hide NoAnalysis;
    match task.phase
    case Publishing(event, attempt) =>
      if e.outcome.Applied() { AppendOk(store, e.partition, event); }
    case Committing(id, record) =>
      if e.outcome.Applied() { RecordOk(store, id, record); }
    case Analyzing =>
      if e.Answer? { IssueOk(store, e.id); }
    case _ =>
  }
}
