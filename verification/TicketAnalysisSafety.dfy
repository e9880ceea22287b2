/** What holds in every state any interleaving of ticket-analysis workers can reach, and what
    holds besides when the deliveries of a ticket are processed one at a time. */
module TicketAnalysisSafety {
  import opened Wrappers
  import opened Executions
  import opened Failures
  import opened Brokers
  import opened TicketAnalysis

  predicate TaskFits(s: State, task: Task) {
    && task.tag in s.broker.bodies
    && match s.broker.bodies[task.tag]
       case Malformed =>
         (task.phase.Done? || task.phase == Settling(Reject)) && task.failure.None? && task.completed.None?
       case Job(ticket) => TaskOk(task, ticket, s.store)
  }

  /** The delivery's ticket has a committed analysis whose event is in the topic. */
  predicate Announced(s: State, t: Tag) {
    && t in s.broker.bodies && s.broker.bodies[t].Job?
    && exists p, k :: p in s.store.log && 0 <= k < |s.store.log[p]|
                      && s.store.log[p][k].ticket == s.broker.bodies[t].subject
                      && Truthful(s.store.records, s.store.log[p][k])
  }

  predicate TasksOk(s: State) {
    forall w :: w in s.tasks ==> TaskFits(s, s.tasks[w])
  }

  /** What a worker holds is what its task is about. */
  predicate HoldsOwn(s: State) {
    forall t :: t in s.broker.unacked ==> s.broker.unacked[t] in s.tasks && s.tasks[s.broker.unacked[t]].tag == t
  }

  predicate AckedAnnounced(s: State) {
    forall t :: t in s.broker.acked ==> Announced(s, t)
  }

  predicate Inv(s: State) {
    Conserved(s.broker) && StoreOk(s.store) && TasksOk(s) && HoldsOwn(s) && AckedAnnounced(s)
  }

  /** What every step preserves: nothing published, stored, logged or settled is taken back. */
  predicate Later(s: State, s': State) {
    Settled(s.broker, s'.broker) && Grows(s.store, s'.store)
  }

  lemma AnnouncedLater(s: State, s': State, t: Tag)
    requires Announced(s, t) && Later(s, s')
    ensures Announced(s', t)
  {
    var p, k :| p in s.store.log && 0 <= k < |s.store.log[p]| && s.store.log[p][k].ticket == s.broker.bodies[t].subject
                && Truthful(s.store.records, s.store.log[p][k]);
    assert s'.store.log[p][k] == s.store.log[p][k];
  }

  lemma OthersFit(s: State, s': State, moved: set<WorkerId>)
    requires TasksOk(s) && AckedAnnounced(s) && Later(s, s')
    requires forall w :: w in s'.tasks && w !in moved ==> w in s.tasks && s'.tasks[w] == s.tasks[w]
    ensures forall w :: w in s'.tasks && w !in moved ==> TaskFits(s', s'.tasks[w])
    ensures forall t :: t in s.broker.acked ==> Announced(s', t)
  {
    hide TaskOk;
    hide Announced;
    forall w | w in s'.tasks && w !in moved ensures TaskFits(s', s'.tasks[w]) {
      assert TaskFits(s, s.tasks[w]);
      match s.broker.bodies[s.tasks[w].tag]
      case Malformed =>
      case Job(ticket) => TaskOkGrows(s.tasks[w], ticket, s.store, s'.store);
    }
    forall t | t in s.broker.acked ensures Announced(s', t) { AnnouncedLater(s, s', t); }
  }

  lemma StaysPut(s: State)
    ensures Settled(s.broker, s.broker) && Grows(s.store, s.store)
  {
  }

  lemma ActInv(s: State, w: WorkerId, e: Effect)
    requires Inv(s) && Step(s, Act(w, e)).Some?
    ensures Inv(Step(s, Act(w, e)).value) && Later(s, Step(s, Act(w, e)).value)
  {
    hide TaskStep;
    hide TaskOk;
    hide StoreOk;
    hide Grows;
    hide Announced;
    hide Conserved;
    var s' := Step(s, Act(w, e)).value;
    assert TaskFits(s, s.tasks[w]);
    StaysPut(s);
    TaskStepKeeps(s.tasks[w], s.broker.bodies[s.tasks[w].tag].subject, s.store, e);
    OthersFit(s, s', {w});
  }

  lemma EnvironmentInv(s: State, a: Action)
    requires Inv(s) && (a.Create? || a.Publish? || a.Disconnect? || a.Crash?) && Step(s, a).Some?
    ensures Inv(Step(s, a).value) && Later(s, Step(s, a).value)
  {
    hide TaskFits;
    hide Conserved;
    hide Settled;
    hide CanDeliver;
    hide ActStep;
    hide Announced;
    var s' := Step(s, a).value;
    StaysPut(s);
    OthersFit(s, s', {});
  }

  lemma DeliverInv(s: State, w: WorkerId, t: Tag)
    requires Inv(s) && Step(s, Deliver(w, t)).Some?
    ensures Inv(Step(s, Deliver(w, t)).value) && Later(s, Step(s, Deliver(w, t)).value)
  {
    hide Conserved;
    hide Settled;
    hide StoreOk;
    hide Grows;
    hide Announced;
    var s' := Step(s, Deliver(w, t)).value;
    StaysPut(s);
    OthersFit(s, s', {w});
  }

  lemma SettlingFits(s: State, task: Task)
    requires TaskFits(s, task) && task.phase.Settling?
    ensures TaskFits(s, task.(phase := Done))
    ensures task.phase.verdict == Ack ==> Announced(s, task.tag)
  {
    if task.phase.verdict == Ack {
      var e := task.completed.value;
      var p :| p in s.store.log && e in s.store.log[p];
      var k :| 0 <= k < |s.store.log[p]| && s.store.log[p][k] == e;
    }
  }

  lemma SettleInv(s: State, w: WorkerId, effective: bool)
    requires Inv(s) && Step(s, Settle(w, effective)).Some?
    ensures Inv(Step(s, Settle(w, effective)).value) && Later(s, Step(s, Settle(w, effective)).value)
  {
    hide Conserved;
    hide Settled;
    hide TaskOk;
    hide StoreOk;
    hide Grows;
    hide Announced;
    hide CanDeliver;
    var s' := Step(s, Settle(w, effective)).value;
    SettlingFits(s, s.tasks[w]);
    StaysPut(s);
    OthersFit(s, s', {w});
    if s.tasks[w].phase.verdict == Ack { AnnouncedLater(s, s', s.tasks[w].tag); }
  }

  lemma StepInv(s: State, a: Action)
    requires Inv(s) && Step(s, a).Some?
    ensures Inv(Step(s, a).value) && Later(s, Step(s, a).value)
  {
    hide Step;
    hide Inv;
    hide Later;
    match a
    case Act(w, e) => ActInv(s, w, e);
    case Deliver(w, t) => DeliverInv(s, w, t);
    case Settle(w, effective) => SettleInv(s, w, effective);
    case _ => EnvironmentInv(s, a);
  }

  lemma LaterTransitive(s: State, t: State, u: State)
    requires Later(s, t) && Later(t, u)
    ensures Later(s, u)
  {
  }

  /** Before any delivery: no analysis, no event. */
  predicate Init(s: State) {
    s.store.records == map[] && s.store.log == map[] && s.broker == EMPTY && s.tasks == map[]
  }

  lemma RunInv(s: State, actions: seq<Action>)
    requires Inv(s) && Run(s, actions).Some?
    ensures Inv(Run(s, actions).value) && Later(s, Run(s, actions).value)
  {
    hide Step;
    hide Inv;
    hide Later;
    forall t, a | Inv(t) && Step(t, a).Some?
      ensures Inv(Step(t, a).value) && Later(t, Step(t, a).value)
    {
      StepInv(t, a);
    }
    forall t ensures Later(t, t) { LaterReflexive(t); }
    forall t, u, v | Inv(t) && Inv(u) && Inv(v) && Later(t, u) && Later(u, v)
      ensures Later(t, v)
    {
      LaterTransitive(t, u, v);
    }
    Keeps(Step, Inv, Later, s, actions);
  }

  lemma LaterReflexive(s: State)
    ensures Later(s, s)
  {
  }

  ghost predicate Reachable(s: State) {
    ReachableFrom(Step, Init, s)
  }

  lemma InitInv(s: State)
    requires Init(s)
    ensures Inv(s)
  {
  }

  lemma ReachableInv(s: State)
    requires Reachable(s)
    ensures Inv(s)
  {
    hide Step;
    hide Inv;
    forall t | Init(t) ensures Inv(t) { InitInv(t); }
    forall t, a | Inv(t) && Step(t, a).Some? ensures Inv(Step(t, a).value) { StepInv(t, a); }
    ReachableKeeps(Step, Init, Inv, s);
  }

  lemma ReachableStep(s: State, a: Action)
    requires Reachable(s) && Step(s, a).Some?
    ensures Reachable(Step(s, a).value)
  {
    hide Step;
    StepReaches(Step, Init, s, a);
  }

  /** With any number of workers, every event ever published names an analysis that is committed
      for its ticket. */
  lemma EventsAreTruthful(s: State, p: Partition, e: Event)
    requires Reachable(s) && p in s.store.log && e in s.store.log[p]
    ensures e.analysis in s.store.records && s.store.records[e.analysis].ticket == e.ticket
  {
    hide Reachable;
    ReachableInv(s);
    assert Truthful(s.store.records, e);
  }

  /** Ticket-analysis jobs are conserved: each delivery is ready, unacknowledged, dead-lettered or
      acknowledged, and an acknowledged one has its analysis committed and its event logged. */
  lemma JobsAreConserved(s: State, t: Tag)
    requires Reachable(s)
    ensures Conserved(s.broker)
    ensures t in s.broker.acked ==> Announced(s, t)
    ensures t in s.broker.unacked ==> s.broker.unacked[t] in s.tasks && s.tasks[s.broker.unacked[t]].tag == t
  {
    hide Conserved;
    hide Reachable;
    hide Announced;
    ReachableInv(s);
  }

  /** Once its analysis is committed and known to the worker, a delivery is never dead-lettered:
      a confirmed publish leads to the ACK, and exactly the third failed one puts the delivery back
      into the queue. */
  lemma PublishFailureRequeues(s: State, w: WorkerId, e: Effect)
    requires Reachable(s) && Step(s, Act(w, e)).Some? && s.tasks[w].phase.Publishing?
    ensures var s' := Step(s, Act(w, e)).value;
            && s'.tasks[w].completed == Some(s.tasks[w].phase.event) && e.Send?
            && Truthful(s'.store.records, s.tasks[w].phase.event)
            && (s'.tasks[w].phase == Settling(Ack) <==> e.outcome.Committed?)
            && (s'.tasks[w].phase == Settling(Ack) ==> InLog(s'.store.log, s.tasks[w].phase.event))
            && (s'.tasks[w].phase == Settling(Requeue) <==>
                  !e.outcome.Committed? && s.tasks[w].phase.attempt == MAX_HANDLER_ATTEMPTS)
            && (s'.tasks[w].phase == PublishWaiting(s.tasks[w].phase.event, s.tasks[w].phase.attempt) <==>
                  !e.outcome.Committed? && s.tasks[w].phase.attempt < MAX_HANDLER_ATTEMPTS)
            && s'.tasks[w].tag == s.tasks[w].tag && (e.outcome == Refused ==> s'.store == s.store)
            && s'.tasks[w].phase != Settling(Reject)
  {
    hide Append;
    hide InLog;
    hide Announced;
    hide StoreOk;
    hide Reachable;
    ReachableInv(s);
    ActInv(s, w, e);
    var s' := Step(s, Act(w, e)).value;
    assert TaskFits(s, s.tasks[w]) && TaskFits(s', s'.tasks[w]);
  }

  /** What the language model answered is stored as one row of the ticket, under its new id and with its
      time, if the commit takes effect; and its event is what the call goes on to publish, if the call
      learns of it. */
  lemma AnalysisIsStored(s: State, w: WorkerId, ticket: TicketId, id: AnalysisId, created: int,
                         outcome: CommitOutcome, f: Failure)
    requires Reachable(s) && w in s.tasks && s.tasks[w].phase == Analyzing && id !in s.store.issued
    requires s.tasks[w].tag in s.broker.bodies && s.broker.bodies[s.tasks[w].tag] == Job(ticket)
    ensures Step(s, Act(w, Answer(id, created))).Some?
    ensures var s1 := Step(s, Act(w, Answer(id, created))).value;
            && Step(s1, Act(w, Write(outcome, f))).Some?
            && var s2 := Step(s1, Act(w, Write(outcome, f))).value;
               && s2.store.records == (if outcome == Refused then s.store.records
                                       else s.store.records[id := Record(ticket, created)])
               && s2.store.log == s.store.log
               && (s2.tasks[w].phase == Publishing(Event(ticket, id), 1) <==> outcome == Committed)
  {
    hide Reachable;
    hide IsRetryableForTickets;
    hide TransientTrouble;
    hide TasksOk;
    hide AckedAnnounced;
    ReachableInv(s);
  }

  /** The handler's query, analysis or commit fails with `f`. */
  predicate HandlerFails(phase: Phase, e: Effect, f: Failure) {
    match phase
    case Loading => e.Query? && e.error == Some(f)
    case Finding => e.Query? && e.error == Some(f)
    case Analyzing => e == Raise(f)
    case Committing(_, _) => e.Write? && !e.outcome.Committed? && e.failure == f
    case _ => false
  }

  /** Wherever the handler fails: on the first or second attempt trouble with a connection, a slow or a
      busy language model leads to the retry delay; every other failure, and every third one, to the
      rejection. Nothing is stored unless the commit took effect although it failed. */
  lemma FailureDecides(task: Task, ticket: TicketId, store: Store, e: Effect, f: Failure)
    requires TaskOk(task, ticket, store) && TaskStep(task, ticket, store, e).Some? && HandlerFails(task.phase, e, f)
    ensures var task' := TaskStep(task, ticket, store, e).value.0;
            && task'.failure == Some(f) && task'.attempt == task.attempt && task'.tag == task.tag
            && (task'.phase == Waiting <==>
                  task.attempt < 3 && (ConnectionTrouble(f) || f == LlmTimeout || f == LlmRateLimit))
            && (task'.phase == Settling(Reject) <==>
                  task.attempt == 3 || !(ConnectionTrouble(f) || f == LlmTimeout || f == LlmRateLimit))
            && (!e.Write? || e.outcome == Refused ==> TaskStep(task, ticket, store, e).value.1 == store)
  {
    hide IsRetryableForTickets;
    hide ConnectionTrouble;
    hide Append;
    hide InLog;
  }

  /** A call comes to reject its delivery without a recorded failure exactly when its handler looked
      for the ticket and found none. */
  lemma RejectedWithoutFailure(task: Task, ticket: TicketId, store: Store, e: Effect)
    requires TaskOk(task, ticket, store) && TaskStep(task, ticket, store, e).Some?
    ensures var task' := TaskStep(task, ticket, store, e).value.0;
            task'.phase == Settling(Reject) && task'.failure.None? <==>
            task.phase.Loading? && e.Query? && e.error.None? && ticket !in store.tickets
  {
    hide IsRetryableForTickets;
    hide Append;
    hide InLog;
    hide NoAnalysis;
    hide IsLatest;
  }

  /** A delivery is dead-lettered only when it is malformed, its handler found no ticket (and so
      recorded no failure), or its handler failed for good: on the third attempt or with an error that
      is not retried. */
  lemma DeadLetteredForCause(s: State, a: Action, t: Tag)
    requires Reachable(s) && Step(s, a).Some? && t !in s.broker.failed && t in Step(s, a).value.broker.failed
    ensures a.Settle? && a.effective && a.worker in s.tasks && s.tasks[a.worker].tag == t && t in s.broker.bodies
    ensures var task := s.tasks[a.worker];
            s.broker.bodies[t].Job? && task.failure.Some? ==>
              task.attempt == 3 || !TransientTrouble(task.failure.value)
  {
    hide Conserved;
    hide StoreOk;
    hide InLog;
    hide Announced;
    hide IsRetryableForTickets;
    hide Reachable;
    ReachableInv(s);
    assert a.Settle? by { ActKeepsBroker(s, a); }
    assert TaskFits(s, s.tasks[a.worker]);
  }

  lemma ActKeepsBroker(s: State, a: Action)
    requires Step(s, a).Some?
    ensures a.Act? ==> Step(s, a).value.broker == s.broker
  {
    hide TaskStep;
  }

  /** Redelivery finds the same analysis again as long as none is added: there is one latest. */
  lemma LatestIsUnique(records: map<AnalysisId, Record>, ticket: TicketId, a: AnalysisId, b: AnalysisId)
    requires IsLatest(records, ticket, a) && IsLatest(records, ticket, b)
    ensures a == b
  {
    assert records[a].created < records[b].created || (records[a].created == records[b].created && a <= b);
    assert records[b].created < records[a].created || (records[b].created == records[a].created && b <= a);
  }

  /** Every call stays within three handler attempts, and the second and the third follow nothing but
      trouble with a connection or a slow or busy language model. */
  lemma AttemptsAreBounded(s: State, w: WorkerId)
    requires Reachable(s) && w in s.tasks && s.tasks[w].tag in s.broker.bodies && s.broker.bodies[s.tasks[w].tag].Job?
    ensures 1 <= s.tasks[w].attempt <= 3
    ensures var task := s.tasks[w];
            InHandler(task.phase) ==> && (task.attempt > 1 <==> task.failure.Some?)
                                      && (task.failure.Some? ==> TransientTrouble(task.failure.value))
  {
    hide Reachable;
    hide TransientTrouble;
    ReachableInv(s);
    TaskOfInv(s, w);
  }

  // ---- One delivery of a ticket at a time ----

  predicate Active(task: Task) {
    !task.phase.Settling? && !task.phase.Done?
  }

  predicate WorksOn(s: State, w: WorkerId, ticket: TicketId) {
    && w in s.tasks && Active(s.tasks[w])
    && s.tasks[w].tag in s.broker.bodies && s.broker.bodies[s.tasks[w].tag] == Job(ticket)
  }

  ghost predicate OneAtATime(s: State) {
    forall v, w, ticket :: WorksOn(s, v, ticket) && WorksOn(s, w, ticket) ==> v == w
  }

  ghost predicate SequentialRun(s: State, actions: seq<Action>) {
    StaysIn(Step, OneAtATime, s, actions)
  }

  predicate OnePerTicket(records: map<AnalysisId, Record>) {
    forall a, b :: a in records && b in records && records[a].ticket == records[b].ticket ==> a == b
  }

  /** A task that is about to create an analysis knows there is none. */
  predicate Creating(task: Task) {
    task.phase.Analyzing? || task.phase.Committing?
  }

  ghost predicate SequentialInv(s: State) {
    && Inv(s) && OnePerTicket(s.store.records)
    && forall w, ticket :: WorksOn(s, w, ticket) && Creating(s.tasks[w]) ==> NoAnalysis(s.store.records, ticket)
  }

  lemma TaskStepSequential(task: Task, ticket: TicketId, store: Store, e: Effect)
    requires TaskStep(task, ticket, store, e).Some? && TaskOk(task, ticket, store)
    requires OnePerTicket(store.records) && (Creating(task) ==> NoAnalysis(store.records, ticket))
    ensures var (task', store') := TaskStep(task, ticket, store, e).value;
            && OnePerTicket(store'.records) && (Creating(task') ==> NoAnalysis(store'.records, ticket))
            && Active(task) && task'.tag == task.tag
            && forall id :: id in store'.records && id !in store.records ==> store'.records[id].ticket == ticket
  {
    hide IsRetryableForTickets;
    hide Append;
    hide InLog;
  }

  lemma ActSequential(s: State, w: WorkerId, e: Effect)
    requires SequentialInv(s) && OneAtATime(s) && Step(s, Act(w, e)).Some?
    ensures SequentialInv(Step(s, Act(w, e)).value)
  {
    hide TaskStep;
    hide TaskOk;
    hide Inv;
    hide OnePerTicket;
    hide Creating;
    var s' := Step(s, Act(w, e)).value;
    StepInv(s, Act(w, e));
    LaterGrows(s, s');
    var t := s.tasks[w].tag;
    var ticket := s.broker.bodies[t].subject;
    TaskOfInv(s, w);
    assert Active(s.tasks[w]) by { ActiveToAct(s.tasks[w], ticket, s.store, e); }
    assert WorksOn(s, w, ticket);
    TaskStepSequential(s.tasks[w], ticket, s.store, e);
    forall v, c | WorksOn(s', v, c) && Creating(s'.tasks[v]) ensures NoAnalysis(s'.store.records, c) {
      if v != w {
        assert WorksOn(s, v, c) && c != ticket;
        forall id | id in s'.store.records ensures s'.store.records[id].ticket != c {
          if id in s.store.records { assert s'.store.records[id] == s.store.records[id]; }
        }
      }
    }
  }

  lemma LaterGrows(s: State, s': State)
    requires Later(s, s')
    ensures Grows(s.store, s'.store)
  {
  }

  lemma TaskOfInv(s: State, w: WorkerId)
    requires Inv(s) && w in s.tasks && s.tasks[w].tag in s.broker.bodies && s.broker.bodies[s.tasks[w].tag].Job?
    ensures TaskOk(s.tasks[w], s.broker.bodies[s.tasks[w].tag].subject, s.store)
  {
    hide TaskOk;
    assert TaskFits(s, s.tasks[w]);
  }

  lemma ActiveToAct(task: Task, ticket: TicketId, store: Store, e: Effect)
    requires TaskStep(task, ticket, store, e).Some?
    ensures Active(task)
  {
  }

  lemma OtherSequential(s: State, a: Action)
    requires SequentialInv(s) && !a.Act? && Step(s, a).Some?
    ensures SequentialInv(Step(s, a).value)
  {
    hide ActStep;
    hide Inv;
    hide CanDeliver;
    hide OnePerTicket;
    hide NoAnalysis;
    StepInv(s, a);
    var s' := Step(s, a).value;
    assert TasksOk(s) by { InvHasTasksOk(s); }
    forall v, c | WorksOn(s', v, c) && Creating(s'.tasks[v]) ensures NoAnalysis(s'.store.records, c) {
      assert s'.tasks[v] == s.tasks[v];
      assert TaskFits(s, s.tasks[v]);
      assert WorksOn(s, v, c);
    }
  }

  lemma InvHasTasksOk(s: State)
    requires Inv(s)
    ensures TasksOk(s)
  {
  }

  lemma SequentialStep(s: State, a: Action)
    requires SequentialInv(s) && OneAtATime(s) && Step(s, a).Some?
    ensures SequentialInv(Step(s, a).value)
  {
    hide Step;
    hide SequentialInv;
    hide OneAtATime;
    if a.Act? { ActSequential(s, a.worker, a.effect); } else { OtherSequential(s, a); }
  }

  lemma SequentialRunKeeps(s: State, actions: seq<Action>)
    requires SequentialInv(s) && SequentialRun(s, actions)
    ensures Run(s, actions).Some? && SequentialInv(Run(s, actions).value)
  {
    hide Step;
    hide SequentialInv;
    hide OneAtATime;
    forall t, a | SequentialInv(t) && OneAtATime(t) && Step(t, a).Some? ensures SequentialInv(Step(t, a).value) {
      SequentialStep(t, a);
    }
    KeepsWithin(Step, OneAtATime, SequentialInv, s, actions);
  }

  /** Processed one delivery at a time, through any crashes, requeues and lost replies: a ticket
      gets at most one analysis, and every event ever published for it carries that one's id. */
  lemma OneAnalysisPerTicket(s: State, actions: seq<Action>)
    requires Init(s) && SequentialRun(s, actions) && Run(s, actions).Some?
    ensures var store := Run(s, actions).value.store;
            && OnePerTicket(store.records)
            && forall p, q, d, e :: (p in store.log && d in store.log[p] && q in store.log && e in store.log[q]
                                     && d.ticket == e.ticket) ==> d.analysis == e.analysis
  {
    hide Run;
    hide SequentialRun;
    assert Inv(s);
    assert SequentialInv(s);
    SequentialRunKeeps(s, actions);
    var store := Run(s, actions).value.store;
    forall p, q, d, e | p in store.log && d in store.log[p] && q in store.log && e in store.log[q]
             && d.ticket == e.ticket
      ensures d.analysis == e.analysis
    {
      assert Truthful(store.records, d) && Truthful(store.records, e);
    }
  }

  // ---- Two workers on one ticket ----

  /** Ticket 0 while workers 0 and 1 each process a delivery for it. */
  function Two(store: Store, tasks: map<WorkerId, Task>): State {
    State(store, Broker(map[0 := Job(0), 1 := Job(0)], {}, map[0 := 0, 1 := 1], {}, {}), tasks)
  }

  const CREATED := Store({0}, map[], {}, map[])
  const BOTH_LOADING: map<WorkerId, Task> :=
    map[0 := Task(0, 1, Loading, None, None), 1 := Task(1, 1, Loading, None, None)]

  lemma TwoStart()
    ensures Reachable(Two(CREATED, BOTH_LOADING))
  {
    hide Reachable;
    hide ActStep;
    var s0 := State(CREATED, EMPTY, map[]);
    assert Reachable(s0) by { ReachableStart(s0); }
    ReachableStep(s0, Publish(0, Job(0)));
    var s1 := Step(s0, Publish(0, Job(0))).value;
    ReachableStep(s1, Publish(1, Job(0)));
    var s2 := Step(s1, Publish(1, Job(0))).value;
    ReachableStep(s2, Deliver(0, 0));
    var s3 := Step(s2, Deliver(0, 0)).value;
    ReachableStep(s3, Deliver(1, 1));
    var s4 := Step(s3, Deliver(1, 1)).value;
    assert s4.broker.ready == {} && s4.broker.bodies == map[0 := Job(0), 1 := Job(0)];
  }

  lemma ReachableStart(s: State)
    requires Init(s)
    ensures Reachable(s)
  {
    StartReaches(Step, Init, s);
  }

  lemma OneActs(store: Store, tasks: map<WorkerId, Task>, w: WorkerId, e: Effect, store': Store, task': Task)
    requires Reachable(Two(store, tasks)) && w < 2 && w in tasks && tasks[w].tag == w
    requires TaskStep(tasks[w], 0, store, e) == Some((task', store'))
    ensures Reachable(Two(store', tasks[w := task']))
  {
    hide Reachable;
    hide TaskStep;
    var s := Two(store, tasks);
    ReachableStep(s, Act(w, e));
    assert Step(s, Act(w, e)).value == Two(store', tasks[w := task']);
  }

  /** A worker that finds no analysis goes on to create one. */
  lemma FindsNothing(store: Store, tasks: map<WorkerId, Task>, w: WorkerId)
    requires Reachable(Two(store, tasks)) && 0 in store.tickets && NoAnalysis(store.records, 0)
    requires w < 2 && w in tasks && tasks[w] == Task(w, 1, Loading, None, None)
    ensures Reachable(Two(store, tasks[w := Task(w, 1, Analyzing, None, None)]))
  {
    hide Reachable;
    hide Two;
    var t1 := Task(w, 1, Finding, None, None);
    OneActs(store, tasks, w, Query(None, None), store, t1);
    var t2 := Task(w, 1, Analyzing, None, None);
    OneActs(store, tasks[w := t1], w, Query(None, None), store, t2);
    assert tasks[w := t1][w := t2] == tasks[w := t2];
  }

  /** A worker that creates an analysis commits it, whatever the other one has stored by now. */
  lemma Creates(store: Store, tasks: map<WorkerId, Task>, w: WorkerId, id: AnalysisId)
    requires Reachable(Two(store, tasks)) && id !in store.issued && id !in store.records
    requires w < 2 && w in tasks && tasks[w] == Task(w, 1, Analyzing, None, None)
    ensures Reachable(Two(store.(issued := store.issued + {id}, records := store.records[id := Record(0, 0)]),
                          tasks[w := Completed(tasks[w], Event(0, id))]))
  {
    hide Reachable;
    hide Two;
    var issued := store.(issued := store.issued + {id});
    var t1 := Task(w, 1, Committing(id, Record(0, 0)), None, None);
    OneActs(store, tasks, w, Answer(id, 0), issued, t1);
    var t2 := Completed(tasks[w], Event(0, id));
    OneActs(issued, tasks[w := t1], w, Write(Committed, LlmTimeout),
            issued.(records := issued.records[id := Record(0, 0)]), t2);
    assert tasks[w := t1][w := t2] == tasks[w := t2];
  }

  /** Two workers may each find nothing and each store an analysis of the same ticket. */
  lemma ConcurrentDuplicates()
    ensures exists s, a, b :: Reachable(s) && a in s.store.records && b in s.store.records && a != b
                              && s.store.records[a].ticket == s.store.records[b].ticket
  {
    hide Reachable;
    hide TaskStep;
    TwoStart();
    FindsNothing(CREATED, BOTH_LOADING, 0);
    var tasks := BOTH_LOADING[0 := Task(0, 1, Analyzing, None, None)];
    FindsNothing(CREATED, tasks, 1);
    tasks := tasks[1 := Task(1, 1, Analyzing, None, None)];
    Creates(CREATED, tasks, 0, 0);
    var first := CREATED.(issued := CREATED.issued + {0}, records := CREATED.records[0 := Record(0, 0)]);
    tasks := tasks[0 := Completed(tasks[0], Event(0, 0))];
    Creates(first, tasks, 1, 1);
    var both := first.(issued := first.issued + {1}, records := first.records[1 := Record(0, 0)]);
    tasks := tasks[1 := Completed(tasks[1], Event(0, 1))];
    assert 0 in Two(both, tasks).store.records && 1 in Two(both, tasks).store.records;
  }
}
