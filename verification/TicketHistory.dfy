/** What becomes of a ticket-analysis delivery once its analysis is known, while its call works or
    waits, and why it was dead-lettered, told by the actions of the run itself. */
module TicketHistory {
  import opened Wrappers
  import opened Executions
  import opened Failures
  import opened Brokers
  import opened TicketAnalysis
  import opened TicketAnalysisSafety

  // ---- The run behind a state ----

  function StateAt(s0: State, actions: seq<Action>, i: nat): Option<State>
    requires i <= |actions|
  {
    Run(s0, actions[..i])
  }

  lemma SamePast(s0: State, past: seq<Action>, a: Action, i: nat)
    requires i <= |past|
    ensures StateAt(s0, past + [a], i) == StateAt(s0, past, i)
    ensures i < |past| ==> (past + [a])[i] == past[i]
    ensures StateAt(s0, past, |past|) == Run(s0, past)
  {
    assert (past + [a])[..i] == past[..i];
    assert past[..|past|] == past;
  }

  lemma PastInv(s0: State, past: seq<Action>)
    requires Init(s0) && Run(s0, past).Some?
    ensures Inv(Run(s0, past).value) && Reachable(Run(s0, past).value)
  {
    hide Step;
    hide Inv;
    hide Later;
    InitInv(s0);
    RunInv(s0, past);
  }

  // ---- Nothing is withdrawn ----

  /** Over every continuation: no analysis and no event is withdrawn, and an acknowledged or
      dead-lettered delivery stays where it is. */
  lemma RecordedForGood(s: State, actions: seq<Action>)
    requires Reachable(s) && Run(s, actions).Some?
    ensures var s' := Run(s, actions).value;
            && (forall id :: id in s.store.records ==>
                               id in s'.store.records && s'.store.records[id] == s.store.records[id])
            && (forall p :: p in s.store.log ==> p in s'.store.log && s.store.log[p] <= s'.store.log[p])
            && s.broker.acked <= s'.broker.acked && s.broker.failed <= s'.broker.failed
  {
    hide Reachable;
    hide Run;
    hide Inv;
    ReachableInv(s);
    RunInv(s, actions);
  }

  // ---- After the handler has returned ----

  /** A call that knows the committed analysis is never about to reject its delivery. */
  lemma CompletedIsNeverRejected(s: State, w: WorkerId)
    requires Reachable(s) && w in s.tasks && s.tasks[w].completed.Some?
    ensures s.tasks[w].phase != Settling(Reject) && PastHandler(s.tasks[w].phase)
    ensures Truthful(s.store.records, s.tasks[w].completed.value)
  {
    hide Reachable;
    hide StoreOk;
    hide Conserved;
    ReachableInv(s);
    assert TaskFits(s, s.tasks[w]);
  }

  /** No step dead-letters a delivery whose call knows the committed analysis. */
  lemma CompletedIsNeverDeadLettered(s: State, a: Action, t: Tag)
    requires Reachable(s) && Step(s, a).Some?
    requires t in s.broker.unacked && s.broker.unacked[t] in s.tasks && s.tasks[s.broker.unacked[t]].completed.Some?
    ensures t !in Step(s, a).value.broker.failed
  {
    hide Reachable;
    hide ActStep;
    hide StoreOk;
    hide Announced;
    hide TaskOk;
    hide PastHandler;
    ReachableInv(s);
    InExactlyOnePlace(s.broker, t);
    CompletedIsNeverRejected(s, s.broker.unacked[t]);
    ActKeepsBroker(s, a);
  }

  /** A delivery whose publishes all failed goes back: the settlement the broker sees makes it ready
      again, with its analysis committed. */
  lemma RequeueReturns(s: State, w: WorkerId, t: Tag)
    requires Reachable(s) && w in s.tasks && s.tasks[w].phase == Settling(Requeue)
    requires t in s.broker.unacked && s.broker.unacked[t] == w
    ensures Step(s, Settle(w, true)).Some? && t in Step(s, Settle(w, true)).value.broker.ready
    ensures s.tasks[w].completed.Some? && Truthful(s.store.records, s.tasks[w].completed.value)
  {
    hide Reachable;
    hide StoreOk;
    hide Announced;
    hide Conserved;
    ReachableInv(s);
    assert s.tasks[w].tag == t && TaskFits(s, s.tasks[w]);
  }

  // ---- Three failed publishes ----

  /** At action `i` worker `w`, processing `t`, made its `n`-th attempt to publish `e`, unconfirmed. */
  ghost predicate SendFailedAt(s0: State, actions: seq<Action>, i: nat, w: WorkerId, t: Tag, e: Event, n: nat)
    requires i < |actions|
  {
    var s := StateAt(s0, actions, i);
    && s.Some? && actions[i].Act? && actions[i].worker == w
    && actions[i].effect.Send? && !actions[i].effect.outcome.Committed?
    && w in s.value.tasks && s.value.tasks[w].tag == t && s.value.tasks[w].phase == Publishing(e, n)
  }

  /** Attempts 1 to `n` were made one after the other, and all failed. */
  ghost predicate FailedSends(s0: State, actions: seq<Action>, w: WorkerId, t: Tag, e: Event, n: nat)
    decreases n
  {
    n > 0 ==> exists i :: 0 <= i < |actions| && SendFailedAt(s0, actions, i, w, t, e, n)
                          && FailedSends(s0, actions[..i], w, t, e, n - 1)
  }

  /** How many publishes of the call have failed where it stands. */
  function FailedCount(phase: Phase): nat {
    match phase
    case Publishing(_, attempt) => if attempt > 0 then attempt - 1 else 0
    case PublishWaiting(_, attempt) => attempt
    case Settling(Requeue) => MAX_HANDLER_ATTEMPTS
    case _ => 0
  }

  ghost predicate SendsExplained(s0: State, past: seq<Action>, s: State) {
    forall w :: w in s.tasks && s.tasks[w].completed.Some? ==>
                  FailedSends(s0, past, w, s.tasks[w].tag, s.tasks[w].completed.value, FailedCount(s.tasks[w].phase))
  }

  lemma FailedSendsBefore(s0: State, past: seq<Action>, a: Action, w: WorkerId, t: Tag, e: Event, n: nat)
    requires FailedSends(s0, past, w, t, e, n)
    ensures FailedSends(s0, past + [a], w, t, e, n)
  {
    hide StateAt;
    if n > 0 {
      var i :| 0 <= i < |past| && SendFailedAt(s0, past, i, w, t, e, n) && FailedSends(s0, past[..i], w, t, e, n - 1);
      SamePast(s0, past, a, i);
      assert (past + [a])[..i] == past[..i];
      assert SendFailedAt(s0, past + [a], i, w, t, e, n);
    }
  }

  /** No step but a publish changes the number of failed publishes, unless it becomes zero. */
  lemma CountsSends(task: Task, ticket: TicketId, store: Store, e: Effect)
    requires TaskStep(task, ticket, store, e).Some? && TaskOk(task, ticket, store) && !e.Send?
    requires TaskStep(task, ticket, store, e).value.0.completed.Some?
    ensures var task' := TaskStep(task, ticket, store, e).value.0;
            || FailedCount(task'.phase) == 0
            || (task.completed == task'.completed && FailedCount(task'.phase) == FailedCount(task.phase))
  {
    hide IsRetryableForTickets;
    hide Append;
    hide InLog;
    hide NoAnalysis;
    hide IsLatest;
    hide Truthful;
  }

  lemma SendsStep(s0: State, past: seq<Action>, s: State, a: Action)
    requires Reachable(s) && Inv(s) && Run(s0, past) == Some(s) && SendsExplained(s0, past, s) && Step(s, a).Some?
    ensures SendsExplained(s0, past + [a], Step(s, a).value)
  {
    hide Run;
    hide TaskStep;
    hide FailedSends;
    hide TaskOk;
    hide CanDeliver;
    hide StoreOk;
    hide FailedCount;
    hide Reachable;
    var s' := Step(s, a).value;
    forall w | w in s'.tasks && s'.tasks[w].completed.Some?
      ensures FailedSends(s0, past + [a], w, s'.tasks[w].tag, s'.tasks[w].completed.value,
                          FailedCount(s'.tasks[w].phase))
    {
      if w in s.tasks && s'.tasks[w] == s.tasks[w] {
        FailedSendsBefore(s0, past, a, w, s.tasks[w].tag, s.tasks[w].completed.value, FailedCount(s.tasks[w].phase));
      } else if a.Act? {
        SendsOfActor(s0, past, s, a, w);
      } else {
        assert FailedCount(s'.tasks[w].phase) == 0 by { assert s'.tasks[w].phase.Done?; NoneFailed(s'.tasks[w].phase); }
        NoSends(s0, past + [a], w, s'.tasks[w].tag, s'.tasks[w].completed.value);
      }
    }
  }

  lemma NoneFailed(phase: Phase)
    requires phase.Done?
    ensures FailedCount(phase) == 0
  {
  }

  lemma NoSends(s0: State, past: seq<Action>, w: WorkerId, t: Tag, e: Event)
    ensures FailedSends(s0, past, w, t, e, 0)
  {
  }

  lemma SendsOfActor(s0: State, past: seq<Action>, s: State, a: Action, w: WorkerId)
    requires Reachable(s) && Inv(s) && Run(s0, past) == Some(s) && SendsExplained(s0, past, s)
    requires a.Act? && a.worker == w && Step(s, a).Some? && Step(s, a).value.tasks[w].completed.Some?
    ensures var task' := Step(s, a).value.tasks[w];
            FailedSends(s0, past + [a], w, task'.tag, task'.completed.value, FailedCount(task'.phase))
  {
    hide Run;
    hide TaskStep;
    hide TaskOk;
    hide StoreOk;
    hide FailedSends;
    hide Reachable;
    var task := s.tasks[w];
    var ticket := s.broker.bodies[task.tag].subject;
    assert TaskFits(s, task);
    TaskStepKeeps(task, ticket, s.store, a.effect) by { assert StoreOk(s.store); }
    var task' := Step(s, a).value.tasks[w];
    var e, n := task'.completed.value, FailedCount(task'.phase);
    if a.effect.Send? {
      OnlyPublishingSends(task, ticket, s.store, a.effect);
      PublishFailureRequeues(s, w, a.effect);
      if a.effect.outcome.Committed? {
        NoSends(s0, past + [a], w, task.tag, e);
      } else {
        FailedAttempt(task, ticket, s.store);
        OneMoreFailed(s0, past, s, a, w, task.tag, e, n);
      }
    } else {
      CountsSends(task, ticket, s.store, a.effect);
      if n == 0 { NoSends(s0, past + [a], w, task.tag, e); } else { FailedSendsBefore(s0, past, a, w, task.tag, e, n); }
    }
  }

  lemma OnlyPublishingSends(task: Task, ticket: TicketId, store: Store, e: Effect)
    requires TaskStep(task, ticket, store, e).Some? && e.Send?
    ensures task.phase.Publishing?
  {
  }

  lemma FailedAttempt(task: Task, ticket: TicketId, store: Store)
    requires TaskOk(task, ticket, store) && task.phase.Publishing?
    ensures 1 <= task.phase.attempt <= MAX_HANDLER_ATTEMPTS && task.completed == Some(task.phase.event)
    ensures FailedCount(task.phase) == task.phase.attempt - 1
  {
  }

  lemma OneMoreFailed(s0: State, past: seq<Action>, s: State, a: Action, w: WorkerId, t: Tag, e: Event, n: nat)
    requires Run(s0, past) == Some(s) && n > 0 && FailedSends(s0, past, w, t, e, n - 1)
    requires a.Act? && a.worker == w && a.effect.Send? && !a.effect.outcome.Committed?
    requires w in s.tasks && s.tasks[w].tag == t && s.tasks[w].phase == Publishing(e, n)
    ensures FailedSends(s0, past + [a], w, t, e, n)
  {
    hide Run;
    SamePast(s0, past, a, |past|);
    assert (past + [a])[..|past|] == past;
    assert SendFailedAt(s0, past + [a], |past|, w, t, e, n);
  }

  /** Over every run: a call comes to put its delivery back only after its first, second and third
      attempt to publish the event of its committed analysis all went unconfirmed. */
  lemma RequeuedAfterThreeFailures(s0: State, actions: seq<Action>, w: WorkerId)
    requires Init(s0) && Run(s0, actions).Some? && w in Run(s0, actions).value.tasks
    requires Run(s0, actions).value.tasks[w].phase == Settling(Requeue)
    ensures var s := Run(s0, actions).value;
            && s.tasks[w].completed.Some? && Truthful(s.store.records, s.tasks[w].completed.value)
            && FailedSends(s0, actions, w, s.tasks[w].tag, s.tasks[w].completed.value, 3)
  {
    hide Step;
    hide Init;
    hide Inv;
    hide FailedSends;
    assert SendsExplained(s0, [], s0) by { SendsStart(s0); }
    hide SendsExplained;
    forall past, t, a | Execute(Step, s0, past) == Some(t) && SendsExplained(s0, past, t) && Step(t, a).Some?
      ensures SendsExplained(s0, past + [a], Step(t, a).value)
    {
      PastInv(s0, past);
      SendsStep(s0, past, t, a);
    }
    KeepsHistory(Step, (past, t) => SendsExplained(s0, past, t), s0, actions);
    PastInv(s0, actions);
    RequeueExplained(s0, actions, Run(s0, actions).value, w);
  }

  lemma SendsStart(s0: State)
    requires Init(s0)
    ensures SendsExplained(s0, [], s0)
  {
  }

  lemma RequeueExplained(s0: State, past: seq<Action>, s: State, w: WorkerId)
    requires Inv(s) && SendsExplained(s0, past, s) && w in s.tasks && s.tasks[w].phase == Settling(Requeue)
    ensures s.tasks[w].completed.Some? && Truthful(s.store.records, s.tasks[w].completed.value)
    ensures FailedSends(s0, past, w, s.tasks[w].tag, s.tasks[w].completed.value, 3)
  {
    hide FailedSends;
    hide StoreOk;
    assert TaskFits(s, s.tasks[w]);
  }

  // ---- A delivery stays where it is while its call works or waits ----

  /** Until its call settles it or its connection goes, a delivery stays unacknowledged with the worker
      that holds it, in particular through every retry wait. */
  lemma DeliveryIsHeld(s: State, a: Action, w: WorkerId, t: Tag)
    requires Reachable(s) && Step(s, a).Some?
    requires t in s.broker.unacked && s.broker.unacked[t] == w && a != Disconnect(w) && a != Crash(w)
    ensures w in s.tasks && s.tasks[w].tag == t
    ensures var b' := Step(s, a).value.broker;
            (t in b'.unacked && b'.unacked[t] == w) || (a.Settle? && a.worker == w && s.tasks[w].phase.Settling?)
  {
    hide Reachable;
    hide ActStep;
    hide StoreOk;
    hide TasksOk;
    hide AckedAnnounced;
    ReachableInv(s);
    if a.Act? { ActKeepsBroker(s, a); } else { InExactlyOnePlace(s.broker, t); }
  }

  /** Over every run in which the worker neither settles nor loses its connection. */
  lemma {:induction false} HeldThroughout(s: State, actions: seq<Action>, w: WorkerId, t: Tag)
    requires Reachable(s) && Run(s, actions).Some? && t in s.broker.unacked && s.broker.unacked[t] == w
    requires forall a :: a in actions ==> a != Disconnect(w) && a != Crash(w) && !(a.Settle? && a.worker == w)
    ensures var b' := Run(s, actions).value.broker; t in b'.unacked && b'.unacked[t] == w
    decreases |actions|
  {
    hide Reachable;
    hide Step;
    if actions != [] {
      DeliveryIsHeld(s, actions[0], w, t);
      ReachableStep(s, actions[0]);
      HeldThroughout(Step(s, actions[0]).value, actions[1..], w, t);
    }
  }

  // ---- Why a delivery was dead-lettered ----

  /** The handler failed for good, before it returned any analysis. */
  predicate RejectCause(task: Task) {
    && task.failure.Some? && task.completed.None?
    && (task.attempt == 3 || !TransientTrouble(task.failure.value))
  }

  /** At action `i` the worker of `task` looked for its ticket, found none, and became `task`. */
  ghost predicate NotFoundAt(s0: State, actions: seq<Action>, i: nat, task: Task, w: WorkerId)
    requires i < |actions|
  {
    var s := StateAt(s0, actions, i);
    && s.Some? && actions[i].Act? && actions[i].worker == w && actions[i].effect.Query? && actions[i].effect.error.None?
    && w in s.value.tasks && s.value.tasks[w].phase.Loading?
    && task == s.value.tasks[w].(phase := Settling(Reject), failure := None)
    && task.tag in s.value.broker.bodies && s.value.broker.bodies[task.tag].Job?
    && s.value.broker.bodies[task.tag].subject !in s.value.store.tickets
  }

  ghost predicate NotFound(s0: State, actions: seq<Action>, task: Task, w: WorkerId) {
    exists i :: 0 <= i < |actions| && NotFoundAt(s0, actions, i, task, w)
  }

  /** At action `j` the worker that held `t` rejected it: its handler had found no ticket before, or had
      failed for good. */
  ghost predicate RejectedAt(s0: State, actions: seq<Action>, j: nat, t: Tag)
    requires j < |actions|
  {
    var s := StateAt(s0, actions, j);
    && s.Some? && actions[j].Settle? && actions[j].effective && actions[j].worker in s.value.tasks
    && var w := actions[j].worker;
       var task := s.value.tasks[w];
       && task.tag == t && task.phase == Settling(Reject)
       && t in s.value.broker.unacked && s.value.broker.unacked[t] == w
       && (RejectCause(task) || NotFound(s0, actions[..j], task, w))
  }

  ghost predicate Rejected(s0: State, actions: seq<Action>, t: Tag) {
    exists j :: 0 <= j < |actions| && RejectedAt(s0, actions, j, t)
  }

  lemma NotFoundBefore(s0: State, past: seq<Action>, a: Action, task: Task, w: WorkerId)
    requires NotFound(s0, past, task, w)
    ensures NotFound(s0, past + [a], task, w)
  {
    hide StateAt;
    var i :| 0 <= i < |past| && NotFoundAt(s0, past, i, task, w);
    SamePast(s0, past, a, i);
    assert NotFoundAt(s0, past + [a], i, task, w);
  }

  lemma RejectedBefore(s0: State, past: seq<Action>, a: Action, t: Tag)
    requires Rejected(s0, past, t)
    ensures Rejected(s0, past + [a], t)
  {
    hide StateAt;
    hide NotFound;
    var j :| 0 <= j < |past| && RejectedAt(s0, past, j, t);
    SamePast(s0, past, a, j);
    assert (past + [a])[..j] == past[..j];
    assert RejectedAt(s0, past + [a], j, t);
  }

  /** Every call about to reject without a recorded failure has looked for its ticket in vain. */
  ghost predicate QuietRejectsExplained(s0: State, past: seq<Action>, s: State) {
    forall w :: (w in s.tasks && s.tasks[w].phase == Settling(Reject) && s.tasks[w].failure.None?
                 && s.tasks[w].tag in s.broker.bodies && s.broker.bodies[s.tasks[w].tag].Job?)
                ==> NotFound(s0, past, s.tasks[w], w)
  }

  lemma QuietRejectsStep(s0: State, past: seq<Action>, s: State, a: Action)
    requires Inv(s) && Run(s0, past) == Some(s) && QuietRejectsExplained(s0, past, s) && Step(s, a).Some?
    ensures QuietRejectsExplained(s0, past + [a], Step(s, a).value)
  {
    hide Run;
    hide TaskStep;
    hide NotFound;
    hide TaskOk;
    hide CanDeliver;
    hide StoreOk;
    var s' := Step(s, a).value;
    forall w | w in s'.tasks && s'.tasks[w].phase == Settling(Reject) && s'.tasks[w].failure.None?
               && s'.tasks[w].tag in s'.broker.bodies && s'.broker.bodies[s'.tasks[w].tag].Job?
      ensures NotFound(s0, past + [a], s'.tasks[w], w)
    {
      if w in s.tasks && s'.tasks[w] == s.tasks[w] {
        assert TaskFits(s, s.tasks[w]);
        NotFoundBefore(s0, past, a, s.tasks[w], w);
      } else {
        NotFoundNow(s0, past, s, a, w);
      }
    }
  }

  lemma NotFoundNow(s0: State, past: seq<Action>, s: State, a: Action, w: WorkerId)
    requires Inv(s) && Run(s0, past) == Some(s) && Step(s, a).Some?
    requires var s' := Step(s, a).value;
             && w in s'.tasks && s'.tasks[w].phase == Settling(Reject) && s'.tasks[w].failure.None?
             && (w in s.tasks ==> s'.tasks[w] != s.tasks[w])
             && s'.tasks[w].tag in s'.broker.bodies && s'.broker.bodies[s'.tasks[w].tag].Job?
    ensures NotFound(s0, past + [a], Step(s, a).value.tasks[w], w)
  {
    hide Run;
    hide TaskStep;
    hide CanDeliver;
    hide TaskOk;
    hide StoreOk;
    var task := s.tasks[w];
    var ticket := s.broker.bodies[task.tag].subject;
    assert TaskFits(s, task);
    RejectedWithoutFailure(task, ticket, s.store, a.effect);
    NotFoundTask(task, ticket, s.store, a.effect);
    SamePast(s0, past, a, |past|);
    assert NotFoundAt(s0, past + [a], |past|, Step(s, a).value.tasks[w], w);
  }

  lemma NotFoundTask(task: Task, ticket: TicketId, store: Store, e: Effect)
    requires task.phase.Loading? && e.Query? && e.error.None? && ticket !in store.tickets
    ensures TaskStep(task, ticket, store, e) == Some((task.(phase := Settling(Reject), failure := None), store))
  {
  }

  lemma QuietRejectsHistory(s0: State, actions: seq<Action>)
    requires Init(s0) && Run(s0, actions).Some?
    ensures QuietRejectsExplained(s0, actions, Run(s0, actions).value)
  {
    hide Step;
    hide Init;
    hide QuietRejectsExplained;
    hide Inv;
    assert QuietRejectsExplained(s0, [], s0) by { QuietRejectsStart(s0); }
    forall past, t, a | Execute(Step, s0, past) == Some(t) && QuietRejectsExplained(s0, past, t) && Step(t, a).Some?
      ensures QuietRejectsExplained(s0, past + [a], Step(t, a).value)
    {
      PastInv(s0, past);
      QuietRejectsStep(s0, past, t, a);
    }
    KeepsHistory(Step, (past, t) => QuietRejectsExplained(s0, past, t), s0, actions);
  }

  lemma QuietRejectsStart(s0: State)
    requires Init(s0)
    ensures QuietRejectsExplained(s0, [], s0)
  {
  }

  ghost predicate DeadLettersExplained(s0: State, past: seq<Action>, s: State) {
    forall t :: t in s.broker.failed ==>
                  t in s.broker.bodies && (s.broker.bodies[t].Malformed? || Rejected(s0, past, t))
  }

  lemma DeadLettersStep(s0: State, past: seq<Action>, s: State, a: Action)
    requires Init(s0) && Run(s0, past) == Some(s) && DeadLettersExplained(s0, past, s) && Step(s, a).Some?
    ensures DeadLettersExplained(s0, past + [a], Step(s, a).value)
  {
    hide Run;
    hide Step;
    hide Init;
    hide Rejected;
    hide Reachable;
    hide Inv;
    PastInv(s0, past);
    StepInv(s, a);
    var s' := Step(s, a).value;
    forall t | t in s'.broker.failed
      ensures t in s'.broker.bodies && (s'.broker.bodies[t].Malformed? || Rejected(s0, past + [a], t))
    {
      if t in s.broker.failed {
        if Rejected(s0, past, t) { RejectedBefore(s0, past, a, t); }
      } else {
        DeadLetteredForCause(s, a, t);
        if s.broker.bodies[t].Job? { RejectedNow(s0, past, s, a, t); }
      }
    }
  }

  lemma RejectedNow(s0: State, past: seq<Action>, s: State, a: Action, t: Tag)
    requires Init(s0) && Run(s0, past) == Some(s) && Step(s, a).Some? && a.Settle? && a.effective
    requires a.worker in s.tasks && s.tasks[a.worker].tag == t && t in s.broker.bodies && s.broker.bodies[t].Job?
    requires t !in s.broker.failed && t in Step(s, a).value.broker.failed
    requires var task := s.tasks[a.worker];
             task.failure.Some? ==> task.attempt == 3 || !TransientTrouble(task.failure.value)
    ensures Rejected(s0, past + [a], t)
  {
    hide Run;
    hide Init;
    hide NotFound;
    hide Conserved;
    hide Reachable;
    hide IsRetryableForTickets;
    SamePast(s0, past, a, |past|);
    assert (past + [a])[..|past|] == past;
    QuietRejectsHistory(s0, past);
    PastInv(s0, past);
    if s.tasks[a.worker].completed.Some? { CompletedIsNeverRejected(s, a.worker); }
    assert RejectedAt(s0, past + [a], |past|, t);
  }

  /** Over every run: a delivery in the failed queue had a malformed body, or was rejected by the worker
      that held it after its handler had looked for the ticket and found none, or after its handler
      failed on the third attempt or with an error that is not retried, without returning an analysis. */
  lemma EveryDeadLetterHasItsCause(s0: State, actions: seq<Action>, t: Tag)
    requires Init(s0) && Run(s0, actions).Some? && t in Run(s0, actions).value.broker.failed
    ensures var b := Run(s0, actions).value.broker;
            t in b.bodies && (b.bodies[t].Malformed? || Rejected(s0, actions, t))
  {
    hide Step;
    hide Init;
    hide Rejected;
    assert DeadLettersExplained(s0, [], s0) by { DeadLettersStart(s0); }
    forall past, u, a | Execute(Step, s0, past) == Some(u) && DeadLettersExplained(s0, past, u) && Step(u, a).Some?
      ensures DeadLettersExplained(s0, past + [a], Step(u, a).value)
    {
      DeadLettersStep(s0, past, u, a);
    }
    KeepsHistory(Step, (past, u) => DeadLettersExplained(s0, past, u), s0, actions);
  }

  lemma DeadLettersStart(s0: State)
    requires Init(s0)
    ensures DeadLettersExplained(s0, [], s0)
  {
  }

  // ---- An analysis nobody announces ----

  /** A call that does not learn of its own commit can dead-letter its delivery: the analysis is stored,
      no event announces it, and no delivery is left that would. */
  lemma LostReplyMayDeadLetter(id: AnalysisId, created: int, f: Failure)
    requires !IsRetryableForTickets(f)
    ensures exists s :: Reachable(s) && s.broker.failed == {0} && s.broker.bodies == map[0 := Job(0)]
                        && s.store.records == map[id := Record(0, created)] && s.store.log == map[]
  {
    hide Reachable;
    hide TaskStep;
    hide IsRetryableForTickets;
    var s0 := State(Store({}, map[], {}, map[]), EMPTY, map[]);
    StartReaches(Step, Init, s0);
    assert Reachable(s0) by { ReachableStart(s0); }
    var s1 := Taken(s0, Create(0));
    var s2 := Taken(s1, Publish(0, Job(0)));
    var s3 := Taken(s2, Deliver(0, 0));
    var task := Task(0, 1, Loading, None, None);
    assert s3.tasks == map[0 := task];
    var store := s3.store;
    var stored := store.(issued := {id}, records := map[id := Record(0, created)]);
    LostReplySteps(task, store, id, created, f);
    var s4 := Acts(s3, 0, Query(None, None), task.(phase := Finding), store);
    var s5 := Acts(s4, 0, Query(None, None), task.(phase := Analyzing), store);
    var s6 := Acts(s5, 0, Answer(id, created), task.(phase := Committing(id, Record(0, created))),
                   store.(issued := {id}));
    var s7 := Acts(s6, 0, Write(ReplyLost, f), task.(phase := Settling(Reject), failure := Some(f)), stored);
    var s8 := Taken(s7, Settle(0, true));
    assert s8.broker.failed == {0} && s8.store == stored;
  }

  lemma Taken(s: State, a: Action) returns (s': State)
    requires Reachable(s) && Step(s, a).Some?
    ensures Reachable(s') && Step(s, a) == Some(s')
  {
    hide Reachable;
    hide Step;
    ReachableStep(s, a);
    s' := Step(s, a).value;
  }

  lemma Acts(s: State, w: WorkerId, e: Effect, task: Task, store: Store) returns (s': State)
    requires Reachable(s) && w in s.tasks && s.tasks[w].tag in s.broker.bodies && s.broker.bodies[s.tasks[w].tag].Job?
    requires TaskStep(s.tasks[w], s.broker.bodies[s.tasks[w].tag].subject, s.store, e) == Some((task, store))
    ensures Reachable(s') && s' == s.(store := store, tasks := s.tasks[w := task])
  {
    hide Reachable;
    hide TaskStep;
    s' := Taken(s, Act(w, e));
  }

  lemma LostReplySteps(task: Task, store: Store, id: AnalysisId, created: int, f: Failure)
    requires task == Task(0, 1, Loading, None, None) && store == Store({0}, map[], {}, map[])
             && !IsRetryableForTickets(f)
    ensures var record := Record(0, created);
            && TaskStep(task, 0, store, Query(None, None)) == Some((task.(phase := Finding), store))
            && TaskStep(task.(phase := Finding), 0, store, Query(None, None))
               == Some((task.(phase := Analyzing), store))
            && TaskStep(task.(phase := Analyzing), 0, store, Answer(id, created))
               == Some((task.(phase := Committing(id, record)), store.(issued := {id})))
            && TaskStep(task.(phase := Committing(id, record)), 0, store.(issued := {id}), Write(ReplyLost, f))
               == Some((task.(phase := Settling(Reject), failure := Some(f)),
                        store.(issued := {id}, records := map[id := record])))
  {
    hide IsRetryableForTickets;
    assert store.issued + {id} == {id};
  }
}
