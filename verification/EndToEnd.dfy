/** From a ticket job to a notification: the ticket-analysis workers and the notification worker
    share the `analysis.completed` topic, and subscribers keep one message per analysis id. */
module EndToEnd {
  import opened Wrappers
  import opened Executions
  import opened KafkaEvents
  import T = TicketAnalysis
  import TS = TicketAnalysisSafety
  import K = KafkaConsumption
  import KS = KafkaSafety

  datatype State = State(tickets: T.State, group: K.State)

  datatype Action = Produce(ticketAction: T.Action) | Consume(kafkaAction: K.Action)

  function Source(p: T.Partition): K.TopicPartition {
    K.TopicPartition(K.AnalysisCompleted, p)
  }

  /** The event that a step of the ticket workers puts into the topic, if any. */
  function Sent(t: T.State, a: T.Action): Option<(T.Partition, Event)> {
    if a.Act? && a.worker in t.tasks && t.tasks[a.worker].phase.Publishing?
       && a.effect.Send? && a.effect.outcome.Applied()
    then Some((a.effect.partition, t.tasks[a.worker].phase.event))
    else None
  }

  /** The ticket workers are the only producers of `analysis.completed`. */
  predicate Foreign(a: K.Action) {
    a.Append? && a.target.topic.AnalysisCompleted?
  }

  function Step(s: State, a: Action): Option<State> {
    match a
    case Produce(b) =>
      var t := T.Step(s.tickets, b);
      if t.None? then None
      else
        var sent := Sent(s.tickets, b);
        var group := if sent.None? then s.group
                     else K.Step(s.group, K.Append(Source(sent.value.0), EncodeAnalysisCompleted(sent.value.1))).value;
        Some(State(t.value, group))
    case Consume(b) =>
      if Foreign(b) then None
      else
        var k := K.Step(s.group, b);
        if k.None? then None else Some(s.(group := k.value))
  }

  function Run(s: State, actions: seq<Action>): Option<State> {
    Execute(Step, s, actions)
  }

  /** No two workers process deliveries of one ticket at the same time. */
  ghost predicate SequentialRun(s: State, actions: seq<Action>) {
    StaysIn(Step, OneAtATime, s, actions)
  }

  ghost predicate OneAtATime(s: State) {
    TS.OneAtATime(s.tickets)
  }

  predicate Init(s: State) {
    TS.Init(s.tickets) && K.Init(s.group) && s.group.group.Notifications?
  }

  /** What Kafka holds is the encoding of what the ticket workers sent. */
  ghost predicate Linked(s: State) {
    forall p :: Encodes(K.LogOf(s.group, Source(p)), T.LogOf(s.tickets.store.log, p))
  }

  predicate Encodes(records: seq<Record>, events: seq<Event>) {
    && |records| == |events|
    && forall k :: 0 <= k < |events| ==> records[k] == EncodeAnalysisCompleted(events[k])
  }

  ghost predicate Inv(s: State) {
    TS.SequentialInv(s.tickets) && K.Inv(s.group) && Linked(s) && s.group.group.Notifications?
  }

  lemma LogStep(t: T.State, a: T.Action)
    requires T.Step(t, a).Some?
    ensures var log' := T.Step(t, a).value.store.log;
            log' ==
                 if Sent(t, a).None?
                    then t.store.log
                    else T.Append(t.store.log, Sent(t, a).value.0, Sent(t, a).value.1)
  {
    if a.Act? && T.ActStep(t, a.worker, a.effect).Some? {
      var ticket := t.broker.bodies[t.tasks[a.worker].tag].subject;
      assert T.TaskStep(t.tasks[a.worker], ticket, t.store, a.effect).Some?;
    }
  }

  lemma ProduceInv(s: State, a: T.Action)
    requires Inv(s) && TS.OneAtATime(s.tickets) && Step(s, Produce(a)).Some?
    ensures Inv(Step(s, Produce(a)).value)
  {
    hide T.Step;
    hide TS.SequentialInv;
    hide TS.OneAtATime;
    hide K.Inv;
    hide KS.Later;
    hide EncodeAnalysisCompleted;
    var s' := Step(s, Produce(a)).value;
    if a.Act? { TS.ActSequential(s.tickets, a.worker, a.effect); } else { TS.OtherSequential(s.tickets, a); }
    LogStep(s.tickets, a);
    var sent := Sent(s.tickets, a);
    if sent.Some? {
      KS.AppendInv(s.group, Source(sent.value.0), EncodeAnalysisCompleted(sent.value.1));
    }
    forall p ensures Encodes(K.LogOf(s'.group, Source(p)), T.LogOf(s'.tickets.store.log, p)) {
      assert Encodes(K.LogOf(s.group, Source(p)), T.LogOf(s.tickets.store.log, p));
    }
  }

  lemma ConsumeInv(s: State, a: K.Action)
    requires Inv(s) && Step(s, Consume(a)).Some?
    ensures Inv(Step(s, Consume(a)).value)
  {
    hide TS.SequentialInv;
    hide K.Inv;
    hide EncodeAnalysisCompleted;
    var s' := Step(s, Consume(a)).value;
    KS.StepInv(s.group, a);
    forall p ensures Encodes(K.LogOf(s'.group, Source(p)), T.LogOf(s'.tickets.store.log, p)) {
      assert Encodes(K.LogOf(s.group, Source(p)), T.LogOf(s.tickets.store.log, p));
      assert K.LogOf(s'.group, Source(p)) == K.LogOf(s.group, Source(p));
    }
  }

  lemma StepInv(s: State, a: Action)
    requires Inv(s) && OneAtATime(s) && Step(s, a).Some?
    ensures Inv(Step(s, a).value)
  {
    hide Step;
    hide Inv;
    hide TS.OneAtATime;
    match a
    case Produce(b) => ProduceInv(s, b);
    case Consume(b) => ConsumeInv(s, b);
  }

  lemma RunInv(s: State, actions: seq<Action>)
    requires Inv(s) && SequentialRun(s, actions)
    ensures Run(s, actions).Some? && Inv(Run(s, actions).value)
  {
    hide Step;
    hide Inv;
    hide OneAtATime;
    forall t, a | Inv(t) && OneAtATime(t) && Step(t, a).Some? ensures Inv(Step(t, a).value) { StepInv(t, a); }
    KeepsWithin(Step, OneAtATime, Inv, s, actions);
  }

  // ---- The subscriber ----

  predicate Seen(kept: seq<Event>, e: Event) {
    exists k :: 0 <= k < |kept| && kept[k].analysis == e.analysis
  }

  /** The messages a subscriber keeps that drops every analysis id it has seen before. */
  function Deduplicate(redis: seq<K.Publication>): seq<Event> {
    if redis == [] then []
    else
      var kept := Deduplicate(redis[..|redis| - 1]);
      var e := redis[|redis| - 1].event;
      if Seen(kept, e) then kept else kept + [e]
  }

  /** Where an analysis id determines the event, nothing published is lost and nothing is kept twice. */
  predicate OneEventPerAnalysis(redis: seq<K.Publication>) {
    forall i, k :: 0 <= i < |redis| && 0 <= k < |redis| && redis[i].event.analysis == redis[k].event.analysis
                   ==> redis[i].event == redis[k].event
  }

  lemma {:induction false} DeduplicateKeeps(redis: seq<K.Publication>)
    requires OneEventPerAnalysis(redis)
    ensures var kept := Deduplicate(redis);
            && (forall k :: 0 <= k < |redis| ==> redis[k].event in kept)
            && (forall e :: e in kept ==> exists k :: 0 <= k < |redis| && redis[k].event == e)
            && (forall i, k :: 0 <= i < k < |kept| ==> kept[i].analysis != kept[k].analysis)
  {
    if redis != [] {
      var front := redis[..|redis| - 1];
      var last := redis[|redis| - 1];
      DeduplicateKeeps(front);
      var kept := Deduplicate(front);
      if Seen(kept, last.event) {
        var k :| 0 <= k < |kept| && kept[k].analysis == last.event.analysis;
        assert kept[k] in kept;
        var j :| 0 <= j < |front| && front[j].event == kept[k];
        assert redis[j].event == redis[|redis| - 1].event;
      }
      forall k | 0 <= k < |redis| ensures redis[k].event in Deduplicate(redis) {
        if k < |front| { assert front[k].event in kept; }
      }
      forall e | e in Deduplicate(redis) ensures exists k :: 0 <= k < |redis| && redis[k].event == e {
        if e in kept {
          var j :| 0 <= j < |front| && front[j].event == e;
          assert redis[j].event == e;
        }
      }
    }
  }

  /** Every message on the channel is an event of the topic, so it names a committed analysis. */
  lemma MessagesAreTruthful(s: State, p: K.Publication)
    requires Inv(s) && p in s.group.redis
    ensures T.Truthful(s.tickets.store.records, p.event)
  {
    hide K.PublishedFor;
    hide K.Stutters;
    hide TS.Announced;
    hide DecodeAnalysisCompleted;
    hide K.WorkerOk;
    hide K.CommittedOk;
    hide TS.TasksOk;
    hide TS.HoldsOwn;
    assert K.PublicationsOk(s.group, p.source);
    KS.PublishedForIn(s.group.redis, p.source, p);
    assert p.source == Source(p.source.partition);
    assert Encodes(K.LogOf(s.group, p.source), T.LogOf(s.tickets.store.log, p.source.partition));
    var e := T.LogOf(s.tickets.store.log, p.source.partition)[p.offset];
    AnalysisEventRoundTrip(EncodeAnalysisCompleted(e), e);
    assert p.event == e;
    StoreOk(s);
  }

  lemma StoreOk(s: State)
    requires Inv(s)
    ensures T.StoreOk(s.tickets.store) && TS.OnePerTicket(s.tickets.store.records)
  {
  }

  /** End to end, with the deliveries of a ticket processed one at a time: after dropping repeated
      analysis ids there is at most one notification per ticket, each names the committed analysis of
      its ticket, and every event below a committed offset is among them. */
  lemma OneNotificationPerTicket(s0: State, actions: seq<Action>)
    requires Init(s0) && SequentialRun(s0, actions) && Run(s0, actions).Some?
    ensures var s := Run(s0, actions).value;
            var kept := Deduplicate(s.group.redis);
            && (forall i, k :: 0 <= i < k < |kept| ==> kept[i].ticket != kept[k].ticket)
            && (forall e :: e in kept ==> T.Truthful(s.tickets.store.records, e))
            && (forall p :: CommittedAreKept(s, p, kept))
  {
    hide Run;
    hide SequentialRun;
    hide Inv;
    hide Deduplicate;
    hide T.Truthful;
    hide CommittedAreKept;
    InitInv(s0);
    RunInv(s0, actions);
    var s := Run(s0, actions).value;
    KeptIsRight(s);
    forall p ensures CommittedAreKept(s, p, Deduplicate(s.group.redis)) { PartitionIsKept(s, p); }
  }

  /** Every event of the partition below its committed offset is among the kept ones. */
  predicate CommittedAreKept(s: State, p: T.Partition, kept: seq<Event>) {
    var log := T.LogOf(s.tickets.store.log, p);
    && K.Offset(s.group.committed, Source(p)) <= |log|
    && forall k :: 0 <= k < K.Offset(s.group.committed, Source(p)) ==> log[k] in kept
  }

  lemma PartitionIsKept(s: State, p: T.Partition)
    requires Inv(s)
    ensures CommittedAreKept(s, p, Deduplicate(s.group.redis))
  {
    hide Inv;
    hide Deduplicate;
    var log := T.LogOf(s.tickets.store.log, p);
    CommittedWithinLog(s, p);
    forall k: nat | k < K.Offset(s.group.committed, Source(p)) ensures log[k] in Deduplicate(s.group.redis) {
      CommittedIsKept(s, p, k);
    }
  }

  lemma CommittedWithinLog(s: State, p: T.Partition)
    requires Inv(s)
    ensures K.Offset(s.group.committed, Source(p)) <= |T.LogOf(s.tickets.store.log, p)|
  {
    hide TS.SequentialInv;
    assert K.CommittedOk(s.group, Source(p));
    assert Encodes(K.LogOf(s.group, Source(p)), T.LogOf(s.tickets.store.log, p));
  }

  lemma InitInv(s: State)
    requires Init(s)
    ensures Inv(s)
  {
    KS.InitInv(s.group);
  }

  lemma KeptIsRight(s: State)
    requires Inv(s)
    ensures OneEventPerAnalysis(s.group.redis)
    ensures var kept := Deduplicate(s.group.redis);
            && (forall i, k :: 0 <= i < k < |kept| ==> kept[i].ticket != kept[k].ticket)
            && (forall e :: e in kept ==> T.Truthful(s.tickets.store.records, e))
  {
    hide Inv;
    hide Deduplicate;
    var redis := s.group.redis;
    forall k | 0 <= k < |redis| ensures T.Truthful(s.tickets.store.records, redis[k].event) {
      MessagesAreTruthful(s, redis[k]);
    }
    DeduplicateKeeps(redis);
    StoreOk(s);
    var kept := Deduplicate(redis);
    forall e | e in kept ensures T.Truthful(s.tickets.store.records, e) {
      var k :| 0 <= k < |redis| && redis[k].event == e;
    }
    forall i, k | 0 <= i < k < |kept| ensures kept[i].ticket != kept[k].ticket {
      assert kept[i] in kept && kept[k] in kept;
      assert T.Truthful(s.tickets.store.records, kept[i]) && T.Truthful(s.tickets.store.records, kept[k]);
    }
  }

  lemma CommittedIsKept(s: State, p: T.Partition, k: nat)
    requires Inv(s) && k < K.Offset(s.group.committed, Source(p))
    ensures k < |T.LogOf(s.tickets.store.log, p)| && T.LogOf(s.tickets.store.log, p)[k] in Deduplicate(s.group.redis)
  {
    hide Deduplicate;
    hide K.Stutters;
    hide K.PublishedFor;
    hide TS.SequentialInv;
    hide DecodeAnalysisCompleted;
    hide EncodeAnalysisCompleted;
    var tp := Source(p);
    var pubs := K.PublishedFor(s.group.redis, tp);
    assert K.PublicationsOk(s.group, tp) && K.CommittedOk(s.group, tp);
    var i := KS.StuttersHit(pubs, K.PublishedCount(pubs), k);
    assert pubs[i] in pubs;
    KS.PublishedForIn(s.group.redis, tp, pubs[i]);
    assert Encodes(K.LogOf(s.group, tp), T.LogOf(s.tickets.store.log, p));
    var e := T.LogOf(s.tickets.store.log, p)[k];
    AnalysisEventRoundTrip(EncodeAnalysisCompleted(e), e);
    KeptIsRight(s);
    DeduplicateKeeps(s.group.redis);
  }
}
