/** One consumer group over the partitions of `ticket.created` and `analysis.completed`: one record
    at a time, Redis publication before the offset commit, and a worker that goes down on any
    failure and starts again from the committed offsets. */
module KafkaConsumption {
  import opened Wrappers
  import opened Executions
  import opened KafkaEvents

  datatype Group = Notifications | Metrics

  datatype Topic = TicketCreated | AnalysisCompleted | OtherTopic

  datatype TopicPartition = TopicPartition(topic: Topic, partition: nat)

  /** A message on the Redis channel, with the record it was published for. */
  datatype Publication = Publication(source: TopicPartition, offset: nat, event: Event)

  datatype Phase =
    | Polling
    | Handling(source: TopicPartition, offset: nat)
    | Committing(source: TopicPartition, offset: nat)

  datatype Worker = Down | Up(position: map<TopicPartition, nat>, phase: Phase)

  datatype State = State(
    group: Group,
    log: map<TopicPartition, seq<Record>>,
    committed: map<TopicPartition, nat>,
    redis: seq<Publication>,
    worker: Worker)

  datatype Action =
    | Append(target: TopicPartition, record: Record)
    | Start
    | Poll(target: TopicPartition)
    | Handle(outcome: CommitOutcome)   // how the Redis publication ends, where there is one
    | Commit(outcome: CommitOutcome)
    | Stop
    | Crash

  function LogOf(s: State, tp: TopicPartition): seq<Record> {
    if tp in s.log then s.log[tp] else []
  }

  /** The offset to read next; a group without one starts at the earliest record. */
  function Offset(offsets: map<TopicPartition, nat>, tp: TopicPartition): nat {
    if tp in offsets then offsets[tp] else 0
  }

  /** Version 1, with the fields its topic asks for and the ticket as the key; no other topic will do. */
  predicate WellFormed(topic: Topic, r: Record) {
    && !topic.OtherTopic?
    && r.value.Object? && r.value.version == Some(1)
    && r.value.ticket.Text? && r.key == Some(Canonical(r.value.ticket.id))
    && (topic.AnalysisCompleted? ==> r.value.analysis.Text?)
  }

  /** The worker accepts the record: its topic is known, its payload and key agree. */
  predicate Accepts(tp: TopicPartition, r: Record): (accepted: bool)
    ensures accepted <==> WellFormed(tp.topic, r)
  {
    match tp.topic
    case TicketCreated => DecodeTicketCreated(r).Ok?
    case AnalysisCompleted => DecodeAnalysisCompleted(r).Ok?
    case OtherTopic => false
  }

  predicate Publishes(s: State, tp: TopicPartition) {
    s.group.Notifications? && tp.topic.AnalysisCompleted?
  }

  function HandleStep(s: State, tp: TopicPartition, offset: nat, outcome: CommitOutcome): State
    requires s.worker.Up? && offset < |LogOf(s, tp)|
  {
    var r := LogOf(s, tp)[offset];
    if !Accepts(tp, r) then s.(worker := Down)
    else if !Publishes(s, tp) then s.(worker := s.worker.(phase := Committing(tp, offset)))
    else s.(redis := if outcome.Applied()
                     then s.redis + [Publication(tp, offset, DecodeAnalysisCompleted(r).value)]
                     else s.redis,
            worker := if outcome.Committed? then s.worker.(phase := Committing(tp, offset)) else Down)
  }

  function CommitStep(s: State, tp: TopicPartition, offset: nat, outcome: CommitOutcome): State
    requires s.worker.Up?
  {
    s.(committed := if outcome.Applied() then s.committed[tp := offset + 1] else s.committed,
       worker := if outcome.Committed? then s.worker.(phase := Polling) else Down)
  }

  function Step(s: State, a: Action): Option<State> {
    match a
    case Append(tp, r) => Some(s.(log := s.log[tp := LogOf(s, tp) + [r]]))
    case Start => if s.worker.Up? then None else Some(s.(worker := Up(s.committed, Polling)))
    case Poll(tp) =>
      if !s.worker.Up? || !s.worker.phase.Polling? then None
      else
        var offset := Offset(s.worker.position, tp);
        if offset >= |LogOf(s, tp)| then None
        else Some(s.(worker := Up(s.worker.position[tp := offset + 1], Handling(tp, offset))))
    case Handle(outcome) =>
      if !s.worker.Up? || !s.worker.phase.Handling?
         || s.worker.phase.offset >= |LogOf(s, s.worker.phase.source)|
      then None
      else Some(HandleStep(s, s.worker.phase.source, s.worker.phase.offset, outcome))
    case Commit(outcome) =>
      if !s.worker.Up? || !s.worker.phase.Committing? then None
      else Some(CommitStep(s, s.worker.phase.source, s.worker.phase.offset, outcome))
    case Stop => if s.worker.Up? && s.worker.phase.Polling? then Some(s.(worker := Down)) else None
    case Crash => Some(s.(worker := Down))
  }

  function Run(s: State, actions: seq<Action>): Option<State> {
    Execute(Step, s, actions)
  }

  predicate Init(s: State) {
    s.log == map[] && s.committed == map[] && s.redis == [] && s.worker == Down
  }

  ghost predicate Reachable(s: State) {
    ReachableFrom(Step, Init, s)
  }

  // ---- What a partition has published ----

  /** The publications made for one partition, in order. */
  function PublishedFor(redis: seq<Publication>, tp: TopicPartition): seq<Publication> {
    if redis == [] then []
    else
      var rest := PublishedFor(redis[..|redis| - 1], tp);
      var last := redis[|redis| - 1];
      if last.source == tp then rest + [last] else rest
  }

  /** The first `n` records were published in order, each possibly several times in a row. */
  predicate Stutters(pubs: seq<Publication>, n: nat) {
    if pubs == [] then n == 0
    else
      var front := pubs[..|pubs| - 1];
      n > 0 && pubs[|pubs| - 1].offset == n - 1 && (Stutters(front, n) || Stutters(front, n - 1))
  }

  predicate SayWhatIsLogged(s: State, tp: TopicPartition, pubs: seq<Publication>) {
    forall p :: p in pubs ==> p.source == tp && p.offset < |LogOf(s, tp)|
                              && DecodeAnalysisCompleted(LogOf(s, tp)[p.offset]) == Ok(p.event)
  }

  /** The number of leading records published: those committed, and perhaps the next one. */
  function PublishedCount(pubs: seq<Publication>): nat {
    if pubs == [] then 0 else pubs[|pubs| - 1].offset + 1
  }

  predicate PublicationsOk(s: State, tp: TopicPartition) {
    var pubs := PublishedFor(s.redis, tp);
    && SayWhatIsLogged(s, tp, pubs)
    && Stutters(pubs, PublishedCount(pubs))
    && (if Publishes(s, tp) then Offset(s.committed, tp) <= PublishedCount(pubs) <= Offset(s.committed, tp) + 1
        else pubs == [])
  }

  predicate CommittedOk(s: State, tp: TopicPartition) {
    && Offset(s.committed, tp) <= |LogOf(s, tp)|
    && forall k :: 0 <= k < Offset(s.committed, tp) ==> Accepts(tp, LogOf(s, tp)[k])
  }

  /** A running worker stands at the committed offsets, except for the record in its hands. */
  ghost predicate WorkerOk(s: State) {
    s.worker.Up? ==>
      match s.worker.phase
      case Polling => forall tp :: Offset(s.worker.position, tp) == Offset(s.committed, tp)
      case Handling(source, offset) => Holds(s, source, offset)
      case Committing(source, offset) =>
        && Holds(s, source, offset) && Accepts(source, LogOf(s, source)[offset])
        && (Publishes(s, source) ==> PublishedCount(PublishedFor(s.redis, source)) == offset + 1)
  }

  ghost predicate Holds(s: State, source: TopicPartition, offset: nat)
    requires s.worker.Up?
  {
    && offset == Offset(s.committed, source) && offset < |LogOf(s, source)|
    && Offset(s.worker.position, source) == offset + 1
    && forall tp :: tp != source ==> Offset(s.worker.position, tp) == Offset(s.committed, tp)
  }

  ghost predicate Inv(s: State) {
    && WorkerOk(s)
    && (forall tp :: CommittedOk(s, tp))
    && (forall tp :: PublicationsOk(s, tp))
  }
}
