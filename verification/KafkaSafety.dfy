/** At-least-once, in-order consumption: what holds over every sequence of failures and restarts. */
module KafkaSafety {
  import opened Wrappers
  import opened Executions
  import opened KafkaEvents
  import opened KafkaConsumption
  import TicketAnalysis

  /** What every step preserves: logs and publications only grow, offsets only move forward. */
  ghost predicate Later(s: State, s': State) {
    && s'.group == s.group
    && (forall tp :: LogOf(s, tp) <= LogOf(s', tp))
    && (forall tp :: Offset(s.committed, tp) <= Offset(s'.committed, tp))
    && s.redis <= s'.redis
  }

  lemma LaterTransitive(s: State, t: State, u: State)
    requires Later(s, t) && Later(t, u)
    ensures Later(s, u)
  {
    forall tp ensures LogOf(s, tp) <= LogOf(u, tp) && Offset(s.committed, tp) <= Offset(u.committed, tp) {
      assert LogOf(s, tp) <= LogOf(t, tp) && LogOf(t, tp) <= LogOf(u, tp);
      assert Offset(t.committed, tp) <= Offset(u.committed, tp);
    }
  }

  lemma PublishedForAppend(redis: seq<Publication>, p: Publication, tp: TopicPartition)
    ensures PublishedFor(redis + [p], tp)
      == if p.source == tp then PublishedFor(redis, tp) + [p]
         else PublishedFor(redis, tp)
  {
    assert (redis + [p])[..|redis|] == redis;
  }

  lemma StuttersAppend(pubs: seq<Publication>, p: Publication)
    requires Stutters(pubs, PublishedCount(pubs))
    requires PublishedCount(pubs) <= p.offset + 1 && p.offset <= PublishedCount(pubs)
    ensures Stutters(pubs + [p], p.offset + 1)
  {
    assert (pubs + [p])[..|pubs|] == pubs;
  }

  /** A step that only changes the worker. */
  lemma SameStore(s: State, s': State)
    requires Inv(s) && s' == s.(worker := s'.worker) && WorkerOk(s')
    ensures Inv(s') && Later(s, s')
  {
    hide PublishedFor;
    hide Stutters;
    hide Accepts;
    forall tp ensures CommittedOk(s', tp) && PublicationsOk(s', tp) {
      assert CommittedOk(s, tp) && PublicationsOk(s, tp);
    }
  }

  lemma AppendInv(s: State, tp: TopicPartition, r: Record)
    requires Inv(s)
    ensures var s' := Step(s, Append(tp, r)).value; Inv(s') && Later(s, s')
  {
    hide PublishedFor;
    hide Stutters;
    hide Accepts;
    var s' := Step(s, Append(tp, r)).value;
    forall p ensures LogOf(s, p) <= LogOf(s', p) {
      if p != tp { assert LogOf(s', p) == LogOf(s, p); }
    }
    forall p ensures CommittedOk(s', p) && PublicationsOk(s', p) {
      assert CommittedOk(s, p) && PublicationsOk(s, p);
      assert LogOf(s, p) <= LogOf(s', p);
    }
    assert WorkerOk(s');
  }

  lemma PollInv(s: State, tp: TopicPartition)
    requires Inv(s) && Step(s, Poll(tp)).Some?
    ensures var s' := Step(s, Poll(tp)).value; Inv(s') && Later(s, s')
  {
    hide CommittedOk;
    hide PublicationsOk;
    SameStore(s, Step(s, Poll(tp)).value);
  }

  lemma CommitInv(s: State, outcome: CommitOutcome)
    requires Inv(s) && Step(s, Commit(outcome)).Some?
    ensures var s' := Step(s, Commit(outcome)).value; Inv(s') && Later(s, s')
  {
    hide PublishedFor;
    hide Stutters;
    hide Accepts;
    hide SayWhatIsLogged;
    var source, offset := s.worker.phase.source, s.worker.phase.offset;
    var s' := Step(s, Commit(outcome)).value;
    forall tp ensures CommittedOk(s', tp) && PublicationsOk(s', tp) {
      assert CommittedOk(s, tp) && PublicationsOk(s, tp);
      assert SayWhatIsLogged(s', tp, PublishedFor(s'.redis, tp)) by { SameLog(s, s', tp); }
    }
  }

  lemma SameLog(s: State, s': State, tp: TopicPartition)
    requires s'.log == s.log && s'.redis == s.redis
    requires SayWhatIsLogged(s, tp, PublishedFor(s.redis, tp))
    ensures SayWhatIsLogged(s', tp, PublishedFor(s'.redis, tp))
  {
  }

  /** The partition whose record is published. */
  lemma PublishOwn(s: State, source: TopicPartition, offset: nat, e: Event, s': State)
    requires PublicationsOk(s, source) && Publishes(s, source)
             && offset == Offset(s.committed, source) < |LogOf(s, source)|
    requires DecodeAnalysisCompleted(LogOf(s, source)[offset]) == Ok(e)
    requires s' == s.(redis := s.redis + [Publication(source, offset, e)], worker := s'.worker)
    ensures PublicationsOk(s', source)
    ensures PublishedCount(PublishedFor(s'.redis, source)) == offset + 1
  {
    hide PublishedFor;
    hide Stutters;
    hide DecodeAnalysisCompleted;
    var p := Publication(source, offset, e);
    var pubs := PublishedFor(s.redis, source);
    PublishedForAppend(s.redis, p, source);
    StuttersAppend(pubs, p);
    assert LogOf(s', source) == LogOf(s, source);
  }

  lemma PublishOther(s: State, tp: TopicPartition, p: Publication, s': State)
    requires PublicationsOk(s, tp) && tp != p.source && s' == s.(redis := s.redis + [p], worker := s'.worker)
    ensures PublicationsOk(s', tp)
  {
    hide PublishedFor;
    hide Stutters;
    hide DecodeAnalysisCompleted;
    PublishedForAppend(s.redis, p, tp);
    assert LogOf(s', tp) == LogOf(s, tp);
  }

  lemma PublishInv(s: State, source: TopicPartition, offset: nat, e: Event, s': State)
    requires Inv(s) && s.worker.Up? && Holds(s, source, offset) && Publishes(s, source)
    requires DecodeAnalysisCompleted(LogOf(s, source)[offset]) == Ok(e)
    requires s' == s.(redis := s.redis + [Publication(source, offset, e)], worker := s'.worker)
    ensures (forall tp :: CommittedOk(s', tp)) && (forall tp :: PublicationsOk(s', tp)) && Later(s, s')
    ensures PublishedCount(PublishedFor(s'.redis, source)) == offset + 1
  {
    hide PublishedFor;
    hide PublicationsOk;
    hide DecodeAnalysisCompleted;
    hide Accepts;
    assert PublicationsOk(s, source);
    PublishOwn(s, source, offset, e, s');
    forall tp ensures CommittedOk(s', tp) { assert CommittedOk(s, tp); }
    forall tp ensures PublicationsOk(s', tp) {
      assert PublicationsOk(s, tp);
      if tp != source { PublishOther(s, tp, Publication(source, offset, e), s'); }
    }
  }

  lemma HandleInv(s: State, outcome: CommitOutcome)
    requires Inv(s) && Step(s, Handle(outcome)).Some?
    ensures var s' := Step(s, Handle(outcome)).value; Inv(s') && Later(s, s')
  {
    hide PublishedFor;
    hide Stutters;
    hide CommittedOk;
    hide PublicationsOk;
    hide DecodeAnalysisCompleted;
    hide DecodeTicketCreated;
    var source, offset := s.worker.phase.source, s.worker.phase.offset;
    var s' := Step(s, Handle(outcome)).value;
    if s'.redis == s.redis {
      SameStore(s, s');
    } else {
      PublishInv(s, source, offset, DecodeAnalysisCompleted(LogOf(s, source)[offset]).value, s');
    }
  }

  lemma StepInv(s: State, a: Action)
    requires Inv(s) && Step(s, a).Some?
    ensures Inv(Step(s, a).value) && Later(s, Step(s, a).value)
  {
    match a
    case Append(tp, r) => hide Step; hide Inv; hide Later; AppendInv(s, tp, r);
    case Poll(tp) => hide Step; hide Inv; hide Later; PollInv(s, tp);
    case Handle(outcome) => hide Step; hide Inv; hide Later; HandleInv(s, outcome);
    case Commit(outcome) => hide Step; hide Inv; hide Later; CommitInv(s, outcome);
    case _ =>
      hide CommittedOk;
      hide PublicationsOk;
      SameStore(s, Step(s, a).value);
  }

  lemma LaterReflexive(s: State)
    ensures Later(s, s)
  {
  }

  lemma RunInv(s: State, actions: seq<Action>)
    requires Inv(s) && Run(s, actions).Some?
    ensures Inv(Run(s, actions).value) && Later(s, Run(s, actions).value)
  {
    hide Step;
    hide Inv;
    hide Later;
    forall t, a | Inv(t) && Step(t, a).Some?
      ensures Inv(Step(t, a).value) && Later(t, Step(t, a).value)
    {
      StepInv(t, a);
    }
    forall t ensures Later(t, t) { LaterReflexive(t); }
    forall t, u, v | Inv(t) && Inv(u) && Inv(v) && Later(t, u) && Later(u, v)
      ensures Later(t, v)
    {
      LaterTransitive(t, u, v);
    }
    Keeps(Step, Inv, Later, s, actions);
  }

  lemma InitInv(s: State)
    requires Init(s)
    ensures Inv(s)
  {
  }

  lemma ReachableInv(s: State)
    requires Reachable(s)
    ensures Inv(s)
  {
    hide Step;
    hide Inv;
    forall t | Init(t) ensures Inv(t) { InitInv(t); }
    forall t, a | Inv(t) && Step(t, a).Some? ensures Inv(Step(t, a).value) { StepInv(t, a); }
    ReachableKeeps(Step, Init, Inv, s);
  }

  lemma ReachableStep(s: State, a: Action)
    requires Reachable(s) && Step(s, a).Some?
    ensures Reachable(Step(s, a).value)
  {
    hide Step;
    StepReaches(Step, Init, s, a);
  }

  // ---- Main results ----

  /** The publication of the record at `offset` of `tp`. */
  predicate PublishedAt(s: State, tp: TopicPartition, offset: nat, event: Event) {
    Publication(tp, offset, event) in s.redis
  }

  /** Every record below a committed offset was accepted, and, where the group publishes, its event
      is on the Redis channel: consumption is at least once. */
  lemma CommittedMeansHandled(s: State, tp: TopicPartition, offset: nat)
    requires Reachable(s) && offset < Offset(s.committed, tp)
    ensures offset < |LogOf(s, tp)| && WellFormed(tp.topic, LogOf(s, tp)[offset])
    ensures s.group == Notifications && tp.topic == AnalysisCompleted ==>
              var value := LogOf(s, tp)[offset].value;
              PublishedAt(s, tp, offset, TicketAnalysis.Event(value.ticket.id, value.analysis.id))
  {
    hide Reachable;
    hide PublishedFor;
    hide Stutters;
    hide DecodeAnalysisCompleted;
    ReachableInv(s);
    assert CommittedOk(s, tp) && PublicationsOk(s, tp);
    if Publishes(s, tp) {
      var pubs := PublishedFor(s.redis, tp);
      var k := StuttersHit(pubs, PublishedCount(pubs), offset);
      assert pubs[k] in pubs;
      PublishedForIn(s.redis, tp, pubs[k]);
      AnalysisEventRoundTrip(LogOf(s, tp)[offset], pubs[k].event);
    }
  }

  lemma {:induction false} StuttersHit(pubs: seq<Publication>, n: nat, offset: nat) returns (k: nat)
    requires Stutters(pubs, n) && offset < n
    ensures k < |pubs| && pubs[k].offset == offset
  {
    var front := pubs[..|pubs| - 1];
    if offset == n - 1 { k := |pubs| - 1; }
    else if Stutters(front, n) { k := StuttersHit(front, n, offset); }
    else { k := StuttersHit(front, n - 1, offset); }
  }

  lemma {:induction false} PublishedForIn(redis: seq<Publication>, tp: TopicPartition, p: Publication)
    ensures p in PublishedFor(redis, tp) <==> p in redis && p.source == tp
  {
    if redis != [] {
      PublishedForIn(redis[..|redis| - 1], tp, p);
      assert redis == redis[..|redis| - 1] + [redis[|redis| - 1]];
    }
  }

  /** The channel without immediate repetitions. */
  function Collapse(pubs: seq<Publication>): seq<Publication> {
    if |pubs| < 2 then pubs
    else
      var front := pubs[..|pubs| - 1];
      if pubs[|pubs| - 1] == front[|front| - 1] then Collapse(front) else Collapse(front) + [pubs[|pubs| - 1]]
  }

  /** In order: collapsing immediate repetitions, the publications of an `analysis.completed`
      partition are exactly the events of its first records, at least all committed ones and at
      most one more. Nothing is published for another topic or by another group. */
  lemma PublicationsFollowTheLog(s: State, tp: TopicPartition)
    requires Reachable(s)
    ensures s.group == Notifications && tp.topic == AnalysisCompleted ==>
              var once := Collapse(PublishedFor(s.redis, tp));
              && Offset(s.committed, tp) <= |once| <= Offset(s.committed, tp) + 1
              && |once| <= |LogOf(s, tp)|
              && forall k :: 0 <= k < |once| ==> once[k].source == tp && once[k].offset == k
                                                 && Carries(LogOf(s, tp)[k], once[k].event)
    ensures !(s.group == Notifications && tp.topic == AnalysisCompleted) ==> PublishedFor(s.redis, tp) == []
  {
    hide Reachable;
    hide PublishedFor;
    hide DecodeAnalysisCompleted;
    hide Collapse;
    hide Stutters;
    hide Carries;
    ReachableInv(s);
    assert PublicationsOk(s, tp);
    if s.group == Notifications && tp.topic == AnalysisCompleted {
      var pubs := PublishedFor(s.redis, tp);
      CollapseStutters(s, tp, pubs, PublishedCount(pubs));
      var once := Collapse(pubs);
      forall k | 0 <= k < |once| ensures Carries(LogOf(s, tp)[k], once[k].event) {
        Decoded(LogOf(s, tp)[k], once[k].event);
      }
    }
  }

  /** The record has the ticket and the analysis of the event, and the ticket as its key. */
  predicate Carries(r: Record, e: Event) {
    && r.value.Object? && r.value.version == Some(1)
    && r.value.ticket == Text(e.ticket) && r.value.analysis == Text(e.analysis)
    && r.key == Some(Canonical(e.ticket))
  }

  lemma Decoded(r: Record, e: Event)
    requires DecodeAnalysisCompleted(r) == Ok(e)
    ensures Carries(r, e)
  {
    AnalysisEventRoundTrip(r, e);
  }

  lemma {:induction false} CollapseStutters(s: State, tp: TopicPartition, pubs: seq<Publication>, n: nat)
    requires SayWhatIsLogged(s, tp, pubs) && Stutters(pubs, n)
    ensures var once := Collapse(pubs);
            && |once| == n <= |LogOf(s, tp)| && (n > 0 ==> once[n - 1] == pubs[|pubs| - 1])
            && forall k :: 0 <= k < n ==> once[k].source == tp && once[k].offset == k
                                          && DecodeAnalysisCompleted(LogOf(s, tp)[k]) == Ok(once[k].event)
    decreases |pubs|
  {
    hide DecodeAnalysisCompleted;
    if |pubs| < 2 {
    } else {
      var front := pubs[..|pubs| - 1];
      var last, before := pubs[|pubs| - 1], front[|front| - 1];
      assert SayWhatIsLogged(s, tp, front);
      assert last in pubs && before in pubs;
      if Stutters(front, n) {
        CollapseStutters(s, tp, front, n);
        assert before.offset == last.offset == n - 1;
        assert before == last;
      } else {
        CollapseStutters(s, tp, front, n - 1);
        assert before.offset != last.offset;
      }
    }
  }

  /** A record the worker does not accept is never skipped: whatever happens afterwards, the offset
      is never committed past it and nothing behind it is published. */
  lemma BadRecordIsNeverSkipped(s: State, actions: seq<Action>, tp: TopicPartition, offset: nat)
    requires Reachable(s) && offset < |LogOf(s, tp)| && !WellFormed(tp.topic, LogOf(s, tp)[offset])
    requires Run(s, actions).Some?
    ensures var s' := Run(s, actions).value;
            && Offset(s'.committed, tp) <= offset
            && forall p :: p in s'.redis && p.source == tp ==> p.offset < offset
  {
    hide Reachable;
    hide PublishedFor;
    hide Stutters;
    hide DecodeAnalysisCompleted;
    hide Run;
    ReachableInv(s);
    RunInv(s, actions);
    var s' := Run(s, actions).value;
    assert LogOf(s, tp) <= LogOf(s', tp);
    assert LogOf(s', tp)[offset] == LogOf(s, tp)[offset];
    assert CommittedOk(s', tp) && PublicationsOk(s', tp);
    var pubs := PublishedFor(s'.redis, tp);
    forall p | p in s'.redis && p.source == tp ensures p.offset < offset {
      PublishedForIn(s'.redis, tp, p);
      NoSkippedOffset(s', tp, pubs, offset, p);
    }
  }

  lemma NoSkippedOffset(s: State, tp: TopicPartition, pubs: seq<Publication>, offset: nat, p: Publication)
    requires SayWhatIsLogged(s, tp, pubs) && Stutters(pubs, PublishedCount(pubs)) && p in pubs
    requires tp.topic.AnalysisCompleted? || pubs == []
    requires offset < |LogOf(s, tp)| && !Accepts(tp, LogOf(s, tp)[offset])
    ensures p.offset < offset
  {
    hide DecodeAnalysisCompleted;
    StuttersBound(pubs, PublishedCount(pubs), p);
    if offset < PublishedCount(pubs) { PublishedIsAccepted(s, tp, pubs, offset); }
  }

  lemma PublishedIsAccepted(s: State, tp: TopicPartition, pubs: seq<Publication>, offset: nat)
    requires SayWhatIsLogged(s, tp, pubs) && Stutters(pubs, PublishedCount(pubs)) && offset < PublishedCount(pubs)
    ensures offset < |LogOf(s, tp)| && DecodeAnalysisCompleted(LogOf(s, tp)[offset]).Ok?
  {
    hide DecodeAnalysisCompleted;
    var k := StuttersHit(pubs, PublishedCount(pubs), offset);
    assert pubs[k] in pubs;
  }

  lemma {:induction false} StuttersBound(pubs: seq<Publication>, n: nat, p: Publication)
    requires Stutters(pubs, n) && p in pubs
    ensures p.offset < n
  {
    var front := pubs[..|pubs| - 1];
    if p != pubs[|pubs| - 1] {
      assert p in front;
      if Stutters(front, n) { StuttersBound(front, n, p); } else { StuttersBound(front, n - 1, p); }
    }
  }

  /** An idle worker moves a partition past its next record exactly when it accepts that record. */
  lemma AdvancesExactlyOnAccepted(s: State, tp: TopicPartition)
    requires Reachable(s) && s.worker.Up? && s.worker.phase.Polling? && Offset(s.committed, tp) < |LogOf(s, tp)|
    ensures WellFormed(tp.topic, LogOf(s, tp)[Offset(s.committed, tp)]) <==>
            exists published, committed :: Advances(s, tp, Run(s, [Poll(tp), Handle(published), Commit(committed)]))
  {
    hide Reachable;
    hide PublishedFor;
    hide Accepts;
    hide Run;
    hide Step;
    hide Advances;
    ReachableInv(s);
    assert Offset(s.worker.position, tp) == Offset(s.committed, tp);
    forall published, committed
      ensures Advances(s, tp, Run(s, [Poll(tp), Handle(published), Commit(committed)]))
              ==> Accepts(tp, LogOf(s, tp)[Offset(s.committed, tp)])
    {
      RunThree(s, Poll(tp), Handle(published), Commit(committed));
      ThreeStepsAdvance(s, tp, published, committed);
    }
    RunThree(s, Poll(tp), Handle(Committed), Commit(Committed));
    ThreeStepsAdvance(s, tp, Committed, Committed);
  }

  predicate Advances(s: State, tp: TopicPartition, r: Option<State>) {
    r.Some? && Offset(r.value.committed, tp) == Offset(s.committed, tp) + 1
  }

  lemma ThreeStepsAdvance(s: State, tp: TopicPartition, published: CommitOutcome, committed: CommitOutcome)
    requires s.worker.Up? && s.worker.phase.Polling?
             && Offset(s.worker.position, tp) == Offset(s.committed, tp) < |LogOf(s, tp)|
    ensures var n := Offset(s.committed, tp);
            && (Advances(s, tp, ThreeSteps(s, tp, published, committed)) ==> Accepts(tp, LogOf(s, tp)[n]))
            && (Accepts(tp, LogOf(s, tp)[n]) && published.Committed? && committed.Committed? ==>
                  Advances(s, tp, ThreeSteps(s, tp, published, committed)))
  {
    hide Accepts;
    hide DecodeAnalysisCompleted;
  }

  function ThreeSteps(s: State, tp: TopicPartition, published: CommitOutcome, committed: CommitOutcome): Option<State> {
    var s1 := Step(s, Poll(tp));
    if s1.None? then None
    else
      var s2 := Step(s1.value, Handle(published));
      if s2.None? then None else Step(s2.value, Commit(committed))
  }

  lemma RunThree(s: State, a: Action, b: Action, c: Action)
    ensures var s1 := Step(s, a);
            Run(s, [a, b, c]) ==
            if s1.None? then None
            else
              var s2 := Step(s1.value, b);
              if s2.None? then None else Step(s2.value, c)
  {
    hide Step;
    assert [a, b, c][1..] == [b, c] && [b, c][1..] == [c] && [c][1..] == [];
    var s1 := Step(s, a);
    if s1.Some? {
      assert Run(s, [a, b, c]) == Run(s1.value, [b, c]);
      var s2 := Step(s1.value, b);
      if s2.Some? {
        assert Run(s1.value, [b, c]) == Run(s2.value, [c]);
        var s3 := Step(s2.value, c);
        assert s3.Some? ==> Run(s2.value, [c]) == Run(s3.value, []);
      }
    }
  }

  /** Committed offsets never go down. */
  lemma OffsetsNeverGoDown(s: State, actions: seq<Action>, tp: TopicPartition)
    requires Reachable(s) && Run(s, actions).Some?
    ensures Offset(s.committed, tp) <= Offset(Run(s, actions).value.committed, tp)
    ensures s.redis <= Run(s, actions).value.redis
  {
    hide Reachable;
    hide Inv;
    hide Run;
    ReachableInv(s);
    RunInv(s, actions);
  }
}
