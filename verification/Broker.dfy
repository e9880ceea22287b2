/** A durable work queue with its dead-letter queue, as RabbitMQ keeps it for the workers. */
module Brokers {

  type Tag = nat
  type WorkerId = nat

  /** A message body the consumer cannot decode, or the id of the row the job is about. */
  datatype Body = Malformed | Job(subject: nat)

  datatype Verdict = Ack | Reject | Requeue

  datatype Broker = Broker(
    bodies: map<Tag, Body>,
    ready: set<Tag>,
    unacked: map<Tag, WorkerId>,
    failed: set<Tag>,
    acked: set<Tag>)

  const EMPTY := Broker(map[], {}, map[], {}, {})

  /** Every published delivery is in exactly one place. */
  predicate Conserved(b: Broker) {
    && b.bodies.Keys == b.ready + b.unacked.Keys + b.failed + b.acked
    && b.ready !! b.unacked.Keys !! b.failed !! b.acked
  }

  /** Nothing published disappears and no settlement is taken back. */
  predicate Settled(b: Broker, b': Broker) {
    && (forall t :: t in b.bodies ==> t in b'.bodies && b'.bodies[t] == b.bodies[t])
    && b.acked <= b'.acked && b.failed <= b'.failed
  }

  /** The delivery stays where it is. */
  predicate SamePlace(b: Broker, b': Broker, t: Tag) {
    && (t in b'.ready <==> t in b.ready) && (t in b'.failed <==> t in b.failed) && (t in b'.acked <==> t in b.acked)
    && (t in b'.unacked <==> t in b.unacked) && (t in b.unacked && t in b'.unacked ==> b'.unacked[t] == b.unacked[t])
  }

  function Publish(b: Broker, t: Tag, body: Body): (b': Broker)
    requires t !in b.bodies
    ensures Conserved(b) ==> Conserved(b') && Settled(b, b')
  {
    b.(bodies := b.bodies[t := body], ready := b.ready + {t})
  }

  /** One unacknowledged delivery per consumer. */
  predicate CanDeliver(b: Broker, w: WorkerId, t: Tag) {
    t in b.ready && t in b.bodies && w !in b.unacked.Values
  }

  function Deliver(b: Broker, w: WorkerId, t: Tag): (b': Broker)
    requires CanDeliver(b, w, t)
    ensures Conserved(b) ==> Conserved(b') && Settled(b, b')
  {
    b.(ready := b.ready - {t}, unacked := b.unacked[t := w])
  }

  /** A settlement counts only from the consumer that holds the delivery. */
  function Settle(b: Broker, w: WorkerId, t: Tag, verdict: Verdict): (b': Broker)
    ensures Conserved(b) ==> Conserved(b') && Settled(b, b')
    ensures b' != b <==> t in b.unacked && b.unacked[t] == w
    ensures b' != b ==> t !in b'.unacked && (verdict == Ack ==> t in b'.acked)
                        && (verdict == Reject ==> t in b'.failed) && (verdict == Requeue ==> t in b'.ready)
    ensures t in b'.acked && t !in b.acked ==> verdict == Ack
    ensures t in b'.failed && t !in b.failed ==> verdict == Reject
    ensures b'.bodies == b.bodies && forall u :: u != t ==> SamePlace(b, b', u)
  {
    if t !in b.unacked || b.unacked[t] != w then b
    else
      var rest := b.(unacked := b.unacked - {t});
      match verdict
      case Ack => rest.(acked := b.acked + {t})
      case Reject => rest.(failed := b.failed + {t})
      case Requeue => rest.(ready := b.ready + {t})
  }

  /** The consumer's connection closes: what it holds is ready again. */
  function Release(b: Broker, w: WorkerId): (b': Broker)
    ensures Conserved(b) ==> Conserved(b') && Settled(b, b')
    ensures forall t :: t in b.unacked && b.unacked[t] == w ==> t in b'.ready && t !in b'.unacked
    ensures forall t :: !(t in b.unacked && b.unacked[t] == w) ==> SamePlace(b, b', t)
  {
    var held := set t | t in b.unacked && b.unacked[t] == w;
    b.(ready := b.ready + held, unacked := b.unacked - held)
  }

  /** Exactly one of the four places. */
  lemma InExactlyOnePlace(b: Broker, t: Tag)
    requires Conserved(b) && t in b.bodies
    ensures t in b.ready || t in b.unacked || t in b.failed || t in b.acked
    ensures t in b.ready ==> t !in b.unacked && t !in b.failed && t !in b.acked
    ensures t in b.unacked ==> t !in b.ready && t !in b.failed && t !in b.acked
    ensures t in b.failed ==> t !in b.ready && t !in b.unacked && t !in b.acked
    ensures t in b.acked ==> t !in b.ready && t !in b.unacked && t !in b.failed
  {
    assert t in b.ready + b.unacked.Keys + b.failed + b.acked;
  }
}
