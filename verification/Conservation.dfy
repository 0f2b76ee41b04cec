/** Messages on the declared topology: none is lost, none is doubled, each keeps its routing key,
    and a buried one is in the dead queue once and for all. */
module Conservation {
  import opened Wrappers
  import opened Topology

  /** A published message: its number and the routing key it carries. */
  datatype Envelope = Envelope(number: nat, key: string)

  /** A delivery that is not settled yet. */
  datatype Delivery = Delivery(queue: string, envelope: Envelope)

  datatype Broker = Broker(
    topology: Topology,
    ready: map<string, seq<Envelope>>,
    unacked: seq<Delivery>,
    acked: seq<Envelope>,
    published: seq<Envelope>)

  /** A broker on which Declare just succeeded, with empty queues and whatever else `t` had. */
  function Fresh(t: Topology): Broker {
    Broker(Declared(t), map q | q in Declared(t).queues :: [], [], [], [])
  }

  datatype Move =
    | Publish(key: string)
    | Deliver(queue: string)
    | Ack(delivery: nat)
    | Reject(delivery: nat)
    | Requeue(delivery: nat)
    | Redeclare(topology: Topology)

  /** Hands an envelope to the back of the routed queues. */
  ghost function Route(b: Broker, exchange: string, e: Envelope): map<string, seq<Envelope>> {
    map q | q in b.ready :: if q in Routes(b.topology, exchange, e.key) then b.ready[q] + [e] else b.ready[q]
  }

  function Without<T>(s: seq<T>, i: nat): seq<T>
    requires i < |s|
  {
    s[..i] + s[i + 1..]
  }

  /** The publisher sends with the two work keys, consumers read the two work queues; Redeclare
      is any call of Declare, wherever it stops. A lost connection is a Requeue of each delivery. */
  predicate CanMove(b: Broker, m: Move) {
    match m
    case Publish(key) => key == QUEUE_UPLOAD || key == QUEUE_DELETE
    case Deliver(queue) => (queue == QUEUE_UPLOAD || queue == QUEUE_DELETE) && queue in b.ready && b.ready[queue] != []
    case Ack(i) => i < |b.unacked|
    case Reject(i) => i < |b.unacked|
    case Requeue(i) => i < |b.unacked| && b.unacked[i].queue in b.ready
    case Redeclare(t) => PartlyDeclared(b.topology, t)
  }

  predicate HasDLX(t: Topology, queue: string) {
    queue in t.queues && DLX_ARGUMENT in t.queues[queue].table
  }

  ghost function After(b: Broker, m: Move): Broker
    requires CanMove(b, m)
  {
    match m
    case Publish(key) =>
      var e := Envelope(|b.published|, key);
      b.(ready := Route(b, EXCHANGE, e), published := b.published + [e])
    case Deliver(queue) =>
      b.(ready := b.ready[queue := b.ready[queue][1..]],
         unacked := b.unacked + [Delivery(queue, b.ready[queue][0])])
    case Ack(i) =>
      b.(unacked := Without(b.unacked, i), acked := b.acked + [b.unacked[i].envelope])
    case Reject(i) =>
      var d := b.unacked[i];
      b.(unacked := Without(b.unacked, i),
         ready := if HasDLX(b.topology, d.queue)
                  then Route(b, b.topology.queues[d.queue].table[DLX_ARGUMENT], d.envelope)
                  else b.ready)
    case Requeue(i) =>
      var d := b.unacked[i];
      b.(unacked := Without(b.unacked, i), ready := b.ready[d.queue := [d.envelope] + b.ready[d.queue]])
    case Redeclare(t) => b.(topology := t)
  }

  ghost function AfterAll(b: Broker, ms: seq<Move>): Option<Broker>
    decreases ms
  {
    if ms == [] then Some(b) else if CanMove(b, ms[0]) then AfterAll(After(b, ms[0]), ms[1..]) else None
  }

  // ---------------------------------------------------------------------------------------
  // Where the messages are
  // ---------------------------------------------------------------------------------------

  function Envelopes(ds: seq<Delivery>): seq<Envelope> {
    seq(|ds|, i requires 0 <= i < |ds| => ds[i].envelope)
  }

  ghost function Waiting(b: Broker): multiset<Envelope>
    requires OURS.queues.Keys <= b.ready.Keys
  {
    multiset(b.ready[QUEUE_UPLOAD]) + multiset(b.ready[QUEUE_DELETE])
  }

  ghost function Buried(b: Broker): multiset<Envelope>
    requires OURS.queues.Keys <= b.ready.Keys
  {
    multiset(b.ready[QUEUE_DEAD])
  }

  ghost function InHand(b: Broker): multiset<Envelope> {
    multiset(Envelopes(b.unacked))
  }

  /** Our topology is all there, unaltered, and single-routed. */
  ghost predicate WellDeclared(t: Topology) {
    Declared(t) == t && Compatible(t) && RoutesSingly(t)
  }

  ghost predicate BrokerOk(b: Broker) {
    && WellDeclared(b.topology) && OURS.queues.Keys <= b.ready.Keys
    && Waiting(b) + InHand(b) + multiset(b.acked) + Buried(b) == multiset(b.published)
    && (forall i | 0 <= i < |b.published| :: b.published[i].number == i && b.published[i].key in {QUEUE_UPLOAD, QUEUE_DELETE})
    && (forall e | e in b.ready[QUEUE_UPLOAD] :: e.key == QUEUE_UPLOAD)
    && (forall e | e in b.ready[QUEUE_DELETE] :: e.key == QUEUE_DELETE)
    && (forall d | d in b.unacked :: d.queue == d.envelope.key && d.queue in {QUEUE_UPLOAD, QUEUE_DELETE})
  }

  /** What is in the dead queue stays there. */
  ghost predicate DeadKept(b: Broker, b': Broker) {
    && QUEUE_DEAD in b.ready && QUEUE_DEAD in b'.ready
    && forall e | e in b.ready[QUEUE_DEAD] :: e in b'.ready[QUEUE_DEAD]
  }

  lemma WithoutCounts<T>(s: seq<T>, i: nat)
    requires i < |s|
    ensures multiset(s) == multiset(Without(s, i)) + multiset{s[i]}
    ensures forall x | x in Without(s, i) :: x in s
  {
    assert s == s[..i] + [s[i]] + s[i + 1..];
  }

  lemma EnvelopesWithout(ds: seq<Delivery>, i: nat)
    requires i < |ds|
    ensures multiset(Envelopes(ds)) == multiset(Envelopes(Without(ds, i))) + multiset{ds[i].envelope}
  {
    WithoutCounts(Envelopes(ds), i);
    assert Envelopes(Without(ds, i)) == Without(Envelopes(ds), i);
  }

  lemma RoutedTo(b: Broker, exchange: string, e: Envelope, q: string)
    requires Routes(b.topology, exchange, e.key) == {q} && q in b.ready
    ensures Route(b, exchange, e) == b.ready[q := b.ready[q] + [e]]
  {
  }

  lemma PublishOk(b: Broker, key: string)
    requires BrokerOk(b) && CanMove(b, Publish(key))
    ensures BrokerOk(After(b, Publish(key))) && DeadKept(b, After(b, Publish(key)))
  {
    var e := Envelope(|b.published|, key);
    RoutedTo(b, EXCHANGE, e, key);
    PublishedOk(b, After(b, Publish(key)), e);
  }

  lemma PublishedOk(b: Broker, b': Broker, e: Envelope)
    requires BrokerOk(b) && e.number == |b.published| && e.key in {QUEUE_UPLOAD, QUEUE_DELETE} && e.key in b.ready
    requires b' == b.(ready := b.ready[e.key := b.ready[e.key] + [e]], published := b.published + [e])
    ensures BrokerOk(b') && DeadKept(b, b')
  {
    NamesDiffer();
    assert b'.ready[QUEUE_DEAD] == b.ready[QUEUE_DEAD];
  }

  lemma DeliverOk(b: Broker, queue: string)
    requires BrokerOk(b) && CanMove(b, Deliver(queue))
    ensures BrokerOk(After(b, Deliver(queue))) && DeadKept(b, After(b, Deliver(queue)))
  {
    var e, rest, b' := b.ready[queue][0], b.ready[queue][1..], After(b, Deliver(queue));
    assert b.ready[queue] == [e] + rest;
    assert Envelopes(b'.unacked) == Envelopes(b.unacked) + [e];
    assert multiset(b.ready[queue]) == multiset{e} + multiset(rest);
    assert e in b.ready[queue] && forall x | x in rest :: x in b.ready[queue];
    DeliveredOk(b, b', queue, e, rest);
  }

  lemma DeliveredOk(b: Broker, b': Broker, queue: string, e: Envelope, rest: seq<Envelope>)
    requires BrokerOk(b) && queue in {QUEUE_UPLOAD, QUEUE_DELETE} && queue in b.ready && e.key == queue
    requires multiset(b.ready[queue]) == multiset{e} + multiset(rest)
    requires forall x | x in rest :: x in b.ready[queue]
    requires b' == b.(ready := b.ready[queue := rest], unacked := b.unacked + [Delivery(queue, e)])
    requires InHand(b') == InHand(b) + multiset{e}
    ensures BrokerOk(b') && DeadKept(b, b')
  {
    NamesDiffer();
    assert b'.ready[QUEUE_DEAD] == b.ready[QUEUE_DEAD];
    assert Waiting(b) == Waiting(b') + multiset{e};
  }

  lemma AckOk(b: Broker, i: nat)
    requires BrokerOk(b) && CanMove(b, Ack(i))
    ensures BrokerOk(After(b, Ack(i))) && DeadKept(b, After(b, Ack(i)))
  {
    EnvelopesWithout(b.unacked, i);
    WithoutCounts(b.unacked, i);
  }

  lemma RejectOk(b: Broker, i: nat)
    requires BrokerOk(b) && CanMove(b, Reject(i))
    ensures BrokerOk(After(b, Reject(i))) && DeadKept(b, After(b, Reject(i)))
    ensures var b' := After(b, Reject(i));
            && b'.ready == b.ready[QUEUE_DEAD := b.ready[QUEUE_DEAD] + [b.unacked[i].envelope]]
            && b'.acked == b.acked && b'.published == b.published
  {
    var d, b' := b.unacked[i], After(b, Reject(i));
    assert d in b.unacked;
    WorkQueuesDeadLetter(b.topology, d.queue);
    RoutedTo(b, DLX_EXCHANGE, d.envelope, QUEUE_DEAD);
    EnvelopesWithout(b.unacked, i);
    WithoutCounts(b.unacked, i);
    RejectedOk(b, b', d.envelope);
  }

  lemma RejectedOk(b: Broker, b': Broker, e: Envelope)
    requires BrokerOk(b)
    requires b' == b.(ready := b.ready[QUEUE_DEAD := b.ready[QUEUE_DEAD] + [e]], unacked := b'.unacked)
    requires InHand(b) == InHand(b') + multiset{e} && forall d | d in b'.unacked :: d in b.unacked
    ensures BrokerOk(b') && DeadKept(b, b')
  {
    NamesDiffer();
    assert Waiting(b') == Waiting(b);
  }

  lemma RequeueOk(b: Broker, i: nat)
    requires BrokerOk(b) && CanMove(b, Requeue(i))
    ensures BrokerOk(After(b, Requeue(i))) && DeadKept(b, After(b, Requeue(i)))
  {
    var d := b.unacked[i];
    assert d in b.unacked;
    EnvelopesWithout(b.unacked, i);
    WithoutCounts(b.unacked, i);
    RequeuedOk(b, After(b, Requeue(i)), d.queue, d.envelope);
  }

  lemma RequeuedOk(b: Broker, b': Broker, queue: string, e: Envelope)
    requires BrokerOk(b) && queue in {QUEUE_UPLOAD, QUEUE_DELETE} && queue in b.ready && e.key == queue
    requires b' == b.(ready := b.ready[queue := [e] + b.ready[queue]], unacked := b'.unacked)
    requires InHand(b) == InHand(b') + multiset{e} && forall d | d in b'.unacked :: d in b.unacked
    ensures BrokerOk(b') && DeadKept(b, b')
  {
    NamesDiffer();
    assert b'.ready[QUEUE_DEAD] == b.ready[QUEUE_DEAD];
    RequeuedCounts(b, b', queue, e);
  }

  lemma RequeuedCounts(b: Broker, b': Broker, queue: string, e: Envelope)
    requires OURS.queues.Keys <= b.ready.Keys && queue in {QUEUE_UPLOAD, QUEUE_DELETE} && queue in b.ready
    requires b' == b.(ready := b.ready[queue := [e] + b.ready[queue]], unacked := b'.unacked)
    ensures Waiting(b') == Waiting(b) + multiset{e}
  {
    NamesDiffer();
    assert multiset([e] + b.ready[queue]) == multiset{e} + multiset(b.ready[queue]);
  }

  /** Where everything of ours is declared, no Declare changes anything, wherever it stops. */
  lemma RedeclareOk(t: Topology, t': Topology)
    requires WellDeclared(t) && PartlyDeclared(t, t')
    ensures t' == t
  {
    assert t'.exchanges == t.exchanges && t'.queues == t.queues && t'.bindings == t.bindings;
  }

  lemma MoveOk(b: Broker, m: Move)
    requires BrokerOk(b) && CanMove(b, m)
    ensures BrokerOk(After(b, m)) && DeadKept(b, After(b, m))
  {
    match m
    case Publish(key) => PublishOk(b, key);
    case Deliver(queue) => DeliverOk(b, queue);
    case Ack(i) => AckOk(b, i);
    case Reject(i) => RejectOk(b, i);
    case Requeue(i) => RequeueOk(b, i);
    case Redeclare(t) => RedeclareOk(b.topology, t);
  }

  lemma {:induction false} MovesOk(b: Broker, ms: seq<Move>)
    requires BrokerOk(b) && AfterAll(b, ms).Some?
    ensures BrokerOk(AfterAll(b, ms).value)
    decreases ms
  {
    if ms != [] {
      MoveOk(b, ms[0]);
      MovesOk(After(b, ms[0]), ms[1..]);
    }
  }

  lemma {:induction false} PublishedOnce(s: seq<Envelope>, i: nat)
    requires i < |s| && forall j | 0 <= j < |s| :: s[j].number == j
    ensures multiset(s)[s[i]] == 1
  {
    assert s == s[..i] + [s[i]] + s[i + 1..];
    assert s[i] !in s[..i] && s[i] !in s[i + 1..];
  }

  /** After any moves from a broker on which Declare succeeded and nobody else bound a queue under our
      keys, with Declare called again at any time, every published
      message, under the key it was published with, is in exactly one of ready, unacked, acked
      and dead, and there once; nothing else is anywhere; and a waiting message is in the queue
      of its key. */
  lemma EveryMessageIsInOnePlace(t: Topology, ms: seq<Move>, i: nat)
    requires Compatible(t) && NoForeignBindings(t)
    requires AfterAll(Fresh(t), ms).Some? && i < |AfterAll(Fresh(t), ms).value.published|
    ensures var b := AfterAll(Fresh(t), ms).value; var e := b.published[i];
            && OURS.queues.Keys <= b.ready.Keys
            && Waiting(b)[e] + InHand(b)[e] + multiset(b.acked)[e] + Buried(b)[e] == 1
            && (forall x | x in Waiting(b) + InHand(b) + multiset(b.acked) + Buried(b) :: x in b.published)
            && (e in Waiting(b) ==> e.key in b.ready && e in b.ready[e.key])
  {
    FreshOk(t);
    MovesOk(Fresh(t), ms);
    OnePlace(AfterAll(Fresh(t), ms).value, i);
  }

  lemma OnePlace(b: Broker, i: nat)
    requires BrokerOk(b) && i < |b.published|
    ensures var e := b.published[i];
            && Waiting(b)[e] + InHand(b)[e] + multiset(b.acked)[e] + Buried(b)[e] == 1
            && (e in Waiting(b) ==> e in b.ready[e.key])
    ensures forall x | x in Waiting(b) + InHand(b) + multiset(b.acked) + Buried(b) :: x in b.published
  {
    PublishedOnce(b.published, i);
    assert (Waiting(b) + InHand(b) + multiset(b.acked) + Buried(b))[b.published[i]] == 1;
  }

  lemma DeclaredIsWell(t: Topology)
    requires Compatible(t) && NoForeignBindings(t)
    ensures WellDeclared(Declared(t))
  {
    DeclaredAgain(t, Declared(t));
    RoutesAreSingleIff(t);
    assert forall x | x in OURS.exchanges :: Declared(t).exchanges[x] == OURS.exchanges[x];
  }

  lemma FreshOk(t: Topology)
    requires Compatible(t) && NoForeignBindings(t)
    ensures BrokerOk(Fresh(t))
  {
    DeclaredIsWell(t);
    assert forall q | q in OURS.queues :: q in Declared(t).queues;
  }

  /** A message rejected from either work queue is from then on in the dead queue, once, for ever. */
  lemma BuriedForGood(t: Topology, ms: seq<Move>, i: nat, ms': seq<Move>)
    requires Compatible(t) && NoForeignBindings(t)
    requires AfterAll(Fresh(t), ms).Some? && CanMove(AfterAll(Fresh(t), ms).value, Reject(i))
    requires AfterAll(After(AfterAll(Fresh(t), ms).value, Reject(i)), ms').Some?
    ensures var b := AfterAll(Fresh(t), ms).value; var b' := AfterAll(After(b, Reject(i)), ms').value;
            QUEUE_DEAD in b'.ready && multiset(b'.ready[QUEUE_DEAD])[b.unacked[i].envelope] == 1
  {
    var b := AfterAll(Fresh(t), ms).value;
    FreshOk(t);
    MovesOk(Fresh(t), ms);
    RejectOk(b, i);
    var e, b1 := b.unacked[i].envelope, After(b, Reject(i));
    assert b1.ready[QUEUE_DEAD][|b.ready[QUEUE_DEAD]|] == e;
    DeadStays(b1, ms', e);
    DeadOnce(AfterAll(b1, ms').value, e);
  }

  lemma DeadOnce(b: Broker, e: Envelope)
    requires BrokerOk(b) && e in b.ready[QUEUE_DEAD]
    ensures multiset(b.ready[QUEUE_DEAD])[e] == 1
  {
    assert e in Waiting(b) + InHand(b) + multiset(b.acked) + Buried(b);
    var j :| 0 <= j < |b.published| && b.published[j] == e;
    OnePlace(b, j);
  }

  lemma {:induction false} DeadStays(b: Broker, ms: seq<Move>, e: Envelope)
    requires BrokerOk(b) && AfterAll(b, ms).Some? && e in b.ready[QUEUE_DEAD]
    ensures BrokerOk(AfterAll(b, ms).value) && e in AfterAll(b, ms).value.ready[QUEUE_DEAD]
    decreases ms
  {
    if ms != [] {
      MoveOk(b, ms[0]);
      DeadStays(After(b, ms[0]), ms[1..], e);
    }
  }
}
