/** From the publisher through the broker to the loop that processes an event. */
module Delivery {
  import S = Service
  import opened Topology
  import opened Protocol
  import Invariant

  /** The queue a worker reads for the loop that handles this message: the upload loop reads the upload
      queue, the delete loop the delete queue. */
  function LoopQueue(msg: Message): string {
    match msg
    case UploadMsg(_, _) => QUEUE_UPLOAD
    case DeleteMsg(_, _) => QUEUE_DELETE
  }

  /** A message on the wire reaches the loop its event is for and no other queue, and a rejected one the
      dead queue only. */
  ghost predicate ReachesItsLoop(t: Topology, p: S.Publishing) {
    && Routes(t, p.exchange, p.key) == {LoopQueue(Posted(p.body))}
    && LoopQueue(Posted(p.body)) in t.queues && DLX_ARGUMENT in t.queues[LoopQueue(Posted(p.body))].table
    && Routes(t, t.queues[LoopQueue(Posted(p.body))].table[DLX_ARGUMENT], p.key) == {QUEUE_DEAD}
  }

  /** Everything a publisher put on the wire, on a broker declared without foreign queues and bindings, is
      a persistent message that reaches the loop of its event, under the id of its avatar. */
  lemma WireReachesItsLoop(t: Topology, wire: seq<S.Publishing>, sent: seq<S.Event>, i: nat)
    requires wire == S.Wired(sent) && i < |wire| && Compatible(t) && NoForeignBindings(t)
    ensures |wire| == |sent| && wire[i].body == sent[i] && wire[i].persistent
    ensures wire[i].messageID == Invariant.MsgAvatar(Posted(sent[i]))
    ensures ReachesItsLoop(Declared(t), wire[i])
    ensures sent[i].UploadPublished? ==>
              Posted(sent[i]).UploadMsg? && Routes(Declared(t), wire[i].exchange, wire[i].key) == {QUEUE_UPLOAD}
    ensures sent[i].DeletePublished? ==>
              Posted(sent[i]).DeleteMsg? && Routes(Declared(t), wire[i].exchange, wire[i].key) == {QUEUE_DELETE}
  {
    RoutesAreSingleIff(t);
    var queue := LoopQueue(Posted(sent[i]));
    assert queue in WORK_QUEUES;
    WorkQueuesDeadLetter(t, queue);
  }
}
