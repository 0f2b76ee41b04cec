/** Runs that can be made: what some scheduler can do from a given state, step by step. */
module Futures {
  import opened Avatars
  import opened Calls
  import opened Protocol
  import P = Processor

  /** Some run goes from s to s'. */
  ghost predicate Leads(cfg: Config, s: State, s': State) {
    exists es :: Run(cfg, s, es, s')
  }

  lemma Stay(cfg: Config, s: State)
    ensures Leads(cfg, s, s)
  {
    assert Run(cfg, s, [], s);
  }

  lemma Go(cfg: Config, s0: State, s: State, e: Event) returns (s': State)
    requires Leads(cfg, s0, s) && Enabled(cfg, s, e)
    ensures Leads(cfg, s0, s') && s' == Apply(cfg, s, e)
  {
    s' := Apply(cfg, s, e);
    var es :| Run(cfg, s0, es, s);
    RunSnoc(cfg, s0, es, s, e);
  }

  // ---------------------------------------------------------------------------------------
  // A worker without work
  // ---------------------------------------------------------------------------------------

  predicate Holds(msg: Message, worker: Worker) {
    if msg.UploadMsg? then HeldBy(msg.uploadStage, worker) else HeldBy(msg.deleteStage, worker)
  }

  ghost predicate Idle(s: State, worker: Worker) {
    worker !in s.cancelled && forall m | 0 <= m < |s.queue| :: !Holds(s.queue[m], worker)
  }

  lemma {:induction false} AboveAll(taken: set<Worker>) returns (worker: Worker)
    ensures forall other | other in taken :: other < worker
    decreases taken
  {
    worker := 0;
    if taken != {} {
      var some :| some in taken;
      var rest := AboveAll(taken - {some});
      worker := rest + some + 1;
      assert forall other | other in taken :: other == some || other in taken - {some};
    }
  }

  function HolderOf(msg: Message): set<Worker> {
    match msg
    case UploadMsg(_, stage) => if stage.Ready? || stage.Acked? || stage.Dead? then {} else {stage.worker}
    case DeleteMsg(_, stage) => if stage.Ready? || stage.Acked? || stage.Dead? then {} else {stage.worker}
  }

  function Holders(queue: seq<Message>): set<Worker> {
    if queue == [] then {} else HolderOf(queue[0]) + Holders(queue[1..])
  }

  lemma {:induction false} HoldersAreAll(queue: seq<Message>, m: nat, worker: Worker)
    requires m < |queue| && Holds(queue[m], worker)
    ensures worker in Holders(queue)
    decreases queue
  {
    if m > 0 {
      HoldersAreAll(queue[1..], m - 1, worker);
    }
  }

  /** There is always an idle worker: one can be started. */
  lemma IdleExists(s: State) returns (worker: Worker)
    ensures Idle(s, worker)
  {
    worker := AboveAll(s.cancelled + Holders(s.queue));
    forall m | 0 <= m < |s.queue|
      ensures !Holds(s.queue[m], worker)
    {
      if Holds(s.queue[m], worker) {
        HoldersAreAll(s.queue, m, worker);
      }
    }
  }

  predicate IsReady(msg: Message) {
    if msg.UploadMsg? then msg.uploadStage.Ready? else msg.deleteStage.Ready?
  }

  /** An idle worker takes a ready message and starts its handler. */
  lemma Fetch(cfg: Config, s0: State, s: State, m: nat, worker: Worker) returns (s': State)
    requires Leads(cfg, s0, s) && m < |s.queue| && IsReady(s.queue[m]) && Idle(s, worker)
    ensures Leads(cfg, s0, s') && s' == s.(queue := s.queue[m := Started(s.queue[m], worker, 0)])
  {
    s' := Go(cfg, s0, s, Deliver(m, worker));
    assert forall k | 0 <= k < |s.queue| && k != m :: s'.queue[k] == s.queue[k] && !Holds(s.queue[k], worker);
    s' := Go(cfg, s0, s', Take(m));
    assert s'.queue == s.queue[m := Started(s.queue[m], worker, 0)];
  }

  // ---------------------------------------------------------------------------------------
  // Handlers at work
  // ---------------------------------------------------------------------------------------

  /** An upload handler makes its next call. */
  lemma HandlerGoes(cfg: Config, s0: State, s: State, m: nat, c: Call) returns (s': State)
    requires Leads(cfg, s0, s) && m < |s.queue| && s.queue[m].UploadMsg?
    requires s.queue[m].uploadStage.Running? && !P.Ended(s.queue[m].uploadStage.pc)
    ensures Leads(cfg, s0, s') && Enabled(cfg, s, Work(m, c)) && s' == Apply(cfg, s, Work(m, c))
    ensures var ev, stage := s.queue[m].uploadEvent, s.queue[m].uploadStage;
            s' == s.(w := P.UploadEffect(cfg, ev, stage.pc, s.w, c),
                     queue := s.queue[m := UploadMsg(ev, stage.(pc := P.UploadNext(cfg, ev, stage.pc, s.w, c)))])
  {
    s' := Go(cfg, s0, s, Work(m, c));
  }

  /** A cleanup handler makes its next call. */
  lemma CleanerGoes(cfg: Config, s0: State, s: State, m: nat, c: Call) returns (s': State)
    requires Leads(cfg, s0, s) && m < |s.queue| && s.queue[m].DeleteMsg?
    requires s.queue[m].deleteStage.Running?
    requires s.queue[m].deleteStage.pc.RemoveKey? || s.queue[m].deleteStage.pc.MarkDeleted?
    ensures Leads(cfg, s0, s')
    ensures var ev, stage := s.queue[m].deleteEvent, s.queue[m].deleteStage;
            s' == s.(w := P.DeleteEffect(ev, stage.pc, s.w, c),
                     queue := s.queue[m := DeleteMsg(ev, stage.(pc := P.DeleteNext(ev, stage.pc, s.w, c)))])
  {
    s' := Go(cfg, s0, s, Work(m, c));
  }

  /** Every attempt left fails at its row read, and the message is about to be reported. */
  lemma {:induction false} ExhaustRetries(cfg: Config, s0: State, s: State, m: nat, ev: UploadEvent, worker: Worker, attempt: nat)
    returns (s': State)
    requires Leads(cfg, s0, s) && m < |s.queue| && worker !in s.cancelled && attempt <= |cfg.backoff|
    requires s.queue[m] == UploadMsg(ev, Running(worker, attempt, P.ReadRow))
    ensures Leads(cfg, s0, s') && s' == s.(queue := s.queue[m := UploadMsg(ev, Reporting(worker))])
    decreases |cfg.backoff| - attempt
  {
    s' := HandlerGoes(cfg, s0, s, m, Call(Failure, 0));
    assert s' == s.(queue := s.queue[m := UploadMsg(ev, Running(worker, attempt, P.Errored))]);
    if attempt < |cfg.backoff| {
      s' := Go(cfg, s0, s', Retry(m));
      s' := ExhaustRetries(cfg, s0, s', m, ev, worker, attempt + 1);
    } else {
      s' := Go(cfg, s0, s', Finish(m));
    }
    assert s'.queue == s.queue[m := UploadMsg(ev, Reporting(worker))];
  }

  /** Neither acked nor buried. */
  predicate Unsettled(msg: Message) {
    if msg.UploadMsg? then !msg.uploadStage.Acked? && !msg.uploadStage.Dead?
    else !msg.deleteStage.Acked? && !msg.deleteStage.Dead?
  }

  function AsReady(msg: Message): Message {
    match msg
    case UploadMsg(ev, _) => UploadMsg(ev, Ready)
    case DeleteMsg(ev, _) => DeleteMsg(ev, Ready)
  }

  /** The connection of whoever holds a message drops, so the message is ready again. */
  lemma Recover(cfg: Config, s0: State, s: State, m: nat) returns (s': State)
    requires Leads(cfg, s0, s) && m < |s.queue| && Unsettled(s.queue[m])
    ensures Leads(cfg, s0, s') && s' == s.(queue := s'.queue) && |s'.queue| == |s.queue|
    ensures s'.queue[m] == AsReady(s.queue[m])
  {
    s' := s;
    if !IsReady(s.queue[m]) {
      var worker := if s.queue[m].UploadMsg? then s.queue[m].uploadStage.worker else s.queue[m].deleteStage.worker;
      s' := Go(cfg, s0, s, Crash(worker));
    }
  }

  /** A message that is not settled can end up reported: nothing in the stores changes until then
      but the status of its avatar, whatever it was. */
  lemma ReportHappens(cfg: Config, s0: State, s: State, m: nat) returns (s': State)
    requires Leads(cfg, s0, s) && m < |s.queue| && s.queue[m].UploadMsg? && Unsettled(s.queue[m])
    ensures Leads(cfg, s0, s') && s'.w == P.ReportEffect(s.queue[m].uploadEvent, s.w, FAULT_FREE)
  {
    var ready := Recover(cfg, s0, s, m);
    var worker := IdleExists(ready);
    s' := Fetch(cfg, s0, ready, m, worker);
    s' := ExhaustRetries(cfg, s0, s', m, s.queue[m].uploadEvent, worker, 0);
    s' := Go(cfg, s0, s', Report(m, FAULT_FREE));
  }

  /** A cleanup handler removes the keys it has left, without faults, and returns. */
  lemma {:induction false} CleanerFinishes(cfg: Config, s0: State, s: State, m: nat, ev: DeleteEvent, worker: Worker, i: nat)
    returns (s': State)
    requires Leads(cfg, s0, s) && m < |s.queue| && i <= |ev.s3Keys|
    requires s.queue[m] == DeleteMsg(ev, Running(worker, 0, P.NextKey(ev, i)))
    ensures Leads(cfg, s0, s')
    ensures s' == s.(w := s'.w, queue := s.queue[m := DeleteMsg(ev, Running(worker, 0, P.DeleteReturned))])
    ensures forall k | k in s.w.objects && k !in ev.s3Keys :: k in s'.w.objects
    ensures forall k | k in ev.s3Keys[i..] || k !in s.w.objects :: k !in s'.w.objects
    decreases |ev.s3Keys| - i
  {
    s' := CleanerGoes(cfg, s0, s, m, FAULT_FREE);
    if i < |ev.s3Keys| {
      assert ev.s3Keys[i..] == [ev.s3Keys[i]] + ev.s3Keys[i + 1..];
      s' := CleanerFinishes(cfg, s0, s', m, ev, worker, i + 1);
    }
    assert s'.queue == s.queue[m := DeleteMsg(ev, Running(worker, 0, P.DeleteReturned))];
  }
}
