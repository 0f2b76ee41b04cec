/** The avatar lifecycle as one distributed protocol: any number of requests and workers
    interleave over the table, the bucket and the two work queues, one store call, publish or
    broker move at a time. The program counters step exactly as the use cases and handlers do.

    Assumed: upload ids are fresh, both stores are strongly consistent, event bodies decode to
    what was encoded, and a crashed worker's handlers take no further effect. So a message has
    at most one handler, whose program counter is kept with the message, and an upload request
    is named by its id. */
module Protocol {
  import opened Wrappers
  import opened Avatars
  import opened Calls
  import Postgres
  import P = Processor
  import S = Service
  import C = Consumer

  type Worker = nat

  /** What one upload request was asked to do and where it stands. */
  datatype Upload = Upload(user: User, fileName: string, data: Data, pc: S.UploadPc)

  datatype Deletion = Deletion(target: S.Target, pc: S.DeletePc)

  datatype Reading = Reading(query: S.Query, pc: S.ReadPc)

  /** Where a published message is. Ready and Buffered (sent to a worker, not yet taken by its
      loop) wait; the middle four are one worker's process call; Stranded is a message whose
      settlement was lost, unacknowledged until the connection drops. `reported` records that
      UploadFailed's write was answered with success. */
  datatype Stage<Pc> =
    | Ready
    | Buffered(worker: Worker)
    | Running(worker: Worker, attempt: nat, pc: Pc)
    | Reporting(worker: Worker)
    | Settling(worker: Worker, how: C.Settlement, reported: bool)
    | Stranded(worker: Worker)
    | Acked
    | Dead(reported: bool)

  datatype Message =
    | UploadMsg(uploadEvent: UploadEvent, uploadStage: Stage<P.UploadPc>)
    | DeleteMsg(deleteEvent: DeleteEvent, deleteStage: Stage<P.DeletePc>)

  datatype State = State(
    w: World,
    uploads: map<Id, Upload>,
    deletions: seq<Deletion>,
    readings: seq<Reading>,
    queue: seq<Message>,
    cancelled: set<Worker>)

  const INITIAL := State(World(map[], map[]), map[], [], [], [], {})

  datatype Event =
    | StartUpload(id: Id, user: User, fileName: string, data: Data)
    | UploadStep(id: Id, call: Call)
    | StartDelete(target: S.Target)
    | DeleteFind(d: nat, call: Call, pick: Option<Id>, order: seq<string>)
    | DeleteStep(d: nat, call: Call)
    | StartRead(query: S.Query)
    | ReadLookup(r: nat, call: Call, pick: Option<Id>)
    | ReadOpen(r: nat, call: Call)
    | Deliver(m: nat, worker: Worker)
    | Take(m: nat)
    | Work(m: nat, call: Call)
    | Retry(m: nat)
    | Finish(m: nat)
    | Report(m: nat, call: Call)
    | SettleMsg(m: nat, took: bool)
    | Cancel(worker: Worker)
    | Crash(worker: Worker)

  // ---------------------------------------------------------------------------------------
  // Stages
  // ---------------------------------------------------------------------------------------

  predicate HeldBy<Pc>(stage: Stage<Pc>, worker: Worker) {
    !stage.Ready? && !stage.Acked? && !stage.Dead? && stage.worker == worker
  }

  /** A loop handles one message at a time. */
  predicate Busy<Pc>(stage: Stage<Pc>, worker: Worker) {
    HeldBy(stage, worker) && !stage.Buffered? && !stage.Stranded?
  }

  /** The connection dropped: what the worker held is ready again. */
  function Requeued<Pc>(stage: Stage<Pc>, worker: Worker): Stage<Pc> {
    if HeldBy(stage, worker) then Ready else stage
  }

  function Settled<Pc>(stage: Stage<Pc>, took: bool): Stage<Pc>
    requires stage.Settling?
  {
    if !took then Stranded(stage.worker)
    else
      match stage.how
      case Ack => Acked
      case Requeue => Ready
      case DeadLetter => Dead(stage.reported)
  }

  predicate Failed(msg: Message) {
    if msg.UploadMsg? then msg.uploadStage.Running? && msg.uploadStage.pc.Errored?
    else msg.deleteStage.Running? && msg.deleteStage.pc.DeleteErrored?
  }

  predicate Succeeded(msg: Message) {
    if msg.UploadMsg? then msg.uploadStage.Running? && msg.uploadStage.pc.Returned?
    else msg.deleteStage.Running? && msg.deleteStage.pc.DeleteReturned?
  }

  function Attempt(msg: Message): nat
    requires Failed(msg) || Succeeded(msg)
  {
    if msg.UploadMsg? then msg.uploadStage.attempt else msg.deleteStage.attempt
  }

  function WorkerOf(msg: Message): Worker
    requires Failed(msg) || Succeeded(msg)
  {
    if msg.UploadMsg? then msg.uploadStage.worker else msg.deleteStage.worker
  }

  /** The handler starts from its first step. */
  function Started(msg: Message, worker: Worker, attempt: nat): Message {
    match msg
    case UploadMsg(ev, _) => UploadMsg(ev, Running(worker, attempt, P.ReadRow))
    case DeleteMsg(ev, _) => DeleteMsg(ev, Running(worker, attempt, P.NextKey(ev, 0)))
  }

  /** withRetry returned; process decides. Only the upload loop has a dead callback. */
  function Finished(msg: Message, cancelled: set<Worker>): Message
    requires Failed(msg) || Succeeded(msg)
  {
    var worker := WorkerOf(msg);
    var how := C.Settle(Succeeded(msg), worker in cancelled);
    match msg
    case UploadMsg(ev, _) => UploadMsg(ev, if how.DeadLetter? then Reporting(worker) else Settling(worker, how, false))
    case DeleteMsg(ev, _) => DeleteMsg(ev, Settling(worker, how, false))
  }

  /** UploadFailed's call was made. */
  function Reported(msg: Message, t: Table, c: Call): Message
    requires msg.UploadMsg? && msg.uploadStage.Reporting?
  {
    var ok := Postgres.ExecReply(msg.uploadEvent.avatarID in t, c).Ok?;
    UploadMsg(msg.uploadEvent, Settling(msg.uploadStage.worker, C.DeadLetter, ok))
  }

  // ---------------------------------------------------------------------------------------
  // Steps
  // ---------------------------------------------------------------------------------------

  function NewRow(cfg: Config, id: Id, u: Upload): New {
    S.Record(cfg, id, u.user, u.fileName, u.data)
  }

  ghost predicate Enabled(cfg: Config, s: State, e: Event) {
    match e
    case StartUpload(id, _, _, _) => id !in s.uploads
    case UploadStep(id, _) => id in s.uploads && !s.uploads[id].pc.Answered? && !s.uploads[id].pc.Refused?
    case StartDelete(_) => true
    case DeleteFind(d, c, pick, order) =>
      d < |s.deletions| && s.deletions[d].pc.Find? && S.FindAdmits(s.deletions[d].target, s.w, c, pick, order)
    case DeleteStep(d, _) =>
      d < |s.deletions| && (s.deletions[d].pc.Hide? || s.deletions[d].pc.AnnounceDelete?)
    case StartRead(_) => true
    case ReadLookup(r, c, pick) =>
      r < |s.readings| && s.readings[r].pc.Lookup? && S.LookupAdmits(s.readings[r].query, s.w, pick)
    case ReadOpen(r, _) => r < |s.readings| && s.readings[r].pc.Open?
    case Deliver(m, _) =>
      m < |s.queue| && if s.queue[m].UploadMsg? then s.queue[m].uploadStage.Ready? else s.queue[m].deleteStage.Ready?
    case Take(m) =>
      m < |s.queue| &&
      if s.queue[m].UploadMsg? then
        s.queue[m].uploadStage.Buffered? &&
        forall k | 0 <= k < |s.queue| && s.queue[k].UploadMsg? :: !Busy(s.queue[k].uploadStage, s.queue[m].uploadStage.worker)
      else
        s.queue[m].deleteStage.Buffered? &&
        forall k | 0 <= k < |s.queue| && s.queue[k].DeleteMsg? :: !Busy(s.queue[k].deleteStage, s.queue[m].deleteStage.worker)
    case Work(m, _) =>
      m < |s.queue| && !Failed(s.queue[m]) && !Succeeded(s.queue[m]) &&
      if s.queue[m].UploadMsg? then s.queue[m].uploadStage.Running? else s.queue[m].deleteStage.Running?
    case Retry(m) =>
      m < |s.queue| && Failed(s.queue[m]) && Attempt(s.queue[m]) < |cfg.backoff|
    case Finish(m) =>
      m < |s.queue| && (Failed(s.queue[m]) || Succeeded(s.queue[m])) &&
      C.StopsRetrying(cfg.backoff, Attempt(s.queue[m]), Succeeded(s.queue[m]), WorkerOf(s.queue[m]) in s.cancelled)
    case Report(m, _) => m < |s.queue| && s.queue[m].UploadMsg? && s.queue[m].uploadStage.Reporting?
    case SettleMsg(m, _) =>
      m < |s.queue| && if s.queue[m].UploadMsg? then s.queue[m].uploadStage.Settling? else s.queue[m].deleteStage.Settling?
    case Cancel(_) => true
    case Crash(_) => true
  }

  function Posted(e: S.Event): Message {
    match e
    case UploadPublished(ev) => UploadMsg(ev, Ready)
    case DeletePublished(ev) => DeleteMsg(ev, Ready)
  }

  /** What a publish adds to the queues. */
  function Enqueue(queue: seq<Message>, sent: seq<S.Event>): seq<Message> {
    queue + seq(|sent|, i requires 0 <= i < |sent| => Posted(sent[i]))
  }

  function Drop(msg: Message, worker: Worker): Message {
    match msg
    case UploadMsg(ev, stage) => UploadMsg(ev, Requeued(stage, worker))
    case DeleteMsg(ev, stage) => DeleteMsg(ev, Requeued(stage, worker))
  }

  ghost function Apply(cfg: Config, s: State, e: Event): State
    requires Enabled(cfg, s, e)
  {
    match e
    case StartUpload(id, user, fileName, data) =>
      s.(uploads := s.uploads[id := Upload(user, fileName, data, S.CreateRow)])
    case UploadStep(id, c) =>
      var u := s.uploads[id];
      var n := NewRow(cfg, id, u);
      s.(w := S.UploadEffect(n, u.data, u.pc, s.w, c),
         uploads := s.uploads[id := u.(pc := S.UploadNext(n, u.pc, s.w, c))],
         queue := Enqueue(s.queue, S.UploadSent(u.pc, [], c)))
    case StartDelete(target) =>
      s.(deletions := s.deletions + [Deletion(target, S.DeleteStart(target))])
    case DeleteFind(d, c, pick, order) =>
      var del := s.deletions[d];
      s.(deletions := s.deletions[d := del.(pc := S.FindNext(del.target, s.w, c, pick, order))])
    case DeleteStep(d, c) =>
      var del := s.deletions[d];
      s.(w := S.DeleteEffect(del.pc, s.w, c),
         deletions := s.deletions[d := del.(pc := S.DeleteNext(del.pc, s.w, c))],
         queue := Enqueue(s.queue, S.DeleteSent(del.pc, [], c)))
    case StartRead(query) =>
      s.(readings := s.readings + [Reading(query, S.Lookup)])
    case ReadLookup(r, c, pick) =>
      var rd := s.readings[r];
      s.(readings := s.readings[r := rd.(pc := S.LookupNext(rd.query, s.w, c, pick))])
    case ReadOpen(r, c) =>
      var rd := s.readings[r];
      s.(readings := s.readings[r := rd.(pc := S.OpenNext(rd.query, rd.pc, s.w, c))])
    case Deliver(m, worker) =>
      s.(queue := s.queue[m := match s.queue[m]
                               case UploadMsg(ev, _) => UploadMsg(ev, Buffered(worker))
                               case DeleteMsg(ev, _) => DeleteMsg(ev, Buffered(worker))])
    case Take(m) =>
      var worker := if s.queue[m].UploadMsg? then s.queue[m].uploadStage.worker else s.queue[m].deleteStage.worker;
      s.(queue := s.queue[m := Started(s.queue[m], worker, 0)])
    case Work(m, c) => (
      match s.queue[m]
      case UploadMsg(ev, Running(worker, attempt, pc)) =>
        s.(w := P.UploadEffect(cfg, ev, pc, s.w, c),
           queue := s.queue[m := UploadMsg(ev, Running(worker, attempt, P.UploadNext(cfg, ev, pc, s.w, c)))])
      case DeleteMsg(ev, Running(worker, attempt, pc)) =>
        s.(w := P.DeleteEffect(ev, pc, s.w, c),
           queue := s.queue[m := DeleteMsg(ev, Running(worker, attempt, P.DeleteNext(ev, pc, s.w, c)))]))
    case Retry(m) =>
      s.(queue := s.queue[m := Started(s.queue[m], WorkerOf(s.queue[m]), Attempt(s.queue[m]) + 1)])
    case Finish(m) =>
      s.(queue := s.queue[m := Finished(s.queue[m], s.cancelled)])
    case Report(m, c) =>
      s.(w := P.ReportEffect(s.queue[m].uploadEvent, s.w, c),
         queue := s.queue[m := Reported(s.queue[m], s.w.table, c)])
    case SettleMsg(m, took) =>
      s.(queue := s.queue[m := match s.queue[m]
                               case UploadMsg(ev, stage) => UploadMsg(ev, Settled(stage, took))
                               case DeleteMsg(ev, stage) => DeleteMsg(ev, Settled(stage, took))])
    case Cancel(worker) => s.(cancelled := s.cancelled + {worker})
    case Crash(worker) =>
      s.(queue := seq(|s.queue|, i requires 0 <= i < |s.queue| => Drop(s.queue[i], worker)))
  }

  // ---------------------------------------------------------------------------------------
  // Runs
  // ---------------------------------------------------------------------------------------

  /** `es` leads from `s` to `s'`. */
  ghost predicate Run(cfg: Config, s: State, es: seq<Event>, s': State)
    decreases es
  {
    if es == [] then s' == s
    else Enabled(cfg, s, es[0]) && Run(cfg, Apply(cfg, s, es[0]), es[1..], s')
  }

  ghost predicate Reachable(cfg: Config, s: State) {
    exists es :: Run(cfg, INITIAL, es, s)
  }

  lemma {:induction false} RunSnoc(cfg: Config, s: State, es: seq<Event>, s': State, e: Event)
    requires Run(cfg, s, es, s') && Enabled(cfg, s', e)
    ensures Run(cfg, s, es + [e], Apply(cfg, s', e))
    decreases es
  {
    if es == [] {
      assert [e][1..] == [];
      assert [] + [e] == [e];
      assert Run(cfg, Apply(cfg, s', e), [e][1..], Apply(cfg, s', e));
    } else {
      assert (es + [e])[1..] == es[1..] + [e];
      RunSnoc(cfg, Apply(cfg, s, es[0]), es[1..], s', e);
    }
  }
}
