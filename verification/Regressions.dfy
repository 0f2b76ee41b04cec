/** Natural claims the protocol does not give: which steps break them, exactly, and runs that
    do. */
module Regressions {
  import opened Wrappers
  import opened KeyLayout
  import opened Avatars
  import opened Calls
  import opened Protocol
  import opened Futures
  import Cleanup
  import Postgres
  import P = Processor
  import S = Service
  import C = Consumer

  // ---------------------------------------------------------------------------------------
  // The steps that undo a status
  // ---------------------------------------------------------------------------------------

  /** UploadFailed's write for this avatar took effect. */
  predicate ReportsFailure(s: State, e: Event, id: Id) {
    e.Report? && Applied(e.call) && e.m < |s.queue| && s.queue[e.m].UploadMsg? && s.queue[e.m].uploadEvent.avatarID == id
  }

  /** A status write of this avatar's upload handler took effect. */
  predicate HandlerWritesStatus(s: State, e: Event, id: Id) {
    && e.Work? && Applied(e.call) && e.m < |s.queue| && s.queue[e.m].UploadMsg?
    && s.queue[e.m].uploadEvent.avatarID == id && s.queue[e.m].uploadStage.Running?
    && var pc := s.queue[e.m].uploadStage.pc; pc.MarkProcessing? || pc.MarkFailed? || pc.SaveThumbnails?
  }

  /** The cleanup handler's status write took effect. */
  predicate CleanupWritesStatus(s: State, e: Event, id: Id) {
    && e.Work? && Applied(e.call) && e.m < |s.queue| && s.queue[e.m].DeleteMsg?
    && s.queue[e.m].deleteEvent.avatarID == id && s.queue[e.m].deleteStage.Running?
    && s.queue[e.m].deleteStage.pc.MarkDeleted?
  }

  /** Nothing else writes a processing status. */
  lemma StatusWriters(cfg: Config, s: State, e: Event, id: Id)
    requires Enabled(cfg, s, e) && id in s.w.table
    ensures var t' := Apply(cfg, s, e).w.table;
            && id in t'
            && (ReportsFailure(s, e, id) ==> t'[id].processingStatus == ProcessingFailed)
            && (HandlerWritesStatus(s, e, id) ==> t'[id].processingStatus in {Processing, ProcessingFailed, Completed})
            && (CleanupWritesStatus(s, e, id) ==> t'[id].processingStatus == Deleted)
            && (!ReportsFailure(s, e, id) && !HandlerWritesStatus(s, e, id) && !CleanupWritesStatus(s, e, id) ==>
                  t'[id].processingStatus == s.w.table[id].processingStatus)
  {
    match e
    case Work(m, c) =>
      if s.queue[m].UploadMsg? {
        UploadWorkStatus(cfg, s.queue[m].uploadEvent, s.queue[m].uploadStage.pc, s.w, c, id);
      } else {
        DeleteWorkStatus(s.queue[m].deleteEvent, s.queue[m].deleteStage.pc, s.w, c, id);
      }
    case Report(m, c) => ReportStatus(cfg, s, m, c, id);
    case _ => OthersWriteNoStatus(cfg, s, e, id);
  }

  lemma ReportStatus(cfg: Config, s: State, m: nat, c: Call, id: Id)
    requires Enabled(cfg, s, Report(m, c)) && id in s.w.table
    ensures var t' := Apply(cfg, s, Report(m, c)).w.table;
            && id in t'
            && t'[id].processingStatus ==
               if ReportsFailure(s, Report(m, c), id) then ProcessingFailed else s.w.table[id].processingStatus
  {
  }

  lemma OthersWriteNoStatus(cfg: Config, s: State, e: Event, id: Id)
    requires Enabled(cfg, s, e) && id in s.w.table && !e.Work? && !e.Report?
    ensures var t' := Apply(cfg, s, e).w.table; id in t' && t'[id].processingStatus == s.w.table[id].processingStatus
  {
    if e.UploadStep? {
      UploadWritesNoStatus(cfg, s, e.id, e.call, id);
    }
  }

  lemma UploadWritesNoStatus(cfg: Config, s: State, x: Id, c: Call, id: Id)
    requires x in s.uploads && id in s.w.table
    ensures var w' := S.UploadEffect(NewRow(cfg, x, s.uploads[x]), s.uploads[x].data, s.uploads[x].pc, s.w, c);
            id in w'.table && w'.table[id].processingStatus == s.w.table[id].processingStatus
  {
  }

  lemma UploadWorkStatus(cfg: Config, ev: UploadEvent, pc: P.UploadPc, w: World, c: Call, id: Id)
    requires id in w.table
    ensures var w' := P.UploadEffect(cfg, ev, pc, w, c);
            && id in w'.table
            && w'.table[id].processingStatus ==
               if ev.avatarID != id || !Applied(c) then w.table[id].processingStatus
               else match pc
                    case MarkProcessing => Processing
                    case MarkFailed => ProcessingFailed
                    case SaveThumbnails(_) => Completed
                    case _ => w.table[id].processingStatus
  {
  }

  lemma DeleteWorkStatus(ev: DeleteEvent, pc: P.DeletePc, w: World, c: Call, id: Id)
    requires id in w.table
    ensures var w' := P.DeleteEffect(ev, pc, w, c);
            && id in w'.table
            && w'.table[id].processingStatus ==
               if ev.avatarID == id && Applied(c) && pc.MarkDeleted? then Deleted else w.table[id].processingStatus
  {
  }

  // ---------------------------------------------------------------------------------------
  // Runs that break the claims
  // ---------------------------------------------------------------------------------------

  /** One size, no retries, and an image library that copies, or that decodes nothing. */
  ghost function Tiny(decodes: bool): Config {
    Config([100], [], (d: Data, px: int) => if decodes then Some(d) else None, (d: Data) => Sniff("png", 1, 1))
  }

  const PICTURE: Data := [7]
  const ROW: Avatar :=
    Avatar("a", "u", "f", "png", 1, 1, 1, Original("a"), map[], Uploaded, Pending, 0, 0, None)
  const NEW_ROW: Avatar := ROW.(uploadStatus := Uploading)
  const UPLOAD_EVENT := UploadEvent("a", "u", Original("a"))
  const REQUESTS: map<Id, Upload> := map["a" := Upload("u", "f", PICTURE, S.Answered(ROW))]

  /** The one upload request makes its next call, without faults. */
  lemma UploadGoes(decodes: bool, s: State, pc: S.UploadPc) returns (s': State)
    requires Leads(Tiny(decodes), INITIAL, s) && s.uploads == map["a" := Upload("u", "f", PICTURE, pc)]
    requires !pc.Answered? && !pc.Refused?
    ensures Leads(Tiny(decodes), INITIAL, s')
    ensures var n := S.Record(Tiny(decodes), "a", "u", "f", PICTURE);
            s' == s.(w := S.UploadEffect(n, PICTURE, pc, s.w, FAULT_FREE),
                     uploads := map["a" := Upload("u", "f", PICTURE, S.UploadNext(n, pc, s.w, FAULT_FREE))],
                     queue := Enqueue(s.queue, S.UploadSent(pc, [], FAULT_FREE)))
  {
    s' := Go(Tiny(decodes), INITIAL, s, UploadStep("a", FAULT_FREE));
    assert s'.uploads == map["a" := s'.uploads["a"]];
  }

  /** The row of "a" is there and its original is about to be stored. */
  lemma CreatedRun(decodes: bool) returns (s: State)
    ensures Leads(Tiny(decodes), INITIAL, s)
    ensures s == State(World(map["a" := NEW_ROW], map[]),
                       map["a" := Upload("u", "f", PICTURE, S.PutOriginal(NEW_ROW))], [], [], [], {})
  {
    Stay(Tiny(decodes), INITIAL);
    s := Go(Tiny(decodes), INITIAL, INITIAL, StartUpload("a", "u", "f", PICTURE));
    s := UploadGoes(decodes, s, S.CreateRow);
    assert s.w.table == map["a" := NEW_ROW] && s.queue == [];
  }

  /** "a" is uploaded and its event is queued. */
  lemma UploadedRun(decodes: bool) returns (s: State)
    ensures Leads(Tiny(decodes), INITIAL, s)
    ensures s == State(World(map["a" := ROW], map[Original("a") := PICTURE]), REQUESTS, [], [],
                       [UploadMsg(UPLOAD_EVENT, Ready)], {})
  {
    s := CreatedRun(decodes);
    s := UploadGoes(decodes, s, S.PutOriginal(NEW_ROW));
    s := UploadGoes(decodes, s, S.Confirm(NEW_ROW));
    assert s.queue == [];
    s := UploadGoes(decodes, s, S.Announce(ROW));
    assert s.queue == [UploadMsg(UPLOAD_EVENT, Ready)];
    assert s.w.table == map["a" := ROW] && s.uploads == REQUESTS;
  }

  /** An idle worker takes the one queued message. */
  lemma FetchOnly(cfg: Config, s: State, worker: Worker) returns (s': State)
    requires Leads(cfg, INITIAL, s) && s.queue == [UploadMsg(UPLOAD_EVENT, Ready)] && worker !in s.cancelled
    ensures Leads(cfg, INITIAL, s') && s' == s.(queue := [UploadMsg(UPLOAD_EVENT, Running(worker, 0, P.ReadRow))])
  {
    s' := Fetch(cfg, INITIAL, s, 0, worker);
  }

  /** The handler of the one queued message makes its next call. */
  lemma OnlyGoes(cfg: Config, s: State, worker: Worker, pc: P.UploadPc, c: Call) returns (s': State)
    requires Leads(cfg, INITIAL, s) && s.queue == [UploadMsg(UPLOAD_EVENT, Running(worker, 0, pc))] && !P.Ended(pc)
    ensures Leads(cfg, INITIAL, s')
    ensures s' == s.(w := P.UploadEffect(cfg, UPLOAD_EVENT, pc, s.w, c),
                     queue := [UploadMsg(UPLOAD_EVENT, Running(worker, 0, P.UploadNext(cfg, UPLOAD_EVENT, pc, s.w, c)))])
  {
    s' := HandlerGoes(cfg, INITIAL, s, 0, c);
  }

  /** The handler succeeded, its ack is lost, and the connection drops. */
  lemma LoseAck(cfg: Config, s: State, worker: Worker, status: P.Observed) returns (s': State)
    requires Leads(cfg, INITIAL, s) && s.queue == [UploadMsg(UPLOAD_EVENT, Running(worker, 0, P.Returned(status)))]
    ensures Leads(cfg, INITIAL, s') && s' == s.(queue := [UploadMsg(UPLOAD_EVENT, Ready)])
  {
    s' := Go(cfg, INITIAL, s, Finish(0));
    assert s'.queue == [UploadMsg(UPLOAD_EVENT, Settling(worker, C.Ack, false))];
    s' := Go(cfg, INITIAL, s', SettleMsg(0, false));
    assert s'.queue == [UploadMsg(UPLOAD_EVENT, Stranded(worker))];
    s' := Recover(cfg, INITIAL, s', 0);
    assert s'.queue == [UploadMsg(UPLOAD_EVENT, Ready)];
  }

  const PROCESSING_ROW: Avatar := ROW.(processingStatus := Processing)

  /** A worker has taken the event and marked the row. */
  lemma MarkedRun(decodes: bool) returns (s: State)
    ensures Leads(Tiny(decodes), INITIAL, s)
    ensures s == State(World(map["a" := PROCESSING_ROW], map[Original("a") := PICTURE]),
                       REQUESTS, [], [], [UploadMsg(UPLOAD_EVENT, Running(1, 0, P.Download))], {})
  {
    s := UploadedRun(decodes);
    s := FetchOnly(Tiny(decodes), s, 1);
    s := OnlyGoes(Tiny(decodes), s, 1, P.ReadRow, FAULT_FREE);
    s := OnlyGoes(Tiny(decodes), s, 1, P.MarkProcessing, FAULT_FREE);
    assert s.w.table == map["a" := PROCESSING_ROW];
  }

  // ---------------------------------------------------------------------------------------
  // Completed, then failed
  // ---------------------------------------------------------------------------------------

  const STORING: P.UploadPc := P.StoreThumb(PICTURE, map[], 0, PICTURE)

  /** A worker has the original and is about to store the thumbnail. */
  lemma ProcessingRun() returns (s: State)
    ensures Leads(Tiny(true), INITIAL, s)
    ensures s == State(World(map["a" := PROCESSING_ROW], map[Original("a") := PICTURE]),
                       REQUESTS, [], [], [UploadMsg(UPLOAD_EVENT, Running(1, 0, STORING))], {})
  {
    s := MarkedRun(true);
    s := OnlyGoes(Tiny(true), s, 1, P.Download, FAULT_FREE);
  }

  const SAVING: P.UploadPc := P.SaveThumbnails(map[SizeName(100) := Thumbnail("a", 100)])
  const DONE_ROW: Avatar :=
    ROW.(thumbnails := map[SizeName(100) := Thumbnail("a", 100)], processingStatus := Completed)
  const DONE_WORLD := World(map["a" := DONE_ROW], map[Original("a") := PICTURE, Thumbnail("a", 100) := PICTURE])

  /** The thumbnails are ready, but the ack is lost and the event comes back. */
  lemma RedeliveryRun() returns (s: State)
    ensures Leads(Tiny(true), INITIAL, s)
    ensures s == State(DONE_WORLD, REQUESTS, [], [], [UploadMsg(UPLOAD_EVENT, Ready)], {})
  {
    s := ProcessingRun();
    s := OnlyGoes(Tiny(true), s, 1, STORING, FAULT_FREE);
    s := OnlyGoes(Tiny(true), s, 1, SAVING, FAULT_FREE);
    assert s.w == DONE_WORLD;
    s := LoseAck(Tiny(true), s, 1, P.ObservedOK);
  }

  /** A redelivery whose only read fails is buried and reported: a live avatar with all its
      thumbnails goes from completed to failed. */
  lemma CompletedCanBecomeFailed() returns (s: State, s': State, e: Event)
    ensures Reachable(Tiny(true), s) && Enabled(Tiny(true), s, e) && s' == Apply(Tiny(true), s, e)
    ensures Postgres.Live(s.w.table, "a") && s.w.table["a"].processingStatus == Completed
    ensures Postgres.Live(s'.w.table, "a") && s'.w.table["a"].processingStatus == ProcessingFailed
  {
    s := RedeliveryRun();
    s := FetchOnly(Tiny(true), s, 2);
    s := ExhaustRetries(Tiny(true), INITIAL, s, 0, UPLOAD_EVENT, 2, 0);
    e := Report(0, FAULT_FREE);
    s' := Go(Tiny(true), INITIAL, s, e);
  }

  // ---------------------------------------------------------------------------------------
  // Failed, then processing
  // ---------------------------------------------------------------------------------------

  /** The file does not decode: the handler returned, but its ack is lost and the event comes back. */
  lemma UndecodableRun() returns (s: State)
    ensures Leads(Tiny(false), INITIAL, s)
    ensures s == State(World(map["a" := ROW.(processingStatus := ProcessingFailed)], map[Original("a") := PICTURE]),
                       REQUESTS, [], [], [UploadMsg(UPLOAD_EVENT, Ready)], {})
  {
    s := MarkedRun(false);
    s := OnlyGoes(Tiny(false), s, 1, P.Download, FAULT_FREE);
    s := OnlyGoes(Tiny(false), s, 1, P.MarkFailed, FAULT_FREE);
    assert s.w.table == map["a" := ROW.(processingStatus := ProcessingFailed)];
    s := LoseAck(Tiny(false), s, 1, P.ObservedError);
  }

  /** A delivery that was handled successfully comes back and is not inert: a live avatar that was
      marked failed for good is processing again, and stays so when the next call fails. */
  lemma FailedCanBeReopened() returns (s: State, s': State)
    ensures Reachable(Tiny(false), s) && Postgres.Live(s.w.table, "a")
    ensures s.w.table["a"].processingStatus == ProcessingFailed && s.queue == [UploadMsg(UPLOAD_EVENT, Ready)]
    ensures Leads(Tiny(false), s, s') && Postgres.Live(s'.w.table, "a")
    ensures s'.w.table["a"].processingStatus == Processing
    ensures s'.queue == [UploadMsg(UPLOAD_EVENT, Running(2, 0, P.Errored))]
  {
    var cfg := Tiny(false);
    s := UndecodableRun();
    Stay(cfg, s);
    s' := Fetch(cfg, s, s, 0, 2);
    s' := HandlerGoes(cfg, s, s', 0, FAULT_FREE);
    s' := HandlerGoes(cfg, s, s', 0, FAULT_FREE);
    s' := HandlerGoes(cfg, s, s', 0, Call(Failure, 0));
  }

  // ---------------------------------------------------------------------------------------
  // Cleaned, then not
  // ---------------------------------------------------------------------------------------

  const TARGET := S.ByID("a", "u")
  const STORING_MSG := UploadMsg(UPLOAD_EVENT, Running(1, 0, STORING))
  const DELETE_EVENT := DeleteEvent("a", [Original("a")])
  const HIDDEN_ROW: Avatar := PROCESSING_ROW.(deletedAt := Some(0))
  const HIDING := Deletion(TARGET, S.Hide(PROCESSING_ROW, [Original("a")]))

  /** The owner's delete has read the row while the worker is at the thumbnail. */
  lemma DeletingRun() returns (s: State)
    ensures Leads(Tiny(true), INITIAL, s)
    ensures s == State(World(map["a" := PROCESSING_ROW], map[Original("a") := PICTURE]),
                       REQUESTS, [HIDING], [], [STORING_MSG], {})
  {
    s := ProcessingRun();
    s := Go(Tiny(true), INITIAL, s, StartDelete(TARGET));
    assert S.FindAdmits(TARGET, s.w, FAULT_FREE, None, []);
    assert S.CapturedKeys(s.w.table["a"], []) == [Original("a")];
    s := Go(Tiny(true), INITIAL, s, DeleteFind(0, FAULT_FREE, None, []));
    assert s.deletions == [HIDING];
  }

  /** The owner deletes "a" while the worker is at the thumbnail. */
  lemma DeletedWhileProcessingRun() returns (s: State)
    ensures Leads(Tiny(true), INITIAL, s)
    ensures s == State(World(map["a" := HIDDEN_ROW], map[Original("a") := PICTURE]), REQUESTS,
                       [Deletion(TARGET, S.Won("a"))], [], [STORING_MSG, DeleteMsg(DELETE_EVENT, Ready)], {})
  {
    s := DeletingRun();
    s := Go(Tiny(true), INITIAL, s, DeleteStep(0, FAULT_FREE));
    assert s.queue == [STORING_MSG];
    s := Go(Tiny(true), INITIAL, s, DeleteStep(0, FAULT_FREE));
    assert s.queue == [STORING_MSG, DeleteMsg(DELETE_EVENT, Ready)];
    assert s.w.table == map["a" := HIDDEN_ROW];
  }

  /** A second worker takes the delete event. */
  lemma CleaningRun() returns (s: State)
    ensures Leads(Tiny(true), INITIAL, s)
    ensures s.w == World(map["a" := HIDDEN_ROW], map[Original("a") := PICTURE])
    ensures s.queue == [STORING_MSG, DeleteMsg(DELETE_EVENT, Running(2, 0, P.RemoveKey(0)))]
  {
    s := DeletedWhileProcessingRun();
    s := Fetch(Tiny(true), INITIAL, s, 1, 2);
    assert s.queue == [STORING_MSG, DeleteMsg(DELETE_EVENT, Running(2, 0, P.RemoveKey(0)))];
  }

  /** The cleanup handler runs to success. */
  lemma CleanedRun() returns (s: State)
    ensures Leads(Tiny(true), INITIAL, s)
    ensures s.w == World(map["a" := DELETED_ROW], map[])
    ensures s.queue == [STORING_MSG, DeleteMsg(DELETE_EVENT, Running(2, 0, P.DeleteReturned))]
  {
    s := CleaningRun();
    s := CleanerGoes(Tiny(true), INITIAL, s, 1, FAULT_FREE);
    assert s.w.objects == map[];
    s := CleanerGoes(Tiny(true), INITIAL, s, 1, FAULT_FREE);
    assert s.w.table == map["a" := DELETED_ROW];
  }

  const DELETED_ROW: Avatar := HIDDEN_ROW.(processingStatus := Deleted)

  /** From there the worker that was at the thumbnail stores it. */
  lemma StoredAgain(s: State) returns (s': State)
    requires Leads(Tiny(true), INITIAL, s) && s.w == World(map["a" := DELETED_ROW], map[])
    requires s.queue == [STORING_MSG, DeleteMsg(DELETE_EVENT, Running(2, 0, P.DeleteReturned))]
    ensures Leads(Tiny(true), INITIAL, s')
    ensures Enabled(Tiny(true), s, Work(0, FAULT_FREE)) && s' == Apply(Tiny(true), s, Work(0, FAULT_FREE))
    ensures s'.w == World(map["a" := DELETED_ROW], map[Thumbnail("a", 100) := PICTURE])
    ensures |s'.queue| == 2 && s'.queue[0] == UploadMsg(UPLOAD_EVENT, Running(1, 0, SAVING))
  {
    s' := HandlerGoes(Tiny(true), INITIAL, s, 0, FAULT_FREE);
    assert s'.w.objects == map[Thumbnail("a", 100) := PICTURE];
  }

  /** HandleDelete has succeeded and nothing is left; then the worker that was at the thumbnail
      stores it after all, and its last write overwrites the status deleted. */
  lemma CleanupCanBeUndone() returns (s: State, s': State, s'': State)
    ensures Reachable(Tiny(true), s) && |s.queue| == 2 && s.queue[1].DeleteMsg? && Succeeded(s.queue[1])
    ensures Cleanup.IsDeleted(s, "a") && Cleanup.Gone(s.w, "a") && s.w.table["a"].processingStatus == Deleted
    ensures Enabled(Tiny(true), s, Work(0, FAULT_FREE)) && s' == Apply(Tiny(true), s, Work(0, FAULT_FREE))
    ensures Cleanup.IsDeleted(s', "a") && Thumbnail("a", 100) in s'.w.objects
    ensures Enabled(Tiny(true), s', Work(0, FAULT_FREE)) && s'' == Apply(Tiny(true), s', Work(0, FAULT_FREE))
    ensures Cleanup.IsDeleted(s'', "a") && s''.w.table["a"].processingStatus == Completed
  {
    s := CleanedRun();
    s' := StoredAgain(s);
    s'' := HandlerGoes(Tiny(true), INITIAL, s', 0, FAULT_FREE);
  }
}
