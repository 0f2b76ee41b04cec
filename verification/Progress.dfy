/** Nothing is beyond help: from every reachable state some run concludes an avatar whose upload event
    is in flight. */
module Progress {
  import opened Wrappers
  import opened KeyLayout
  import opened Avatars
  import opened Calls
  import opened Protocol
  import opened Futures
  import opened Invariant
  import opened Convergence
  import Lifecycle
  import Orphans
  import Postgres
  import Preservation
  import C = Consumer
  import P = Processor
  import S = Service

  /** A handler makes these calls, as far as it goes. */
  lemma {:induction false} HandlerRuns(cfg: Config, s0: State, s: State, m: nat, ev: UploadEvent, worker: Worker,
                                       pc: P.UploadPc, calls: seq<Call>)
    returns (s': State)
    requires Leads(cfg, s0, s) && m < |s.queue| && s.queue[m] == UploadMsg(ev, Running(worker, 0, pc))
    ensures Leads(cfg, s0, s')
    ensures var (pc', w') := P.UploadRun(cfg, ev, pc, s.w, calls);
            s' == s.(w := w', queue := s.queue[m := UploadMsg(ev, Running(worker, 0, pc'))])
    decreases calls
  {
    if calls == [] {
      s' := s;
    } else if P.Ended(pc) {
      s' := HandlerRuns(cfg, s0, s, m, ev, worker, pc, calls[1..]);
    } else {
      var next := HandlerGoes(cfg, s0, s, m, calls[0]);
      s' := HandlerRuns(cfg, s0, next, m, ev, worker, P.UploadNext(cfg, ev, pc, s.w, calls[0]), calls[1..]);
      assert s'.queue == s.queue[m := s'.queue[m]];
    }
  }

  /** The handler returned: its ack takes. */
  lemma AckTakes(cfg: Config, s0: State, s: State, m: nat, ev: UploadEvent, worker: Worker, status: P.Observed)
    returns (s': State)
    requires Leads(cfg, s0, s) && m < |s.queue| && s.queue[m] == UploadMsg(ev, Running(worker, 0, P.Returned(status)))
    ensures Leads(cfg, s0, s') && s' == s.(queue := s.queue[m := UploadMsg(ev, Acked)])
  {
    s' := Go(cfg, s0, s, Finish(m));
    assert s'.queue[m] == UploadMsg(ev, Settling(worker, C.Ack, false));
    s' := Go(cfg, s0, s', SettleMsg(m, true));
    assert s'.queue == s.queue[m := UploadMsg(ev, Acked)];
  }

  /** The status an avatar is due: what its original decodes to. */
  function Due(cfg: Config, data: Data): ProcessingStatus {
    if FirstBad(cfg, data, 0) == |cfg.sizes| then Completed else ProcessingFailed
  }

  /** A completed avatar decodes at every size. */
  lemma CompletedDecodes(cfg: Config, s: State, id: Id)
    requires Inv(cfg, s) && id in s.w.table && s.w.table[id].processingStatus == Completed
    ensures id in s.uploads && Due(cfg, s.uploads[id].data) == Completed
  {
    assert RowOk(cfg, id, s.w.table[id], s.uploads[id]) && RowBacked(cfg, s.w, id, s.uploads[id]);
  }

  /** A live row whose original is there comes to the status it is due. */
  lemma TargetIsDue(cfg: Config, s: State, m: nat)
    requires Inv(cfg, s) && m < |s.queue| && s.queue[m].UploadMsg?
    requires Postgres.Live(s.w.table, s.queue[m].uploadEvent.avatarID)
    ensures var ev := s.queue[m].uploadEvent; var id := ev.avatarID;
            && ev.s3Key.Original? && ev.s3Key in s.w.objects && id in s.uploads
            && var t := Target(cfg, ev, s.w).table;
               Postgres.Live(t, id) && t[id].processingStatus == Due(cfg, s.uploads[id].data)
  {
    var ev, id := s.queue[m].uploadEvent, s.queue[m].uploadEvent.avatarID;
    assert MsgOk(cfg, s.w, s.uploads, s.queue[m]) && RowOk(cfg, id, s.w.table[id], s.uploads[id]);
    Orphans.OriginalIsThere(cfg, s, m, id);
    assert ObjectOk(cfg, Original(id), s.w.objects[Original(id)], s.uploads[id]);
    if s.w.table[id].processingStatus == Completed {
      CompletedDecodes(cfg, s, id);
    }
  }

  /** A live avatar whose upload event is in flight, wherever it got stuck, can still be concluded: some
      run acks the event and leaves the avatar completed, or failed if its original does not decode. */
  lemma EventCanConclude(cfg: Config, s: State, m: nat) returns (s': State)
    requires Reachable(cfg, s) && m < |s.queue| && s.queue[m].UploadMsg? && Unsettled(s.queue[m])
    requires Postgres.Live(s.w.table, s.queue[m].uploadEvent.avatarID)
    ensures var ev := s.queue[m].uploadEvent; var id := ev.avatarID;
            && Leads(cfg, s, s') && m < |s'.queue| && s'.queue[m] == UploadMsg(ev, Acked)
            && id in s.uploads && Postgres.Live(s'.w.table, id)
            && s'.w.table[id].processingStatus == Due(cfg, s.uploads[id].data)
  {
    var ev, id := s.queue[m].uploadEvent, s.queue[m].uploadEvent.avatarID;
    Preservation.InvReachable(cfg, s);
    TargetIsDue(cfg, s, m);
    Stay(cfg, s);
    s' := Recover(cfg, s, s, m);
    var worker := IdleExists(s');
    s' := Fetch(cfg, s, s', m, worker);
    var calls := FaultFreeReturns(cfg, ev, s.w, P.ReadRow);
    AttemptsReachTarget(cfg, ev, s.w, [], calls);
    s' := HandlerRuns(cfg, s, s', m, ev, worker, P.ReadRow, calls);
    assert SameRow(s'.w.table[id], Target(cfg, ev, s.w).table[id]);
    s' := AckTakes(cfg, s, s', m, ev, worker, s'.queue[m].uploadStage.pc.status);
  }

  // ---------------------------------------------------------------------------------------
  // Requests are served, and shutdowns lose nothing
  // ---------------------------------------------------------------------------------------

  /** In every reachable state a client can ask for a live uploaded avatar's file and be served: some
      run ends with a new reading that holds exactly what was uploaded. */
  lemma FileCanBeRead(cfg: Config, s: State, id: Id) returns (s': State)
    requires Reachable(cfg, s) && Postgres.Live(s.w.table, id) && s.w.table[id].uploadStatus == Uploaded
    ensures Leads(cfg, s, s') && s'.w == s.w && |s'.readings| == |s.readings| + 1
    ensures id in s.uploads
    ensures var r, data := s'.readings[|s.readings|], s.uploads[id].data;
            r.query == S.FileOf(id) && r.pc.Served? && r.pc.file == S.File(data, cfg.sniff(data).mimeType, |data|)
  {
    var r, q := |s.readings|, S.FileOf(id);
    Lifecycle.UploadedIsStored(cfg, s, id);
    Lifecycle.MetadataIsFaithful(cfg, s, id);
    Stay(cfg, s);
    s' := Go(cfg, s, s, StartRead(q));
    assert s'.readings[r] == Reading(q, S.Lookup) && S.LookupAdmits(q, s'.w, None);
    s' := Go(cfg, s, s', ReadLookup(r, FAULT_FREE, None));
    assert s'.readings[r] == Reading(q, S.Open(s.w.table[id], Original(id)));
    s' := Go(cfg, s, s', ReadOpen(r, FAULT_FREE));
  }

  /** A worker that is shut down while its handler fails puts the message back instead of burying it. */
  lemma ShutdownRequeues(cfg: Config, s: State, m: nat) returns (s': State)
    requires m < |s.queue| && Failed(s.queue[m])
    ensures Leads(cfg, s, s') && s'.w == s.w && |s'.queue| == |s.queue| && s'.queue[m] == AsReady(s.queue[m])
  {
    Stay(cfg, s);
    s' := Go(cfg, s, s, Cancel(WorkerOf(s.queue[m])));
    s' := Go(cfg, s, s', Finish(m));
    s' := Go(cfg, s, s', SettleMsg(m, true));
  }
}
