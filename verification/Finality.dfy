/** When a processing status is final: nothing that can still happen overwrites it. */
module Finality {
  import opened Avatars
  import opened Calls
  import opened Protocol
  import opened Futures
  import opened Invariant
  import Lifecycle
  import Postgres
  import Preservation
  import Regressions
  import S = Service

  /** The upload request will not publish an event any more. */
  predicate SaidItAll(pc: S.UploadPc) {
    pc.Answered? || pc.Refused? || pc.Compensate?
  }

  predicate CanReturn(msg: Message, id: Id) {
    msg.UploadMsg? && msg.uploadEvent.avatarID == id && Lifecycle.InFlight(msg.uploadStage)
  }

  /** No upload event of the avatar is in flight or yet to come. An operator can look it up: the
      request ended, and the event is settled. */
  ghost predicate Quiet(s: State, id: Id) {
    && id in s.uploads && SaidItAll(s.uploads[id].pc)
    && forall m | 0 <= m < |s.queue| :: !CanReturn(s.queue[m], id)
  }

  // ---------------------------------------------------------------------------------------
  // Quiet is for good
  // ---------------------------------------------------------------------------------------

  lemma SettledStays(cfg: Config, s: State, e: Event, m: nat, id: Id)
    requires Enabled(cfg, s, e) && m < |s.queue| && !CanReturn(s.queue[m], id)
    ensures m < |Apply(cfg, s, e).queue| && !CanReturn(Apply(cfg, s, e).queue[m], id)
  {
    Preservation.QueueGrows(cfg, s, e);
  }

  /** A request that said it all publishes nothing for its avatar, and stays so. */
  lemma NothingNew(cfg: Config, s: State, e: Event, id: Id)
    requires Inv(cfg, s) && Enabled(cfg, s, e) && id in s.uploads && SaidItAll(s.uploads[id].pc)
    ensures var q' := Apply(cfg, s, e).queue; forall m | |s.queue| <= m < |q'| :: !CanReturn(q'[m], id)
  {
    Preservation.QueueGrows(cfg, s, e);
    if e.UploadStep? {
      assert UploadOk(s.w, e.id, s.uploads[e.id]);
    }
  }

  lemma QuietStep(cfg: Config, s: State, e: Event, id: Id)
    requires Inv(cfg, s) && Enabled(cfg, s, e) && Quiet(s, id)
    ensures Quiet(Apply(cfg, s, e), id)
  {
    var s' := Apply(cfg, s, e);
    NothingNew(cfg, s, e, id);
    forall m | 0 <= m < |s'.queue|
      ensures !CanReturn(s'.queue[m], id)
    {
      if m < |s.queue| {
        SettledStays(cfg, s, e, m, id);
      }
    }
  }

  /** In a quiet state only the cleanup writes the status. */
  lemma QuietKeepsStatus(cfg: Config, s: State, e: Event, id: Id)
    requires Inv(cfg, s) && Enabled(cfg, s, e) && Quiet(s, id) && id in s.w.table
    ensures var t' := Apply(cfg, s, e).w.table;
            && id in t'
            && (t'[id].processingStatus != s.w.table[id].processingStatus ==>
                  s.w.table[id].deletedAt.Some? && t'[id].processingStatus == Deleted)
  {
    Regressions.StatusWriters(cfg, s, e, id);
    if e.Work? || e.Report? {
      QuietWriters(cfg, s, e, id);
    }
  }

  lemma QuietWriters(cfg: Config, s: State, e: Event, id: Id)
    requires Inv(cfg, s) && Enabled(cfg, s, e) && (e.Work? || e.Report?) && Quiet(s, id)
    ensures !Regressions.ReportsFailure(s, e, id) && !Regressions.HandlerWritesStatus(s, e, id)
    ensures Regressions.CleanupWritesStatus(s, e, id) ==> id in s.w.table && s.w.table[id].deletedAt.Some?
  {
    assert !CanReturn(s.queue[e.m], id) && MsgOk(cfg, s.w, s.uploads, s.queue[e.m]);
  }

  lemma {:induction false} QuietRun(cfg: Config, s: State, es: seq<Event>, s': State, id: Id)
    requires Inv(cfg, s) && Quiet(s, id) && id in s.w.table && Run(cfg, s, es, s')
    ensures id in s'.w.table
    ensures s'.w.table[id].processingStatus != s.w.table[id].processingStatus ==>
              s'.w.table[id].deletedAt.Some? && s'.w.table[id].processingStatus == Deleted
    decreases es
  {
    if es != [] {
      var next := Apply(cfg, s, es[0]);
      QuietKeepsStatus(cfg, s, es[0], id);
      QuietStep(cfg, s, es[0], id);
      Preservation.InvStep(cfg, s, es[0]);
      Lifecycle.StepEvolves(cfg, s, es[0]);
      QuietRun(cfg, next, es[1..], s', id);
      if next.w.table[id].processingStatus != s.w.table[id].processingStatus {
        Lifecycle.RunEvolves(cfg, next, es[1..], s');
      }
    }
  }

  // ---------------------------------------------------------------------------------------
  // What is not quiet can be reported
  // ---------------------------------------------------------------------------------------

  /** The row of `id` shows what it showed, and is live if it was. */
  predicate SameStanding(t: Table, t': Table, id: Id) {
    && id in t && id in t' && t'[id].processingStatus == t[id].processingStatus
    && t'[id].deletedAt == t[id].deletedAt
  }

  /** How far the upload request is from its publish. */
  function CallsLeft(pc: S.UploadPc): nat {
    match pc
    case PutOriginal(_) => 2
    case Confirm(_) => 1
    case _ => 0
  }

  /** One call without a fault brings an upload request nearer to its publish. */
  lemma UploadAdvances(cfg: Config, s: State, id: Id)
    requires Inv(cfg, s) && id in s.uploads && id in s.w.table
    requires s.uploads[id].pc.PutOriginal? || s.uploads[id].pc.Confirm?
    ensures var s' := Apply(cfg, s, UploadStep(id, FAULT_FREE));
            && SameStanding(s.w.table, s'.w.table, id) && id in s'.uploads && !SaidItAll(s'.uploads[id].pc)
            && CallsLeft(s'.uploads[id].pc) < CallsLeft(s.uploads[id].pc)
  {
    assert UploadOk(s.w, id, s.uploads[id]);
  }

  /** An upload request on its way finishes without faults: its event is queued. */
  lemma {:induction false} UploadFinishes(cfg: Config, s0: State, s: State, id: Id) returns (s': State, m: nat)
    requires Leads(cfg, s0, s) && Inv(cfg, s) && id in s.uploads && id in s.w.table
    requires !SaidItAll(s.uploads[id].pc)
    ensures Leads(cfg, s0, s') && SameStanding(s.w.table, s'.w.table, id)
    ensures m < |s'.queue| && CanReturn(s'.queue[m], id)
    decreases CallsLeft(s.uploads[id].pc)
  {
    var e, pc := UploadStep(id, FAULT_FREE), s.uploads[id].pc;
    assert UploadOk(s.w, id, s.uploads[id]);
    s' := Go(cfg, s0, s, e);
    if pc.Announce? {
      m := |s.queue|;
      assert s'.queue[m] == UploadMsg(S.UploadAnnouncement(pc.a), Ready);
    } else {
      UploadAdvances(cfg, s, id);
      Preservation.InvStep(cfg, s, e);
      s', m := UploadFinishes(cfg, s0, s', id);
    }
  }

  /** As long as an upload event can still be delivered, some run reports it. */
  lemma NotQuietFails(cfg: Config, s: State, id: Id) returns (s': State)
    requires Inv(cfg, s) && id in s.w.table && !Quiet(s, id)
    ensures Leads(cfg, s, s') && id in s'.w.table && s'.w.table[id].processingStatus == ProcessingFailed
    ensures s'.w.table[id].deletedAt == s.w.table[id].deletedAt
  {
    assert id in s.uploads;
    Stay(cfg, s);
    if !SaidItAll(s.uploads[id].pc) {
      var ready, m := UploadFinishes(cfg, s, s, id);
      s' := ReportHappens(cfg, s, ready, m);
    } else {
      var m :| 0 <= m < |s.queue| && CanReturn(s.queue[m], id);
      s' := ReportHappens(cfg, s, s, m);
    }
  }

  // ---------------------------------------------------------------------------------------
  // The exact conditions
  // ---------------------------------------------------------------------------------------

  ghost predicate DeletedForGood(cfg: Config, s: State, id: Id) {
    forall es, s' | Run(cfg, s, es, s') :: id in s'.w.table && s'.w.table[id].processingStatus == Deleted
  }

  ghost predicate CompletedForGood(cfg: Config, s: State, id: Id) {
    forall es, s' | Run(cfg, s, es, s') ::
      id in s'.w.table && (Postgres.Live(s'.w.table, id) ==> s'.w.table[id].processingStatus == Completed)
  }

  /** Status deleted is final exactly when no upload event of the avatar can be delivered again. */
  lemma DeletedIsFinalIff(cfg: Config, s: State, id: Id)
    requires Reachable(cfg, s) && id in s.w.table && s.w.table[id].processingStatus == Deleted
    ensures DeletedForGood(cfg, s, id) <==> Quiet(s, id)
  {
    Preservation.InvReachable(cfg, s);
    if Quiet(s, id) {
      forall es, s' | Run(cfg, s, es, s')
        ensures id in s'.w.table && s'.w.table[id].processingStatus == Deleted
      {
        QuietRun(cfg, s, es, s', id);
      }
    } else {
      var s' := NotQuietFails(cfg, s, id);
      var es :| Run(cfg, s, es, s');
    }
  }

  /** A live completed avatar stays completed, for as long as it is live, exactly then, too. */
  lemma CompletedIsFinalIff(cfg: Config, s: State, id: Id)
    requires Reachable(cfg, s) && Postgres.Live(s.w.table, id) && s.w.table[id].processingStatus == Completed
    ensures CompletedForGood(cfg, s, id) <==> Quiet(s, id)
  {
    Preservation.InvReachable(cfg, s);
    if Quiet(s, id) {
      forall es, s' | Run(cfg, s, es, s')
        ensures id in s'.w.table && (Postgres.Live(s'.w.table, id) ==> s'.w.table[id].processingStatus == Completed)
      {
        QuietRun(cfg, s, es, s', id);
      }
    } else {
      var s' := NotQuietFails(cfg, s, id);
      var es :| Run(cfg, s, es, s');
    }
  }
}
