/** When the cleanup can miss an object or have one come back, whenever the hide was not safe, and
    when an object is left for good. */
module Orphans {
  import opened KeyLayout
  import opened Avatars
  import opened Calls
  import opened Protocol
  import opened Futures
  import opened Invariant
  import opened Cleanup
  import Postgres
  import Lifecycle
  import Preservation
  import S = Service

  // ---------------------------------------------------------------------------------------
  // The cleanup runs
  // ---------------------------------------------------------------------------------------

  /** The winner of a delete publishes, a new worker takes the event, and its handler succeeds. What
      the event does not name stays. */
  lemma CleanupRuns(cfg: Config, s0: State, s: State, d: nat) returns (s': State)
    requires Leads(cfg, s0, s) && d < |s.deletions| && s.deletions[d].pc.AnnounceDelete?
    ensures Leads(cfg, s0, s') && s'.uploads == s.uploads
    ensures CleanupSucceeded(s', s.deletions[d].pc.id)
    ensures |s.queue| <= |s'.queue| && forall m | 0 <= m < |s.queue| :: s'.queue[m] == s.queue[m]
    ensures forall k | k in s.w.objects && k !in s.deletions[d].pc.keys :: k in s'.w.objects
  {
    var id, keys, m := s.deletions[d].pc.id, s.deletions[d].pc.keys, |s.queue|;
    var ev := DeleteEvent(id, keys);
    s' := Go(cfg, s0, s, DeleteStep(d, FAULT_FREE));
    assert s'.queue == s.queue + [DeleteMsg(ev, Ready)];
    var worker := IdleExists(s');
    s' := Fetch(cfg, s0, s', m, worker);
    s' := CleanerFinishes(cfg, s0, s', m, ev, worker, 0);
    assert s'.queue[m].DeleteMsg? && Succeeded(s'.queue[m]);
  }

  // ---------------------------------------------------------------------------------------
  // Who is not stopped
  // ---------------------------------------------------------------------------------------

  /** How far a handler that can store is from its store call. */
  function CallsToStore(msg: Message): nat {
    if !msg.UploadMsg? || !msg.uploadStage.Running? then 0
    else
      match msg.uploadStage.pc
      case MarkProcessing => 2
      case Download => 1
      case _ => 0
  }

  /** One call without a fault brings it nearer, while all objects stay. */
  lemma NearerStore(cfg: Config, s: State, m: nat, id: Id)
    requires Inv(cfg, s) && m < |s.queue| && id in s.uploads
    requires CanStore(cfg, s.queue[m], id, s.uploads[id].data) && Original(id) in s.w.objects
    requires !s.queue[m].uploadStage.pc.StoreThumb?
    ensures Enabled(cfg, s, Work(m, FAULT_FREE))
    ensures var s' := Apply(cfg, s, Work(m, FAULT_FREE));
            && CanStore(cfg, s'.queue[m], id, s.uploads[id].data) && CallsToStore(s'.queue[m]) < CallsToStore(s.queue[m])
            && s'.w.objects == s.w.objects
  {
    assert MsgOk(cfg, s.w, s.uploads, s.queue[m]);
    assert ObjectOk(cfg, Original(id), s.w.objects[Original(id)], s.uploads[id]);
  }

  /** A handler that can store gets to its store call, while all objects stay. */
  lemma {:induction false} HandlerReachesStore(cfg: Config, s0: State, s: State, m: nat, id: Id) returns (s': State)
    requires Leads(cfg, s0, s) && Inv(cfg, s) && m < |s.queue| && id in s.uploads
    requires CanStore(cfg, s.queue[m], id, s.uploads[id].data) && Original(id) in s.w.objects
    ensures Leads(cfg, s0, s') && Inv(cfg, s') && s'.w.objects == s.w.objects
    ensures s'.uploads == s.uploads && s'.deletions == s.deletions && |s'.queue| == |s.queue|
    ensures AboutToStore(s'.queue[m], id)
    decreases CallsToStore(s.queue[m])
  {
    s' := s;
    if !s.queue[m].uploadStage.pc.StoreThumb? {
      NearerStore(cfg, s, m, id);
      s' := HandlerGoes(cfg, s0, s, m, FAULT_FREE);
      Preservation.InvStep(cfg, s, Work(m, FAULT_FREE));
      s' := HandlerReachesStore(cfg, s0, s', m, id);
    }
  }

  lemma NotCleanedForGood(cfg: Config, s: State, s1: State, s2: State, id: Id)
    requires Leads(cfg, s, s1) && CleanupSucceeded(s1, id) && Leads(cfg, s1, s2) && !Gone(s2.w, id)
    ensures !CleanedForGood(cfg, s, id)
  {
    var es1 :| Run(cfg, s, es1, s1);
    var es2 :| Run(cfg, s1, es2, s2);
  }

  /** The captured keys miss an object: it outlives the cleanup. */
  lemma MissedStays(cfg: Config, s: State, d: nat, k: Key)
    requires d < |s.deletions| && s.deletions[d].pc.AnnounceDelete?
    requires k in s.w.objects && k.id == s.deletions[d].pc.id && k !in s.deletions[d].pc.keys
    ensures !CleanedForGood(cfg, s, k.id)
  {
    Stay(cfg, s);
    var s1 := CleanupRuns(cfg, s, s, d);
    Stay(cfg, s1);
    NotCleanedForGood(cfg, s, s1, s1, k.id);
  }

  /** The upload is about to store its original: it does so after the cleanup. */
  lemma UploadStoresLater(cfg: Config, s: State, d: nat, id: Id)
    requires Inv(cfg, s) && d < |s.deletions| && s.deletions[d].pc.AnnounceDelete? && s.deletions[d].pc.id == id
    requires id in s.uploads && s.uploads[id].pc.PutOriginal?
    ensures !CleanedForGood(cfg, s, id)
  {
    assert UploadOk(s.w, id, s.uploads[id]) && RowOk(cfg, id, s.w.table[id], s.uploads[id]);
    Stay(cfg, s);
    var s1 := CleanupRuns(cfg, s, s, d);
    Stay(cfg, s1);
    var s2 := Go(cfg, s1, s1, UploadStep(id, FAULT_FREE));
    assert Original(id) in s2.w.objects;
    NotCleanedForGood(cfg, s, s1, s2, id);
  }

  /** A handler can store: it is stopped right before, and does so after the cleanup. */
  lemma HandlerStoresLater(cfg: Config, s: State, d: nat, m: nat, id: Id)
    requires Inv(cfg, s) && d < |s.deletions| && s.deletions[d].pc.AnnounceDelete? && s.deletions[d].pc.id == id
    requires m < |s.queue| && id in s.uploads && CanStore(cfg, s.queue[m], id, s.uploads[id].data)
    requires Original(id) in s.w.objects
    ensures !CleanedForGood(cfg, s, id)
  {
    Stay(cfg, s);
    var ready := HandlerReachesStore(cfg, s, s, m, id);
    assert MsgOk(cfg, ready.w, ready.uploads, ready.queue[m]);
    var s1 := CleanupRuns(cfg, s, ready, d);
    assert s1.queue[m] == ready.queue[m];
    Stay(cfg, s1);
    var s2 := HandlerGoes(cfg, s1, s1, m, FAULT_FREE);
    assert Thumbnail(id, cfg.sizes[ready.queue[m].uploadStage.pc.i]) in s2.w.objects;
    NotCleanedForGood(cfg, s, s1, s2, id);
  }

  // ---------------------------------------------------------------------------------------
  // The exact condition
  // ---------------------------------------------------------------------------------------

  /** When request d hides a live row, its cleanup is complete and never undone exactly when the hide
      was safe. */
  lemma CleanupIsCompleteIff(cfg: Config, s: State, d: nat, c: Call)
    requires Reachable(cfg, s) && d < |s.deletions| && s.deletions[d].pc.Hide? && c.outcome.Success?
    requires Postgres.Live(s.w.table, s.deletions[d].pc.a.id)
    ensures CleanedForGood(cfg, Apply(cfg, s, DeleteStep(d, c)), s.deletions[d].pc.a.id) <==> SafeHide(cfg, s, d)
  {
    if SafeHide(cfg, s, d) {
      CleanupIsComplete(cfg, s, d, c);
    } else {
      Preservation.InvReachable(cfg, s);
      UnsafeHide(cfg, s, d, c);
    }
  }

  lemma UnsafeHide(cfg: Config, s: State, d: nat, c: Call)
    requires Inv(cfg, s) && d < |s.deletions| && s.deletions[d].pc.Hide? && c.outcome.Success?
    requires Postgres.Live(s.w.table, s.deletions[d].pc.a.id) && !SafeHide(cfg, s, d)
    ensures !CleanedForGood(cfg, Apply(cfg, s, DeleteStep(d, c)), s.deletions[d].pc.a.id)
  {
    var id, keys, next := s.deletions[d].pc.a.id, s.deletions[d].pc.keys, Apply(cfg, s, DeleteStep(d, c));
    assert id in s.uploads;
    Preservation.InvStep(cfg, s, DeleteStep(d, c));
    assert next.uploads == s.uploads && next.queue == s.queue && next.w.objects == s.w.objects;
    assert next.deletions[d].pc == S.AnnounceDelete(id, keys);
    if s.uploads[id].pc.PutOriginal? {
      UploadStoresLater(cfg, next, d, id);
    } else if !AllAmong(s.w, id, keys) {
      var k :| k in s.w.objects && k.id == id && k !in keys;
      MissedStays(cfg, next, d, k);
    } else {
      var m :| 0 <= m < |s.queue| && CanStore(cfg, s.queue[m], id, s.uploads[id].data);
      OriginalIsThere(cfg, s, m, id);
      HandlerStoresLater(cfg, next, d, m, id);
    }
  }

  /** An upload event of a live row finds its original. */
  lemma OriginalIsThere(cfg: Config, s: State, m: nat, id: Id)
    requires Inv(cfg, s) && Postgres.Live(s.w.table, id) && m < |s.queue|
    requires s.queue[m].UploadMsg? && s.queue[m].uploadEvent.avatarID == id
    ensures Original(id) in s.w.objects
  {
    assert MsgOk(cfg, s.w, s.uploads, s.queue[m]) && UploadOk(s.w, id, s.uploads[id]);
    assert RowBacked(cfg, s.w, id, s.uploads[id]);
  }

  // ---------------------------------------------------------------------------------------
  // Objects nobody will remove
  // ---------------------------------------------------------------------------------------

  /** A delete event that names the object can still be delivered. */
  predicate CanRemove(msg: Message, k: Key) {
    msg.DeleteMsg? && k in msg.deleteEvent.s3Keys && Unsettled(msg)
  }

  /** The winner of a delete is about to publish an event that names the object. */
  predicate WillName(d: Deletion, k: Key) {
    d.pc.AnnounceDelete? && k in d.pc.keys
  }

  ghost predicate Forgotten(s: State, k: Key) {
    && (forall d | 0 <= d < |s.deletions| :: !WillName(s.deletions[d], k))
    && (forall m | 0 <= m < |s.queue| :: !CanRemove(s.queue[m], k))
  }

  /** The object is stored in every future. */
  ghost predicate Leaks(cfg: Config, s: State, k: Key) {
    forall es, s' | Run(cfg, s, es, s') :: k in s'.w.objects
  }

  lemma ForgottenDeletions(cfg: Config, s: State, e: Event, k: Key)
    requires Inv(cfg, s) && Enabled(cfg, s, e) && IsDeleted(s, k.id) && Forgotten(s, k)
    ensures var s' := Apply(cfg, s, e); forall d | 0 <= d < |s'.deletions| :: !WillName(s'.deletions[d], k)
  {
    var s' := Apply(cfg, s, e);
    Preservation.InvStep(cfg, s, e);
    forall d | 0 <= d < |s'.deletions| && s'.deletions[d].pc.AnnounceDelete?
      ensures !WillName(s'.deletions[d], k)
    {
      AnnouncersMove(cfg, s, e, d);
      assert DeletionOk(cfg, s'.w, s'.deletions[d]) && !WillName(s.deletions[d], k);
    }
  }

  lemma ForgottenEvent(cfg: Config, s: State, e: Event, m: nat, k: Key)
    requires Enabled(cfg, s, e) && m < |s.queue| && !CanRemove(s.queue[m], k)
    ensures m < |Apply(cfg, s, e).queue| && !CanRemove(Apply(cfg, s, e).queue[m], k)
  {
    Preservation.QueueGrows(cfg, s, e);
  }

  lemma ForgottenQueue(cfg: Config, s: State, e: Event, k: Key)
    requires Inv(cfg, s) && Enabled(cfg, s, e) && Forgotten(s, k)
    ensures var s' := Apply(cfg, s, e); forall m | 0 <= m < |s'.queue| :: !CanRemove(s'.queue[m], k)
  {
    var s' := Apply(cfg, s, e);
    forall m | 0 <= m < |s'.queue|
      ensures !CanRemove(s'.queue[m], k)
    {
      if m < |s.queue| {
        ForgottenEvent(cfg, s, e, m, k);
      } else if s'.queue[m].DeleteMsg? {
        NewEventsAnnounced(cfg, s, e, m);
        assert !WillName(s.deletions[e.d], k);
      }
    }
  }

  /** Only a cleanup handler removes an object, one its event names. */
  lemma RemovedByItsEvent(cfg: Config, s: State, m: nat, c: Call, k: Key)
    requires Enabled(cfg, s, Work(m, c)) && k in s.w.objects && k !in Apply(cfg, s, Work(m, c)).w.objects
    ensures CanRemove(s.queue[m], k)
  {
  }

  lemma OthersRemoveNothing(cfg: Config, s: State, e: Event, k: Key)
    requires Enabled(cfg, s, e) && !e.Work? && k in s.w.objects
    ensures k in Apply(cfg, s, e).w.objects
  {
  }

  lemma ForgottenStays(cfg: Config, s: State, e: Event, k: Key)
    requires Enabled(cfg, s, e) && Forgotten(s, k) && k in s.w.objects
    ensures k in Apply(cfg, s, e).w.objects
  {
    if e.Work? {
      if k !in Apply(cfg, s, Work(e.m, e.call)).w.objects {
        RemovedByItsEvent(cfg, s, e.m, e.call, k);
      }
    } else {
      OthersRemoveNothing(cfg, s, e, k);
    }
  }

  lemma {:induction false} ForgottenRun(cfg: Config, s: State, es: seq<Event>, s': State, k: Key)
    requires Inv(cfg, s) && Run(cfg, s, es, s') && IsDeleted(s, k.id) && Forgotten(s, k) && k in s.w.objects
    ensures k in s'.w.objects
    decreases es
  {
    if es != [] {
      var next := Apply(cfg, s, es[0]);
      ForgottenDeletions(cfg, s, es[0], k);
      ForgottenQueue(cfg, s, es[0], k);
      ForgottenStays(cfg, s, es[0], k);
      Lifecycle.StepEvolves(cfg, s, es[0]);
      Preservation.InvStep(cfg, s, es[0]);
      ForgottenRun(cfg, next, es[1..], s', k);
    }
  }

  /** A delete event that is not settled can be delivered again and remove what it names. */
  lemma EventRemoves(cfg: Config, s0: State, s: State, m: nat, k: Key) returns (s': State)
    requires Leads(cfg, s0, s) && m < |s.queue| && CanRemove(s.queue[m], k)
    ensures Leads(cfg, s0, s') && k !in s'.w.objects
  {
    var ev := s.queue[m].deleteEvent;
    s' := Recover(cfg, s0, s, m);
    var worker := IdleExists(s');
    s' := Fetch(cfg, s0, s', m, worker);
    assert ev.s3Keys[0..] == ev.s3Keys;
    s' := CleanerFinishes(cfg, s0, s', m, ev, worker, 0);
  }

  /** A stored object of a deleted avatar leaks, in every future, exactly when no delete event that
      names it is in flight or about to be published: the answer to the hide was lost, the publish
      failed, the event was buried or acked, or its keys miss the object. */
  lemma LeaksIff(cfg: Config, s: State, k: Key)
    requires Reachable(cfg, s) && IsDeleted(s, k.id) && k in s.w.objects
    ensures Leaks(cfg, s, k) <==> Forgotten(s, k)
  {
    Preservation.InvReachable(cfg, s);
    if Forgotten(s, k) {
      forall es, s' | Run(cfg, s, es, s')
        ensures k in s'.w.objects
      {
        ForgottenRun(cfg, s, es, s', k);
      }
    } else {
      var s' := NotForgottenRemoved(cfg, s, k);
      var es :| Run(cfg, s, es, s');
    }
  }

  lemma NotForgottenRemoved(cfg: Config, s: State, k: Key) returns (s': State)
    requires !Forgotten(s, k)
    ensures Leads(cfg, s, s') && k !in s'.w.objects
  {
    Stay(cfg, s);
    if m :| 0 <= m < |s.queue| && CanRemove(s.queue[m], k) {
      s' := EventRemoves(cfg, s, s, m, k);
    } else {
      var d :| 0 <= d < |s.deletions| && WillName(s.deletions[d], k);
      var next := Go(cfg, s, s, DeleteStep(d, FAULT_FREE));
      assert next.queue == s.queue + [DeleteMsg(DeleteEvent(s.deletions[d].pc.id, s.deletions[d].pc.keys), Ready)];
      s' := EventRemoves(cfg, s, next, |s.queue|, k);
    }
  }
}
