/** When deleting an avatar removes all its objects for good, and exactly when it does not. */
module Cleanup {
  import opened KeyLayout
  import opened Avatars
  import opened Calls
  import opened Protocol
  import opened Invariant
  import Preservation
  import Lifecycle
  import Postgres
  import P = Processor

  /** No object of the avatar is left. */
  ghost predicate Gone(w: World, id: Id) {
    forall k | k in w.objects :: k.id != id
  }

  predicate IsDeleted(s: State, id: Id) {
    id in s.w.table && s.w.table[id].deletedAt.Some?
  }

  /** The next call of a handler or of the upload request may store an object of the avatar. */
  ghost predicate MayStillWrite(s: State, id: Id) {
    || (id in s.uploads && s.uploads[id].pc.PutOriginal?)
    || exists m :: 0 <= m < |s.queue| && AboutToStore(s.queue[m], id)
  }

  predicate AboutToStore(msg: Message, id: Id) {
    && msg.UploadMsg? && msg.uploadEvent.avatarID == id
    && msg.uploadStage.Running? && msg.uploadStage.pc.StoreThumb?
  }

  /** A handler that went past its guard and has not ended. */
  predicate PastGuard(msg: Message, id: Id) {
    && msg.UploadMsg? && msg.uploadEvent.avatarID == id
    && msg.uploadStage.Running? && Working(msg.uploadStage.pc)
  }

  /** A handler that can get as far as storing a thumbnail without being delivered again: it is at
      one, or on its way to the first, which can be made. */
  predicate CanStore(cfg: Config, msg: Message, id: Id, data: Data) {
    && msg.UploadMsg? && msg.uploadEvent.avatarID == id && msg.uploadStage.Running?
    && match msg.uploadStage.pc
       case StoreThumb(_, _, _, _) => true
       case MarkProcessing => FirstIsMade(cfg, data)
       case Download => FirstIsMade(cfg, data)
       case _ => false
  }

  predicate FirstIsMade(cfg: Config, data: Data) {
    cfg.sizes != [] && cfg.generate(data, cfg.sizes[0]).Some?
  }

  // ---------------------------------------------------------------------------------------
  // Gone for good
  // ---------------------------------------------------------------------------------------

  ghost predicate GoneForever(cfg: Config, s: State, id: Id) {
    forall es, s' | Run(cfg, s, es, s') :: Gone(s'.w, id)
  }

  lemma GoneStep(cfg: Config, s: State, e: Event, id: Id)
    requires Inv(cfg, s) && Enabled(cfg, s, e)
    requires IsDeleted(s, id) && Gone(s.w, id) && !MayStillWrite(s, id)
    ensures var s' := Apply(cfg, s, e); IsDeleted(s', id) && Gone(s'.w, id) && !MayStillWrite(s', id)
  {
    Lifecycle.StepEvolves(cfg, s, e);
    assert RowOk(cfg, id, s.w.table[id], s.uploads[id]) && UploadOk(s.w, id, s.uploads[id]);
    GoneStepStores(cfg, s, e, id);
    GoneStepWriters(cfg, s, e, id);
  }

  lemma GoneStepStores(cfg: Config, s: State, e: Event, id: Id)
    requires Inv(cfg, s) && Enabled(cfg, s, e)
    requires IsDeleted(s, id) && Gone(s.w, id) && !MayStillWrite(s, id)
    ensures Gone(Apply(cfg, s, e).w, id)
  {
    if e.Work? {
      assert !AboutToStore(s.queue[e.m], id);
    }
    NothingStored(cfg, s, e, id);
  }

  /** Only the upload request at its store call and a handler at one add an object. */
  lemma NothingStored(cfg: Config, s: State, e: Event, id: Id)
    requires Inv(cfg, s) && Enabled(cfg, s, e)
    requires id in s.uploads ==> !s.uploads[id].pc.PutOriginal?
    requires e.Work? ==> !AboutToStore(s.queue[e.m], id)
    ensures forall k | k in Apply(cfg, s, e).w.objects && k.id == id :: k in s.w.objects
  {
    match e
    case UploadStep(x, c) => UploadStoresOwn(cfg, s, x, c);
    case Work(m, c) => WorkStoresOwn(cfg, s, m, c);
    case _ =>
  }

  lemma UploadStoresOwn(cfg: Config, s: State, x: Id, c: Call)
    requires Inv(cfg, s) && Enabled(cfg, s, UploadStep(x, c))
    ensures forall k | k in Apply(cfg, s, UploadStep(x, c)).w.objects && k !in s.w.objects ::
              k.id == x && s.uploads[x].pc.PutOriginal?
  {
    assert UploadOk(s.w, x, s.uploads[x]);
    if s.uploads[x].pc.PutOriginal? {
      assert RowOk(cfg, x, s.w.table[x], s.uploads[x]);
    }
  }

  lemma WorkStoresOwn(cfg: Config, s: State, m: nat, c: Call)
    requires Enabled(cfg, s, Work(m, c))
    ensures forall k | k in Apply(cfg, s, Work(m, c)).w.objects && k !in s.w.objects :: AboutToStore(s.queue[m], k.id)
  {
  }

  lemma GoneStepWriters(cfg: Config, s: State, e: Event, id: Id)
    requires Inv(cfg, s) && Enabled(cfg, s, e)
    requires IsDeleted(s, id) && Gone(s.w, id) && !MayStillWrite(s, id)
    ensures !MayStillWrite(Apply(cfg, s, e), id)
  {
    var s' := Apply(cfg, s, e);
    assert id in s.uploads && UploadOk(s.w, id, s.uploads[id]);
    Preservation.QueueGrows(cfg, s, e);
    forall m | 0 <= m < |s'.queue|
      ensures !AboutToStore(s'.queue[m], id)
    {
      if m < |s.queue| && s.queue[m].UploadMsg? {
        StaysStopped(cfg, s, e, m, id);
      } else if m < |s.queue| {
        DeleteMsgMoves(cfg, s, e, m);
      }
    }
  }

  /** Without an original no handler gets to a store call. */
  lemma StaysStopped(cfg: Config, s: State, e: Event, m: nat, id: Id)
    requires Inv(cfg, s) && Enabled(cfg, s, e) && m < |s.queue| && s.queue[m].UploadMsg?
    requires IsDeleted(s, id) && Gone(s.w, id) && !AboutToStore(s.queue[m], id)
    ensures m < |Apply(cfg, s, e).queue| && !AboutToStore(Apply(cfg, s, e).queue[m], id)
  {
    assert MsgOk(cfg, s.w, s.uploads, s.queue[m]);
    Preservation.QueueGrows(cfg, s, e);
    Preservation.UploadMsgMoves(cfg, s, e, m);
  }

  /** A delete message keeps its event, and its handler restarts or takes a step of its own. */
  lemma DeleteMsgMoves(cfg: Config, s: State, e: Event, m: nat)
    requires Enabled(cfg, s, e) && m < |s.queue| && s.queue[m].DeleteMsg?
    ensures var msg' := Apply(cfg, s, e).queue[m]; var ev := s.queue[m].deleteEvent;
            && msg'.DeleteMsg? && msg'.deleteEvent == ev
            && (|| msg' == s.queue[m] || !msg'.deleteStage.Running? || msg'.deleteStage.pc == P.NextKey(ev, 0)
                || (e.Work? && e.m == m))
  {
    Preservation.QueueGrows(cfg, s, e);
  }

  lemma {:induction false} GoneRun(cfg: Config, s: State, es: seq<Event>, s': State, id: Id)
    requires Inv(cfg, s) && Run(cfg, s, es, s')
    requires IsDeleted(s, id) && Gone(s.w, id) && !MayStillWrite(s, id)
    ensures Gone(s'.w, id)
    decreases es
  {
    if es != [] {
      GoneStep(cfg, s, es[0], id);
      Preservation.InvStep(cfg, s, es[0]);
      GoneRun(cfg, Apply(cfg, s, es[0]), es[1..], s', id);
    }
  }

  lemma UploadComesBack(cfg: Config, s: State, id: Id)
    requires Inv(cfg, s) && id in s.uploads && s.uploads[id].pc.PutOriginal?
    ensures var e := UploadStep(id, FAULT_FREE); Enabled(cfg, s, e) && Original(id) in Apply(cfg, s, e).w.objects
  {
    assert UploadOk(s.w, id, s.uploads[id]) && RowOk(cfg, id, s.w.table[id], s.uploads[id]);
  }

  lemma HandlerComesBack(cfg: Config, s: State, m: nat, id: Id)
    requires Inv(cfg, s) && m < |s.queue| && AboutToStore(s.queue[m], id)
    ensures var e := Work(m, FAULT_FREE); var i := s.queue[m].uploadStage.pc.i;
            Enabled(cfg, s, e) && i < |cfg.sizes| && Thumbnail(id, cfg.sizes[i]) in Apply(cfg, s, e).w.objects
  {
    assert MsgOk(cfg, s.w, s.uploads, s.queue[m]);
  }

  /** Whoever is about to store an object can bring the avatar back. */
  lemma WriteComesBack(cfg: Config, s: State, id: Id) returns (e: Event)
    requires Inv(cfg, s) && MayStillWrite(s, id)
    ensures Enabled(cfg, s, e) && !Gone(Apply(cfg, s, e).w, id)
  {
    if id in s.uploads && s.uploads[id].pc.PutOriginal? {
      e := UploadStep(id, FAULT_FREE);
      UploadComesBack(cfg, s, id);
    } else {
      var m :| 0 <= m < |s.queue| && AboutToStore(s.queue[m], id);
      e := Work(m, FAULT_FREE);
      HandlerComesBack(cfg, s, m, id);
    }
  }

  /** A deleted avatar's objects are gone for good exactly when none is left and nobody is about
      to store one: later redeliveries of its upload event cannot bring it back, a handler or an
      upload already past its checks can. */
  lemma GoneForeverIff(cfg: Config, s: State, id: Id)
    requires Reachable(cfg, s) && IsDeleted(s, id)
    ensures GoneForever(cfg, s, id) <==> Gone(s.w, id) && !MayStillWrite(s, id)
  {
    Preservation.InvReachable(cfg, s);
    if Gone(s.w, id) && !MayStillWrite(s, id) {
      forall es, s' | Run(cfg, s, es, s')
        ensures Gone(s'.w, id)
      {
        GoneRun(cfg, s, es, s', id);
      }
    } else if !Gone(s.w, id) {
      assert Run(cfg, s, [], s);
    } else {
      var e := WriteComesBack(cfg, s, id);
      RunSnoc(cfg, s, [], s, e);
      assert [] + [e] == [e];
      assert Run(cfg, s, [e], Apply(cfg, s, e));
    }
  }

  // ---------------------------------------------------------------------------------------
  // The cleanup
  // ---------------------------------------------------------------------------------------

  /** Every object the avatar still has is among `keys`. */
  ghost predicate AllAmong(w: World, id: Id, keys: seq<Key>) {
    forall k | k in w.objects && k.id == id :: k in keys
  }

  ghost predicate DeletionCovers(w: World, id: Id, d: Deletion) {
    d.pc.AnnounceDelete? && d.pc.id == id ==> AllAmong(w, id, d.pc.keys)
  }

  /** The delete event names all that is left, and its handler has removed what it passed. */
  ghost predicate EventCovers(w: World, id: Id, msg: Message) {
    msg.DeleteMsg? && msg.deleteEvent.avatarID == id ==>
      && AllAmong(w, id, msg.deleteEvent.s3Keys)
      && (msg.deleteStage.Running? ==>
            match msg.deleteStage.pc
            case RemoveKey(i) => i <= |msg.deleteEvent.s3Keys| && AllAmong(w, id, msg.deleteEvent.s3Keys[i..])
            case MarkDeleted => Gone(w, id)
            case DeleteReturned => Gone(w, id)
            case DeleteErrored => true)
  }

  /** The avatar is deleted, nothing of it will be stored again, and its cleanup misses nothing. */
  ghost predicate Covered(cfg: Config, s: State, id: Id) {
    && IsDeleted(s, id) && id in s.uploads && !s.uploads[id].pc.PutOriginal?
    && (forall m | 0 <= m < |s.queue| ::
          !CanStore(cfg, s.queue[m], id, s.uploads[id].data) && EventCovers(s.w, id, s.queue[m]))
    && (forall d | 0 <= d < |s.deletions| :: DeletionCovers(s.w, id, s.deletions[d]))
  }

  /** No step stores an object of a covered avatar. */
  lemma CoveredShrinks(cfg: Config, s: State, e: Event, id: Id)
    requires Inv(cfg, s) && Enabled(cfg, s, e) && Covered(cfg, s, id)
    ensures forall k | k in Apply(cfg, s, e).w.objects && k.id == id :: k in s.w.objects
  {
    if e.Work? {
      assert !CanStore(cfg, s.queue[e.m], id, s.uploads[id].data);
    }
    NothingStored(cfg, s, e, id);
  }

  lemma CoveredRow(cfg: Config, s: State, e: Event, id: Id)
    requires Inv(cfg, s) && Enabled(cfg, s, e) && Covered(cfg, s, id)
    ensures var s' := Apply(cfg, s, e); IsDeleted(s', id) && id in s'.uploads && !s'.uploads[id].pc.PutOriginal?
  {
    Lifecycle.StepEvolves(cfg, s, e);
    assert UploadOk(s.w, id, s.uploads[id]);
  }

  lemma CoveredGuard(cfg: Config, s: State, e: Event, id: Id)
    requires Inv(cfg, s) && Enabled(cfg, s, e) && Covered(cfg, s, id)
    ensures var s' := Apply(cfg, s, e);
            forall m | 0 <= m < |s'.queue| :: !CanStore(cfg, s'.queue[m], id, s.uploads[id].data)
  {
    var s' := Apply(cfg, s, e);
    Preservation.QueueGrows(cfg, s, e);
    forall m | 0 <= m < |s'.queue|
      ensures !CanStore(cfg, s'.queue[m], id, s.uploads[id].data)
    {
      if m < |s.queue| && s.queue[m].UploadMsg? {
        assert MsgOk(cfg, s.w, s.uploads, s.queue[m]) && !CanStore(cfg, s.queue[m], id, s.uploads[id].data);
        Preservation.UploadMsgMoves(cfg, s, e, m);
        if e.Work? && e.m == m && s.queue[m].uploadEvent.avatarID == id {
          StoresNothingYet(cfg, s, m, e.call, id);
        }
      } else if m < |s.queue| {
        DeleteMsgMoves(cfg, s, e, m);
      }
    }
  }

  /** On a deleted row the guard lets nobody through, and a handler past it that cannot make the
      first thumbnail never stores one. */
  lemma StoresNothingYet(cfg: Config, s: State, m: nat, c: Call, id: Id)
    requires StoresOk(cfg, s.w, s.uploads) && IsDeleted(s, id) && m < |s.queue| && MsgOk(cfg, s.w, s.uploads, s.queue[m])
    requires s.queue[m].UploadMsg? && s.queue[m].uploadEvent.avatarID == id && s.queue[m].uploadStage.Running?
    requires id in s.uploads && !CanStore(cfg, s.queue[m], id, s.uploads[id].data)
    ensures var ev, stage := s.queue[m].uploadEvent, s.queue[m].uploadStage;
            var pc' := P.UploadNext(cfg, ev, stage.pc, s.w, c);
            !CanStore(cfg, UploadMsg(ev, stage.(pc := pc')), id, s.uploads[id].data)
  {
    if Original(id) in s.w.objects {
      assert ObjectOk(cfg, Original(id), s.w.objects[Original(id)], s.uploads[id]);
    }
  }

  lemma CoveredEvents(cfg: Config, s: State, e: Event, id: Id)
    requires Inv(cfg, s) && Enabled(cfg, s, e) && Covered(cfg, s, id)
    ensures var s' := Apply(cfg, s, e); forall m | 0 <= m < |s'.queue| :: EventCovers(s'.w, id, s'.queue[m])
  {
    var s' := Apply(cfg, s, e);
    Preservation.QueueGrows(cfg, s, e);
    forall m | 0 <= m < |s'.queue|
      ensures EventCovers(s'.w, id, s'.queue[m])
    {
      if m < |s.queue| {
        CoveredEvent(cfg, s, e, m, id);
      } else {
        CoveredNewEvent(cfg, s, e, m, id);
      }
    }
  }

  lemma CoveredEvent(cfg: Config, s: State, e: Event, m: nat, id: Id)
    requires Inv(cfg, s) && Enabled(cfg, s, e) && Covered(cfg, s, id) && m < |s.queue|
    ensures var s' := Apply(cfg, s, e); m < |s'.queue| && EventCovers(s'.w, id, s'.queue[m])
  {
    assert EventCovers(s.w, id, s.queue[m]);
    Preservation.QueueGrows(cfg, s, e);
    CoveredShrinks(cfg, s, e, id);
    if s.queue[m].UploadMsg? {
      Preservation.UploadMsgMoves(cfg, s, e, m);
    } else {
      DeleteMsgMoves(cfg, s, e, m);
      if e.Work? && e.m == m && MsgAvatar(s.queue[m]) == id {
        RemovalCovers(cfg, s, m, e.call, id);
      } else if MsgAvatar(s.queue[m]) == id {
        StillCovers(s.w, Apply(cfg, s, e).w, id, s.queue[m], Apply(cfg, s, e).queue[m]);
      }
    }
  }

  /** A message whose handler did not move, or starts over, covers what is left. */
  lemma StillCovers(w: World, w': World, id: Id, msg: Message, msg': Message)
    requires msg.DeleteMsg? && msg'.DeleteMsg? && msg'.deleteEvent == msg.deleteEvent && msg.deleteEvent.avatarID == id
    requires EventCovers(w, id, msg) && forall k | k in w'.objects && k.id == id :: k in w.objects
    requires msg' == msg || !msg'.deleteStage.Running? || msg'.deleteStage.pc == P.NextKey(msg.deleteEvent, 0)
    ensures EventCovers(w', id, msg')
  {
    var keys := msg.deleteEvent.s3Keys;
    assert keys[0..] == keys;
  }

  /** A delete event is published by a request that announces its deletion, with its keys. */
  lemma NewEventsAnnounced(cfg: Config, s: State, e: Event, m: nat)
    requires Enabled(cfg, s, e) && |s.queue| <= m < |Apply(cfg, s, e).queue| && Apply(cfg, s, e).queue[m].DeleteMsg?
    ensures e.DeleteStep? && s.deletions[e.d].pc.AnnounceDelete? && Apply(cfg, s, e).w == s.w
    ensures Apply(cfg, s, e).queue[m] == DeleteMsg(DeleteEvent(s.deletions[e.d].pc.id, s.deletions[e.d].pc.keys), Ready)
  {
  }

  lemma CoveredNewEvent(cfg: Config, s: State, e: Event, m: nat, id: Id)
    requires Enabled(cfg, s, e) && Covered(cfg, s, id) && |s.queue| <= m < |Apply(cfg, s, e).queue|
    ensures var s' := Apply(cfg, s, e); EventCovers(s'.w, id, s'.queue[m])
  {
    if Apply(cfg, s, e).queue[m].DeleteMsg? {
      NewEventsAnnounced(cfg, s, e, m);
      assert DeletionCovers(s.w, id, s.deletions[e.d]);
    }
  }

  /** One removal, or the last write, of the cleanup handler. */
  lemma RemovalCovers(cfg: Config, s: State, m: nat, c: Call, id: Id)
    requires Inv(cfg, s) && Enabled(cfg, s, Work(m, c)) && Covered(cfg, s, id)
    requires s.queue[m].DeleteMsg? && s.queue[m].deleteEvent.avatarID == id
    ensures var s' := Apply(cfg, s, Work(m, c)); EventCovers(s'.w, id, s'.queue[m])
  {
    assert EventCovers(s.w, id, s.queue[m]) && MsgOk(cfg, s.w, s.uploads, s.queue[m]);
    var ev, pc := s.queue[m].deleteEvent, s.queue[m].deleteStage.pc;
    if pc.RemoveKey? && c.outcome.Success? {
      RemovedKeyCovers(s.w.objects, id, ev.s3Keys, pc.i);
      assert ev.s3Keys[|ev.s3Keys|..] == [];
    }
  }

  /** Removing key i leaves the avatar nothing but the keys after it. */
  lemma RemovedKeyCovers(objects: Objects, id: Id, keys: seq<Key>, i: nat)
    requires i < |keys| && forall k | k in objects && k.id == id :: k in keys[i..]
    ensures forall k | k in objects - {keys[i]} && k.id == id :: k in keys[i + 1..]
  {
    assert keys[i..] == [keys[i]] + keys[i + 1..];
  }

  /** A request gets to announce a deletion by hiding the live row, in no other way. */
  lemma AnnouncersMove(cfg: Config, s: State, e: Event, d: nat)
    requires Enabled(cfg, s, e) && d < |Apply(cfg, s, e).deletions|
    requires Apply(cfg, s, e).deletions[d].pc.AnnounceDelete?
    ensures d < |s.deletions|
    ensures || s.deletions[d] == Apply(cfg, s, e).deletions[d]
            || Postgres.Live(s.w.table, Apply(cfg, s, e).deletions[d].pc.id)
  {
  }

  lemma CoveredDeletions(cfg: Config, s: State, e: Event, id: Id)
    requires Inv(cfg, s) && Enabled(cfg, s, e) && Covered(cfg, s, id)
    ensures var s' := Apply(cfg, s, e); forall d | 0 <= d < |s'.deletions| :: DeletionCovers(s'.w, id, s'.deletions[d])
  {
    var s' := Apply(cfg, s, e);
    CoveredShrinks(cfg, s, e, id);
    forall d | 0 <= d < |s'.deletions| && s'.deletions[d].pc.AnnounceDelete? && s'.deletions[d].pc.id == id
      ensures AllAmong(s'.w, id, s'.deletions[d].pc.keys)
    {
      AnnouncersMove(cfg, s, e, d);
      assert DeletionCovers(s.w, id, s.deletions[d]);
    }
  }

  lemma CoveredStep(cfg: Config, s: State, e: Event, id: Id)
    requires Inv(cfg, s) && Enabled(cfg, s, e) && Covered(cfg, s, id)
    ensures Covered(cfg, Apply(cfg, s, e), id)
  {
    Lifecycle.StepEvolves(cfg, s, e);
    CoveredRow(cfg, s, e, id);
    CoveredGuard(cfg, s, e, id);
    CoveredEvents(cfg, s, e, id);
    CoveredDeletions(cfg, s, e, id);
  }

  lemma {:induction false} CoveredRun(cfg: Config, s: State, es: seq<Event>, s': State, id: Id)
    requires Inv(cfg, s) && Run(cfg, s, es, s') && Covered(cfg, s, id)
    ensures Inv(cfg, s') && Covered(cfg, s', id)
    decreases es
  {
    if es != [] {
      CoveredStep(cfg, s, es[0], id);
      Preservation.InvStep(cfg, s, es[0]);
      CoveredRun(cfg, Apply(cfg, s, es[0]), es[1..], s', id);
    }
  }

  /** Keys captured from a row with full thumbnails name everything the avatar can have. */
  lemma CaptureCovers(cfg: Config, w: World, up: map<Id, Upload>, a: Avatar, keys: seq<Key>)
    requires StoresOk(cfg, w, up) && Full(cfg, a) && a.s3Key == Original(a.id) && Captured(a, keys)
    ensures AllAmong(w, a.id, keys)
  {
    ThumbnailMapEntries(a.id, cfg.sizes);
    forall k | k in w.objects && k.id == a.id
      ensures k in keys
    {
      assert ObjectOk(cfg, k, w.objects[k], up[k.id]);
      if k.Thumbnail? {
        assert a.thumbnails[SizeName(k.px)] == k;
      }
    }
  }

  /** Request d is about to hide a live row, the keys it captured name every object the avatar has,
      and nobody is on the way to store another: not its upload, and no handler. */
  ghost predicate SafeHide(cfg: Config, s: State, d: nat) {
    && d < |s.deletions| && s.deletions[d].pc.Hide?
    && var id := s.deletions[d].pc.a.id;
       && Postgres.Live(s.w.table, id) && AllAmong(s.w, id, s.deletions[d].pc.keys)
       && id in s.uploads && !s.uploads[id].pc.PutOriginal?
       && forall m | 0 <= m < |s.queue| :: !CanStore(cfg, s.queue[m], id, s.uploads[id].data)
  }

  /** It is safe to hide a row whose thumbnails were full when its keys were captured, with no
      handler of that avatar past its guard. Without sizes every row is full, so then the original
      must not still be on its way. */
  lemma FullCaptureIsSafe(cfg: Config, s: State, d: nat)
    requires Inv(cfg, s) && d < |s.deletions| && s.deletions[d].pc.Hide?
    requires Postgres.Live(s.w.table, s.deletions[d].pc.a.id) && Full(cfg, s.deletions[d].pc.a)
    requires forall m | 0 <= m < |s.queue| :: !PastGuard(s.queue[m], s.deletions[d].pc.a.id)
    requires cfg.sizes == [] ==>
               s.deletions[d].pc.a.id in s.uploads && !s.uploads[s.deletions[d].pc.a.id].pc.PutOriginal?
    ensures SafeHide(cfg, s, d)
  {
    var a := s.deletions[d].pc.a;
    assert DeletionOk(cfg, s.w, s.deletions[d]) && RowOk(cfg, a.id, s.w.table[a.id], s.uploads[a.id]);
    FullMeansAnswered(cfg, s, a);
    CaptureCovers(cfg, s.w, s.uploads, a, s.deletions[d].pc.keys);
    assert forall m | 0 <= m < |s.queue| ::
        CanStore(cfg, s.queue[m], a.id, s.uploads[a.id].data) ==> PastGuard(s.queue[m], a.id);
  }

  lemma HideCovers(cfg: Config, s: State, d: nat, c: Call)
    requires Inv(cfg, s) && SafeHide(cfg, s, d) && c.outcome.Success?
    ensures Covered(cfg, Apply(cfg, s, DeleteStep(d, c)), s.deletions[d].pc.a.id)
  {
    var id, s' := s.deletions[d].pc.a.id, Apply(cfg, s, DeleteStep(d, c));
    assert s'.queue == s.queue && s'.w.objects == s.w.objects && s'.uploads == s.uploads;
    forall m | 0 <= m < |s.queue|
      ensures EventCovers(s'.w, id, s.queue[m])
    {
      assert MsgOk(cfg, s.w, s.uploads, s.queue[m]);
    }
    forall i | 0 <= i < |s.deletions|
      ensures DeletionCovers(s'.w, id, s'.deletions[i])
    {
      assert DeletionOk(cfg, s.w, s.deletions[i]);
      assert !Winner(s.deletions[i], id);
    }
  }

  /** A row seen with a thumbnail belongs to a finished upload. */
  lemma FullMeansAnswered(cfg: Config, s: State, a: Avatar)
    requires Inv(cfg, s) && a.id in s.w.table && Full(cfg, a)
    requires a.thumbnails == map[] || Full(cfg, s.w.table[a.id])
    ensures cfg.sizes != [] ==> a.id in s.uploads && s.uploads[a.id].pc.Answered?
  {
    Preservation.FreshNotFull(cfg, a.id);
    assert RowOk(cfg, a.id, s.w.table[a.id], s.uploads[a.id]);
  }

  ghost predicate CleanupSucceeded(s: State, id: Id) {
    exists m :: 0 <= m < |s.queue| && s.queue[m].DeleteMsg? && Succeeded(s.queue[m])
                && s.queue[m].deleteEvent.avatarID == id
  }

  /** Once HandleDelete has succeeded, no object of the avatar exists there or in any later state. */
  ghost predicate CleanedForGood(cfg: Config, s: State, id: Id) {
    forall es1, s1, es2, s2 | Run(cfg, s, es1, s1) && CleanupSucceeded(s1, id) && Run(cfg, s1, es2, s2) :: Gone(s2.w, id)
  }

  /** After a safe hide the cleanup is complete and never undone, late redeliveries included. */
  lemma CleanupIsComplete(cfg: Config, s: State, d: nat, c: Call)
    requires Reachable(cfg, s) && SafeHide(cfg, s, d) && c.outcome.Success?
    ensures CleanedForGood(cfg, Apply(cfg, s, DeleteStep(d, c)), s.deletions[d].pc.a.id)
  {
    var id, next := s.deletions[d].pc.a.id, Apply(cfg, s, DeleteStep(d, c));
    Preservation.InvReachable(cfg, s);
    HideCovers(cfg, s, d, c);
    Preservation.InvStep(cfg, s, DeleteStep(d, c));
    forall es1, s1, es2, s2 | Run(cfg, next, es1, s1) && CleanupSucceeded(s1, id) && Run(cfg, s1, es2, s2)
      ensures Gone(s2.w, id)
    {
      CoveredRun(cfg, next, es1, s1, id);
      CoveredMeansGone(cfg, s1, id);
      GoneRun(cfg, s1, es2, s2, id);
    }
  }

  lemma CoveredMeansGone(cfg: Config, s: State, id: Id)
    requires Covered(cfg, s, id) && CleanupSucceeded(s, id)
    ensures IsDeleted(s, id) && Gone(s.w, id) && !MayStillWrite(s, id)
  {
    var m :| 0 <= m < |s.queue| && s.queue[m].DeleteMsg? && Succeeded(s.queue[m]) && s.queue[m].deleteEvent.avatarID == id;
    assert EventCovers(s.w, id, s.queue[m]);
    assert forall k | 0 <= k < |s.queue| :: !CanStore(cfg, s.queue[k], id, s.uploads[id].data);
  }
}
