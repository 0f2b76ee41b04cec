/** Every step of the protocol keeps the invariant: what each participant does to the stores,
    then what that leaves true for everyone else. */
module Preservation {
  import opened Wrappers
  import opened KeyLayout
  import opened Avatars
  import opened Calls
  import opened Protocol
  import opened Invariant
  import Postgres
  import S3
  import P = Processor
  import S = Service

  // ---------------------------------------------------------------------------------------
  // The four ways a store changes
  // ---------------------------------------------------------------------------------------

  lemma FreshNotFull(cfg: Config, id: Id)
    ensures ThumbnailMap(id, cfg.sizes) == map[] ==> cfg.sizes == []
  {
    if cfg.sizes != [] {
      ThumbnailMapEntries(id, cfg.sizes);
      assert cfg.sizes[0] in cfg.sizes;
    }
  }

  lemma RowCreated(cfg: Config, w: World, up: map<Id, Upload>, id: Id, a: Avatar)
    requires StoresOk(cfg, w, up) && id in up && id !in w.table && RowOk(cfg, id, a, up[id])
    requires a.uploadStatus == Uploading && a.thumbnails == map[]
    ensures var w' := w.(table := w.table[id := a]); StoresOk(cfg, w', up) && Evolves(cfg, w, w')
  {
    var w' := w.(table := w.table[id := a]);
    FreshNotFull(cfg, id);
    forall other | other in w.table && other != id
      ensures RowBacked(cfg, w', other, up[other])
    {
      assert RowBacked(cfg, w, other, up[other]);
    }
  }

  lemma RowChanged(cfg: Config, w: World, up: map<Id, Upload>, id: Id, a: Avatar)
    requires StoresOk(cfg, w, up) && id in w.table
    requires RowOk(cfg, id, a, up[id]) && RowEvolves(cfg, w.table[id], a)
    requires a.uploadStatus == Uploaded && a.deletedAt.None? ==>
               w.table[id].uploadStatus == Uploaded || Original(id) in w.objects
    requires Full(cfg, a) ==> Full(cfg, w.table[id]) || ThumbsStored(cfg, w, id, up[id].data, |cfg.sizes|)
    ensures var w' := w.(table := w.table[id := a]); StoresOk(cfg, w', up) && Evolves(cfg, w, w')
  {
    var w' := w.(table := w.table[id := a]);
    assert Evolves(cfg, w, w');
    forall other | other in w.table
      ensures RowBacked(cfg, w', other, up[other])
    {
      assert RowBacked(cfg, w, other, up[other]);
      if ThumbsStored(cfg, w, other, up[other].data, |cfg.sizes|) {
        ThumbsStable(cfg, w, w', other, up[other].data, |cfg.sizes|);
      }
    }
  }

  lemma ObjectPut(cfg: Config, w: World, up: map<Id, Upload>, k: Key, d: Data)
    requires StoresOk(cfg, w, up) && k.id in w.table && ObjectOk(cfg, k, d, up[k.id])
    ensures var w' := w.(objects := w.objects[k := d]); StoresOk(cfg, w', up) && Evolves(cfg, w, w')
  {
    var w' := w.(objects := w.objects[k := d]);
    forall other | other in w.table
      ensures RowBacked(cfg, w', other, up[other])
    {
      assert RowBacked(cfg, w, other, up[other]);
    }
  }

  lemma ObjectRemoved(cfg: Config, w: World, up: map<Id, Upload>, k: Key)
    requires StoresOk(cfg, w, up) && k.id in w.table && w.table[k.id].deletedAt.Some?
    ensures var w' := w.(objects := w.objects - {k}); StoresOk(cfg, w', up) && Evolves(cfg, w, w')
  {
    var w' := w.(objects := w.objects - {k});
    forall other | other in w.table
      ensures RowBacked(cfg, w', other, up[other])
    {
      assert RowBacked(cfg, w, other, up[other]);
    }
  }

  // ---------------------------------------------------------------------------------------
  // What each participant does to the stores
  // ---------------------------------------------------------------------------------------

  /** The upload request of `id` keeps the stores sound, touching its own row and object only. */
  lemma UploadStepEffect(cfg: Config, w: World, up: map<Id, Upload>, id: Id, c: Call)
    requires StoresOk(cfg, w, up) && id in up && UploadOk(w, id, up[id])
    ensures
      var u := up[id];
      var w' := S.UploadEffect(NewRow(cfg, id, u), u.data, u.pc, w, c);
      && StoresOk(cfg, w', up) && Evolves(cfg, w, w')
      && (forall other | other != id :: UploadStatusKept(w, w', other))
      && (forall other :: ProcessingKept(w, w', other))
  {
    var u := up[id];
    var n := NewRow(cfg, id, u);
    if Applied(c) {
      match u.pc
      case CreateRow => RowCreated(cfg, w, up, id, Postgres.Fresh(n, c.now));
      case PutOriginal(a) =>
        assert RowOk(cfg, id, w.table[id], u);
        ObjectPut(cfg, w, up, Original(id), u.data);
      case Compensate(a) =>
        assert RowOk(cfg, id, w.table[id], u);
        RowChanged(cfg, w, up, id, w.table[id].(uploadStatus := UploadFailed, updatedAt := c.now));
      case Confirm(a) =>
        assert RowOk(cfg, id, w.table[id], u);
        RowChanged(cfg, w, up, id, w.table[id].(uploadStatus := Uploaded, updatedAt := c.now));
      case _ =>
    }
  }

  lemma UploadStepNext(cfg: Config, w: World, id: Id, u: Upload, c: Call)
    requires UploadOk(w, id, u) && (id in w.table ==> RowOk(cfg, id, w.table[id], u))
    ensures
      var n := NewRow(cfg, id, u);
      UploadOk(S.UploadEffect(n, u.data, u.pc, w, c), id, u.(pc := S.UploadNext(n, u.pc, w, c)))
  {
  }

  /** A handler writes no upload status, and no other avatar's processing status. */
  lemma UploadWorkTouches(cfg: Config, w: World, ev: UploadEvent, pc: P.UploadPc, c: Call)
    ensures
      var w' := P.UploadEffect(cfg, ev, pc, w, c);
      && (forall other :: UploadStatusKept(w, w', other))
      && (forall other | other != ev.avatarID :: ProcessingKept(w, w', other))
  {
  }

  lemma UploadWorkEffect(cfg: Config, w: World, up: map<Id, Upload>, ev: UploadEvent, pc: P.UploadPc, c: Call)
    requires StoresOk(cfg, w, up)
    requires ev.avatarID in up && ev.avatarID in w.table && up[ev.avatarID].pc.Answered?
    requires UploadPcOk(cfg, w, ev.avatarID, up[ev.avatarID], pc)
    ensures
      var w' := P.UploadEffect(cfg, ev, pc, w, c);
      && StoresOk(cfg, w', up) && Evolves(cfg, w, w')
      && (forall other :: UploadStatusKept(w, w', other))
      && (forall other | other != ev.avatarID :: ProcessingKept(w, w', other))
  {
    var id := ev.avatarID;
    var a := w.table[id];
    UploadWorkTouches(cfg, w, ev, pc, c);
    assert RowOk(cfg, id, a, up[id]);
    if Applied(c) {
      match pc
      case MarkProcessing => RowChanged(cfg, w, up, id, a.(processingStatus := Processing, updatedAt := c.now));
      case MarkFailed => RowChanged(cfg, w, up, id, a.(processingStatus := ProcessingFailed, updatedAt := c.now));
      case SaveThumbnails(keys) =>
        RowChanged(cfg, w, up, id, a.(thumbnails := keys, processingStatus := Completed, updatedAt := c.now));
      case StoreThumb(_, _, i, thumb) =>
        assert cfg.sizes[i] in cfg.sizes;
        ObjectPut(cfg, w, up, Thumbnail(id, cfg.sizes[i]), thumb);
      case _ =>
    }
  }

  lemma UploadWorkNext(cfg: Config, w: World, up: map<Id, Upload>, ev: UploadEvent, pc: P.UploadPc, c: Call)
    requires StoresOk(cfg, w, up)
    requires ev.avatarID in up && ev.avatarID in w.table && ev.s3Key == Original(ev.avatarID)
    requires UploadPcOk(cfg, w, ev.avatarID, up[ev.avatarID], pc)
    ensures
      UploadPcOk(cfg, P.UploadEffect(cfg, ev, pc, w, c), ev.avatarID, up[ev.avatarID], P.UploadNext(cfg, ev, pc, w, c))
  {
    assert RowOk(cfg, ev.avatarID, w.table[ev.avatarID], up[ev.avatarID]);
    UploadWorkGuard(cfg, w, up[ev.avatarID], ev, pc, c);
    UploadWorkHolds(cfg, w, up, ev, pc, c);
  }

  lemma UploadWorkGuard(cfg: Config, w: World, u: Upload, ev: UploadEvent, pc: P.UploadPc, c: Call)
    requires ev.avatarID in w.table && UploadPcOk(cfg, w, ev.avatarID, u, pc)
    ensures
      var w', id := P.UploadEffect(cfg, ev, pc, w, c), ev.avatarID;
      Working(P.UploadNext(cfg, ev, pc, w, c)) && Postgres.Live(w'.table, id) ==>
        w'.table[id].processingStatus != Completed
  {
  }

  lemma UploadWorkHolds(cfg: Config, w: World, up: map<Id, Upload>, ev: UploadEvent, pc: P.UploadPc, c: Call)
    requires StoresOk(cfg, w, up)
    requires ev.avatarID in up && ev.avatarID in w.table && ev.s3Key == Original(ev.avatarID)
    requires UploadPcHolds(cfg, w, ev.avatarID, up[ev.avatarID], pc)
    ensures
      UploadPcHolds(cfg, P.UploadEffect(cfg, ev, pc, w, c), ev.avatarID, up[ev.avatarID], P.UploadNext(cfg, ev, pc, w, c))
  {
    var id := ev.avatarID;
    match pc
    case StoreThumb(_, _, _, _) => ThumbStoredHolds(cfg, w, up[id], ev, pc, c);
    case Download =>
      if Original(id) in w.objects {
        assert ObjectOk(cfg, Original(id), w.objects[Original(id)], up[id]);
        assert cfg.sizes[..0] == [];
        NextThumbOk(cfg, w, id, up[id], 0);
      }
    case ReadRow => assert RowOk(cfg, id, w.table[id], up[id]);
    case _ =>
  }

  lemma ThumbStoredHolds(cfg: Config, w: World, u: Upload, ev: UploadEvent, pc: P.UploadPc, c: Call)
    requires pc.StoreThumb? && ev.avatarID in w.table && UploadPcHolds(cfg, w, ev.avatarID, u, pc)
    ensures
      UploadPcHolds(cfg, P.UploadEffect(cfg, ev, pc, w, c), ev.avatarID, u, P.UploadNext(cfg, ev, pc, w, c))
  {
    var id, i, w' := ev.avatarID, pc.i, P.UploadEffect(cfg, ev, pc, w, c);
    if S3.WriteReply(c).Ok? {
      assert w' == w.(objects := w.objects[Thumbnail(id, cfg.sizes[i]) := pc.thumb]);
      ThumbnailMapStep(id, cfg.sizes, i);
      ThumbStoredOneMore(cfg, w, id, u.data, i, pc.thumb);
      NextThumbOk(cfg, w', id, u, i + 1);
    } else {
      assert P.UploadNext(cfg, ev, pc, w, c) == P.Errored;
    }
  }

  lemma ThumbStoredOneMore(cfg: Config, w: World, id: Id, data: Data, i: nat, thumb: Data)
    requires i < |cfg.sizes| && ThumbsStored(cfg, w, id, data, i) && cfg.generate(data, cfg.sizes[i]).Some?
    ensures ThumbsStored(cfg, w.(objects := w.objects[Thumbnail(id, cfg.sizes[i]) := thumb]), id, data, i + 1)
  {
  }

  lemma NextThumbOk(cfg: Config, w: World, id: Id, u: Upload, i: nat)
    requires i <= |cfg.sizes| && ThumbsStored(cfg, w, id, u.data, i)
    ensures UploadPcHolds(cfg, w, id, u, P.NextThumb(cfg, u.data, ThumbnailMap(id, cfg.sizes[..i]), i))
  {
    assert cfg.sizes[..|cfg.sizes|] == cfg.sizes;
  }

  lemma DeleteWorkEffect(cfg: Config, w: World, up: map<Id, Upload>, ev: DeleteEvent, pc: P.DeletePc, c: Call)
    requires StoresOk(cfg, w, up) && DeleteMsgOk(w, ev, Running(0, 0, pc))
    ensures
      var w' := P.DeleteEffect(ev, pc, w, c);
      && StoresOk(cfg, w', up) && Evolves(cfg, w, w')
      && DeleteMsgOk(w', ev, Running(0, 0, P.DeleteNext(ev, pc, w, c)))
      && (forall other :: UploadStatusKept(w, w', other))
      && (forall other :: ProcessingKept(w, w', other))
  {
    var a := w.table[ev.avatarID];
    assert RowOk(cfg, ev.avatarID, a, up[ev.avatarID]);
    if Applied(c) {
      match pc
      case RemoveKey(i) =>
        assert ev.s3Keys[i] in ev.s3Keys;
        ObjectRemoved(cfg, w, up, ev.s3Keys[i]);
      case MarkDeleted => RowChanged(cfg, w, up, ev.avatarID, a.(processingStatus := Deleted, updatedAt := c.now));
      case _ =>
    }
  }

  lemma ReportEffectOk(cfg: Config, w: World, up: map<Id, Upload>, ev: UploadEvent, c: Call)
    requires StoresOk(cfg, w, up)
    ensures
      var w' := P.ReportEffect(ev, w, c);
      && StoresOk(cfg, w', up) && Evolves(cfg, w, w')
      && (forall other :: UploadStatusKept(w, w', other))
      && (forall other | other != ev.avatarID :: ProcessingKept(w, w', other))
  {
    if Applied(c) && ev.avatarID in w.table {
      var a := w.table[ev.avatarID];
      assert RowOk(cfg, ev.avatarID, a, up[ev.avatarID]);
      RowChanged(cfg, w, up, ev.avatarID, a.(processingStatus := ProcessingFailed, updatedAt := c.now));
    }
  }

  lemma HideEffect(cfg: Config, w: World, up: map<Id, Upload>, pc: S.DeletePc, c: Call)
    requires StoresOk(cfg, w, up)
    ensures
      var w' := S.DeleteEffect(pc, w, c);
      && StoresOk(cfg, w', up) && Evolves(cfg, w, w')
      && (forall other :: UploadStatusKept(w, w', other))
      && (forall other :: ProcessingKept(w, w', other))
  {
    if pc.Hide? && Applied(c) && Postgres.Live(w.table, pc.a.id) {
      var a := w.table[pc.a.id];
      assert RowOk(cfg, pc.a.id, a, up[pc.a.id]);
      RowChanged(cfg, w, up, pc.a.id, a.(deletedAt := Some(c.now), updatedAt := c.now));
    }
  }

  // ---------------------------------------------------------------------------------------
  // Everyone else
  // ---------------------------------------------------------------------------------------

  /** A step that changed the stores from w to w' leaves every participant's assertion true; the
      upload request and the upload event's handler of the avatar it worked on are the only ones
      that may have to see to it themselves. */
  lemma UploadsStable(cfg: Config, w: World, w': World, up: map<Id, Upload>)
    requires UploadsOk(w, up) && Evolves(cfg, w, w')
    requires forall id | id in up :: UploadStatusKept(w, w', id)
    ensures UploadsOk(w', up)
  {
    forall id | id in up
      ensures UploadOk(w', id, up[id])
    {
      UploadStable(cfg, w, w', id, up[id]);
    }
  }

  lemma DeletionsStable(cfg: Config, w: World, w': World, ds: seq<Deletion>)
    requires DeletionsOk(cfg, w, ds) && Evolves(cfg, w, w')
    ensures DeletionsOk(cfg, w', ds)
  {
    forall d | 0 <= d < |ds|
      ensures DeletionOk(cfg, w', ds[d])
    {
      DeletionStable(cfg, w, w', ds[d]);
    }
  }

  lemma ReadingsStable(cfg: Config, w: World, w': World, up: map<Id, Upload>, up': map<Id, Upload>, rs: seq<Reading>)
    requires ReadingsOk(cfg, w, up, rs) && Evolves(cfg, w, w') && UploadsKept(up, up')
    ensures ReadingsOk(cfg, w', up', rs)
  {
    forall r | 0 <= r < |rs|
      ensures ReadingOk(cfg, w', up', rs[r])
    {
      ReadingStable(cfg, w, w', up, up', rs[r]);
    }
  }

  lemma QueueStable(cfg: Config, w: World, w': World, up: map<Id, Upload>, up': map<Id, Upload>, q: seq<Message>)
    requires QueueOk(cfg, w, up, q) && Evolves(cfg, w, w') && UploadsKept(up, up')
    requires forall m | 0 <= m < |q| && q[m].UploadMsg? :: ProcessingKept(w, w', MsgAvatar(q[m]))
    ensures QueueOk(cfg, w', up', q)
  {
    forall m | 0 <= m < |q|
      ensures MsgOk(cfg, w', up', q[m])
    {
      MsgStable(cfg, w, w', up, up', q[m]);
    }
  }

  /** The stores are judged by what was uploaded, not by where the requests stand. */
  lemma SameUploads(cfg: Config, w: World, up: map<Id, Upload>, up': map<Id, Upload>)
    requires StoresOk(cfg, w, up) && UploadsKept(up, up')
    ensures StoresOk(cfg, w, up')
  {
    forall id | id in w.table
      ensures RowOk(cfg, id, w.table[id], up'[id]) && RowBacked(cfg, w, id, up'[id])
    {
      assert RowOk(cfg, id, w.table[id], up[id]) && RowBacked(cfg, w, id, up[id]);
    }
    forall k | k in w.objects
      ensures ObjectOk(cfg, k, w.objects[k], up'[k.id])
    {
      assert ObjectOk(cfg, k, w.objects[k], up[k.id]);
    }
  }

  lemma EvolvesRefl(cfg: Config, s: State)
    ensures Evolves(cfg, s.w, s.w) && UploadsKept(s.uploads, s.uploads)
    ensures forall id :: UploadStatusKept(s.w, s.w, id) && ProcessingKept(s.w, s.w, id)
  {
  }

  predicate SameEvent(a: Message, b: Message) {
    a.UploadMsg? == b.UploadMsg? && MsgAvatar(a) == MsgAvatar(b)
  }

  /** Which events are queued does not depend on the stages. */
  lemma EventsKept(ds: seq<Deletion>, q: seq<Message>, q': seq<Message>)
    requires OneEventEach(q) && AnnouncesOnce(ds, q)
    requires |q'| == |q| && forall k | 0 <= k < |q| :: SameEvent(q[k], q'[k])
    ensures OneEventEach(q') && AnnouncesOnce(ds, q')
  {
    forall i, j | 0 <= i < j < |q'| && q'[i].UploadMsg? == q'[j].UploadMsg?
      ensures MsgAvatar(q'[i]) != MsgAvatar(q'[j])
    {
      assert SameEvent(q[i], q'[i]) && SameEvent(q[j], q'[j]);
    }
    forall d, m | 0 <= d < |ds| && ds[d].pc.AnnounceDelete? && 0 <= m < |q'| && q'[m].DeleteMsg?
      ensures q'[m].deleteEvent.avatarID != ds[d].pc.id
    {
      assert SameEvent(q[m], q'[m]);
    }
  }

  lemma EventAdded(q: seq<Message>, msg: Message)
    requires OneEventEach(q)
    requires forall k | 0 <= k < |q| :: !SameEvent(q[k], msg)
    ensures OneEventEach(q + [msg])
  {
    var q' := q + [msg];
    forall i, j | 0 <= i < j < |q'| && q'[i].UploadMsg? == q'[j].UploadMsg?
      ensures MsgAvatar(q'[i]) != MsgAvatar(q'[j])
    {
      assert !SameEvent(q[i], msg);
    }
  }

  /** Replacing message m by one for the same event, as a step of its handler does. */
  lemma MsgReplaced(cfg: Config, s: State, w': World, m: nat, msg: Message)
    requires Inv(cfg, s) && m < |s.queue| && SameEvent(s.queue[m], msg)
    requires StoresOk(cfg, w', s.uploads) && Evolves(cfg, s.w, w') && MsgOk(cfg, w', s.uploads, msg)
    requires forall id :: UploadStatusKept(s.w, w', id)
    requires forall id | id != MsgAvatar(msg) || msg.DeleteMsg? :: ProcessingKept(s.w, w', id)
    ensures Inv(cfg, s.(w := w', queue := s.queue[m := msg]))
  {
    var q' := s.queue[m := msg];
    UploadsStable(cfg, s.w, w', s.uploads);
    DeletionsStable(cfg, s.w, w', s.deletions);
    ReadingsStable(cfg, s.w, w', s.uploads, s.uploads, s.readings);
    EventsKept(s.deletions, s.queue, q');
    forall k | 0 <= k < |q'|
      ensures MsgOk(cfg, w', s.uploads, q'[k])
    {
      if k != m {
        assert MsgOk(cfg, s.w, s.uploads, s.queue[k]);
        assert msg.UploadMsg? && s.queue[k].UploadMsg? ==> MsgAvatar(s.queue[k]) != MsgAvatar(s.queue[m]);
        MsgStable(cfg, s.w, w', s.uploads, s.uploads, s.queue[k]);
      }
    }
  }

  // ---------------------------------------------------------------------------------------
  // Steps
  // ---------------------------------------------------------------------------------------

  lemma InvInitial(cfg: Config)
    ensures Inv(cfg, INITIAL)
  {
  }

  lemma InvUploadStep(cfg: Config, s: State, id: Id, c: Call)
    requires Inv(cfg, s) && Enabled(cfg, s, UploadStep(id, c))
    ensures Inv(cfg, Apply(cfg, s, UploadStep(id, c)))
  {
    var s' := Apply(cfg, s, UploadStep(id, c));
    var up, u := s.uploads, s.uploads[id];
    assert UploadOk(s.w, id, u);
    assert id in s.w.table ==> RowOk(cfg, id, s.w.table[id], u);
    UploadStepEffect(cfg, s.w, up, id, c);
    UploadStepNext(cfg, s.w, id, u, c);
    SameUploads(cfg, s'.w, up, s'.uploads);
    UploadReplaced(cfg, s.w, s'.w, up, id, s'.uploads[id]);
    DeletionsStable(cfg, s.w, s'.w, s.deletions);
    ReadingsStable(cfg, s.w, s'.w, up, s'.uploads, s.readings);
    QueueStable(cfg, s.w, s'.w, up, s'.uploads, s.queue);
    InvAnnounced(cfg, s, id, c);
  }

  /** A step of one upload request leaves the assertions of the others true. */
  lemma UploadReplaced(cfg: Config, w: World, w': World, up: map<Id, Upload>, id: Id, u: Upload)
    requires UploadsOk(w, up) && UploadOk(w', id, u) && Evolves(cfg, w, w')
    requires forall other | other != id :: UploadStatusKept(w, w', other)
    ensures UploadsOk(w', up[id := u])
  {
    forall other | other in up && other != id
      ensures UploadOk(w', other, up[other])
    {
      UploadStable(cfg, w, w', other, up[other]);
    }
  }

  /** The event an upload request publishes, if it does so now, is the first of its avatar. */
  lemma InvAnnounced(cfg: Config, s: State, id: Id, c: Call)
    requires Inv(cfg, s) && Enabled(cfg, s, UploadStep(id, c))
    ensures var s' := Apply(cfg, s, UploadStep(id, c));
            && OneEventEach(s'.queue) && AnnouncesOnce(s.deletions, s'.queue)
            && (QueueOk(cfg, s'.w, s'.uploads, s.queue) ==> QueueOk(cfg, s'.w, s'.uploads, s'.queue))
  {
    var s' := Apply(cfg, s, UploadStep(id, c));
    var pc := s.uploads[id].pc;
    if pc.Announce? && Applied(c) {
      var msg := UploadMsg(S.UploadAnnouncement(pc.a), Ready);
      assert s'.queue == s.queue + [msg];
      assert UploadOk(s.w, id, s.uploads[id]) && RowOk(cfg, id, s.w.table[id], s.uploads[id]);
      forall k | 0 <= k < |s.queue|
        ensures !SameEvent(s.queue[k], msg)
      {
        assert MsgOk(cfg, s.w, s.uploads, s.queue[k]);
      }
      EventAdded(s.queue, msg);
      assert MsgOk(cfg, s'.w, s'.uploads, msg);
    } else {
      assert s'.queue == s.queue;
    }
  }

  lemma InvDeleteFind(cfg: Config, s: State, d: nat, c: Call, pick: Option<Id>, order: seq<string>)
    requires Inv(cfg, s) && Enabled(cfg, s, DeleteFind(d, c, pick, order))
    ensures Inv(cfg, Apply(cfg, s, DeleteFind(d, c, pick, order)))
  {
    var target := s.deletions[d].target;
    var s' := Apply(cfg, s, DeleteFind(d, c, pick, order));
    assert DeletionOk(cfg, s.w, s.deletions[d]);
    FindOk(cfg, s, target, c, pick, order);
    DeletionReplaced(cfg, s, s.w, d, s'.deletions[d]);
  }

  lemma FindOk(cfg: Config, s: State, target: S.Target, c: Call, pick: Option<Id>, order: seq<string>)
    requires Inv(cfg, s) && S.FindAdmits(target, s.w, c, pick, order) && !S.DeleteStart(target).DeleteRefused?
    ensures
      var del := Deletion(target, S.FindNext(target, s.w, c, pick, order));
      DeletionOk(cfg, s.w, del) && (del.pc.Hide? || del.pc.DeleteRefused?)
  {
    var pc := S.FindNext(target, s.w, c, pick, order);
    if pc.Hide? {
      assert RowOk(cfg, pc.a.id, s.w.table[pc.a.id], s.uploads[pc.a.id]);
      EntriesOf(cfg, pc.a, order);
    }
  }

  /** Replacing delete request d by a later state of it that wins nothing new but what is free. */
  lemma DeletionReplaced(cfg: Config, s: State, w': World, d: nat, del: Deletion)
    requires Inv(cfg, s) && d < |s.deletions|
    requires DeletionsOk(cfg, w', s.deletions) && DeletionOk(cfg, w', del)
    requires forall id | Winner(del, id) && !Winner(s.deletions[d], id) ::
               forall i | 0 <= i < |s.deletions| :: !Winner(s.deletions[i], id)
    requires del.pc.AnnounceDelete? ==>
               forall m | 0 <= m < |s.queue| && s.queue[m].DeleteMsg? :: s.queue[m].deleteEvent.avatarID != del.pc.id
    ensures var ds' := s.deletions[d := del];
            DeletionsOk(cfg, w', ds') && OneWinner(ds') && AnnouncesOnce(ds', s.queue)
  {
    var ds, ds' := s.deletions, s.deletions[d := del];
    forall i, j, id | 0 <= i < j < |ds'| && Winner(ds'[i], id)
      ensures !Winner(ds'[j], id)
    {
      assert i != d ==> ds'[i] == ds[i];
      assert j != d ==> ds'[j] == ds[j];
    }
  }

  lemma {:induction false} EntriesOf(cfg: Config, a: Avatar, order: seq<string>)
    requires a.thumbnails == map[] || Full(cfg, a)
    requires forall name | name in order :: name in a.thumbnails
    ensures KeysOf(a.id, S.Entries(a.thumbnails, order))
    ensures forall name | name in order :: a.thumbnails[name] in S.Entries(a.thumbnails, order)
    decreases order
  {
    if order != [] {
      ThumbnailMapEntries(a.id, cfg.sizes);
      assert order[|order| - 1] in order;
      EntriesOf(cfg, a, order[..|order| - 1]);
    }
  }

  lemma InvDeleteStep(cfg: Config, s: State, d: nat, c: Call)
    requires Inv(cfg, s) && Enabled(cfg, s, DeleteStep(d, c))
    ensures Inv(cfg, Apply(cfg, s, DeleteStep(d, c)))
  {
    var s' := Apply(cfg, s, DeleteStep(d, c));
    assert DeletionOk(cfg, s.w, s.deletions[d]);
    HideEffect(cfg, s.w, s.uploads, s.deletions[d].pc, c);
    UploadsStable(cfg, s.w, s'.w, s.uploads);
    DeletionsStable(cfg, s.w, s'.w, s.deletions);
    ReadingsStable(cfg, s.w, s'.w, s.uploads, s.uploads, s.readings);
    QueueStable(cfg, s.w, s'.w, s.uploads, s.uploads, s.queue);
    if s.deletions[d].pc.Hide? {
      InvHidden(cfg, s, d, c);
    } else {
      InvDeleteAnnounced(cfg, s, d, c);
    }
  }

  /** The request that hides a live row is its first winner. */
  lemma InvHidden(cfg: Config, s: State, d: nat, c: Call)
    requires Inv(cfg, s) && Enabled(cfg, s, DeleteStep(d, c)) && s.deletions[d].pc.Hide?
    requires DeletionsOk(cfg, S.DeleteEffect(s.deletions[d].pc, s.w, c), s.deletions)
    ensures var s' := Apply(cfg, s, DeleteStep(d, c));
            && s'.queue == s.queue && DeletionsOk(cfg, s'.w, s'.deletions)
            && OneWinner(s'.deletions) && AnnouncesOnce(s'.deletions, s.queue)
  {
    var s' := Apply(cfg, s, DeleteStep(d, c));
    var del' := s'.deletions[d];
    assert s'.queue == s.queue;
    assert DeletionOk(cfg, s.w, s.deletions[d]);
    if del'.pc.AnnounceDelete? {
      var id := del'.pc.id;
      assert Postgres.Live(s.w.table, id);
      forall i | 0 <= i < |s.deletions|
        ensures !Winner(s.deletions[i], id)
      {
        assert DeletionOk(cfg, s.w, s.deletions[i]);
      }
      forall m | 0 <= m < |s.queue| && s.queue[m].DeleteMsg?
        ensures s.queue[m].deleteEvent.avatarID != id
      {
        assert MsgOk(cfg, s.w, s.uploads, s.queue[m]);
      }
    }
    DeletionReplaced(cfg, s, s'.w, d, del');
  }

  /** The winner publishes the only delete event of its avatar. */
  lemma InvDeleteAnnounced(cfg: Config, s: State, d: nat, c: Call)
    requires Inv(cfg, s) && Enabled(cfg, s, DeleteStep(d, c)) && s.deletions[d].pc.AnnounceDelete?
    ensures var s' := Apply(cfg, s, DeleteStep(d, c));
            && QueueOk(cfg, s.w, s.uploads, s'.queue) && DeletionsOk(cfg, s.w, s'.deletions)
            && OneWinner(s'.deletions) && OneEventEach(s'.queue) && AnnouncesOnce(s'.deletions, s'.queue)
  {
    var s' := Apply(cfg, s, DeleteStep(d, c));
    var del, id := s.deletions[d], s.deletions[d].pc.id;
    assert DeletionOk(cfg, s.w, del) && Winner(del, id);
    DeletionReplaced(cfg, s, s.w, d, s'.deletions[d]);
    if Applied(c) {
      assert s'.queue == s.queue + [DeleteMsg(DeleteEvent(id, del.pc.keys), Ready)];
      DeleteEventAdded(cfg, s, d);
      OnlyAnnouncer(s'.deletions, d, id);
    } else {
      assert s'.queue == s.queue;
    }
  }

  /** The winner's event is sound, and the first of its avatar. */
  lemma DeleteEventAdded(cfg: Config, s: State, d: nat)
    requires Inv(cfg, s) && d < |s.deletions| && s.deletions[d].pc.AnnounceDelete?
    ensures var q' := s.queue + [DeleteMsg(DeleteEvent(s.deletions[d].pc.id, s.deletions[d].pc.keys), Ready)];
            QueueOk(cfg, s.w, s.uploads, q') && OneEventEach(q')
  {
    var id := s.deletions[d].pc.id;
    var msg := DeleteMsg(DeleteEvent(id, s.deletions[d].pc.keys), Ready);
    assert DeletionOk(cfg, s.w, s.deletions[d]) && Winner(s.deletions[d], id);
    assert MsgOk(cfg, s.w, s.uploads, msg);
    assert forall k | 0 <= k < |s.queue| :: !SameEvent(s.queue[k], msg);
    EventAdded(s.queue, msg);
  }

  /** While a winner stands, nobody announces the same avatar. */
  lemma OnlyAnnouncer(ds: seq<Deletion>, d: nat, id: Id)
    requires OneWinner(ds) && d < |ds| && ds[d].pc == S.Won(id)
    ensures forall i | 0 <= i < |ds| && ds[i].pc.AnnounceDelete? :: ds[i].pc.id != id
  {
    assert Winner(ds[d], id);
    forall i | 0 <= i < |ds| && ds[i].pc.AnnounceDelete?
      ensures ds[i].pc.id != id
    {
      assert Winner(ds[i], ds[i].pc.id);
    }
  }

  lemma InvReadLookup(cfg: Config, s: State, r: nat, c: Call, pick: Option<Id>)
    requires Inv(cfg, s) && Enabled(cfg, s, ReadLookup(r, c, pick))
    ensures Inv(cfg, Apply(cfg, s, ReadLookup(r, c, pick)))
  {
    var s' := Apply(cfg, s, ReadLookup(r, c, pick));
    LookupOk(cfg, s, s.readings[r].query, c, pick);
    assert ReadingOk(cfg, s.w, s.uploads, s'.readings[r]);
  }

  /** A read that found its row saw it as it is. */
  lemma LookupOk(cfg: Config, s: State, q: S.Query, c: Call, pick: Option<Id>)
    requires RowsOk(cfg, s.w.table, s.uploads) && S.LookupAdmits(q, s.w, pick)
    ensures ReadingOk(cfg, s.w, s.uploads, Reading(q, S.LookupNext(q, s.w, c, pick)))
  {
    var pc := S.LookupNext(q, s.w, c, pick);
    if pc.Open? {
      assert RowOk(cfg, pc.a.id, s.w.table[pc.a.id], s.uploads[pc.a.id]);
    }
  }

  lemma InvReadOpen(cfg: Config, s: State, r: nat, c: Call)
    requires Inv(cfg, s) && Enabled(cfg, s, ReadOpen(r, c))
    ensures Inv(cfg, Apply(cfg, s, ReadOpen(r, c)))
  {
    var s' := Apply(cfg, s, ReadOpen(r, c));
    var a, key := s.readings[r].pc.a, s.readings[r].pc.key;
    var row := s.w.table[a.id];
    assert RowOk(cfg, a.id, row, s.uploads[a.id]) && RowBacked(cfg, s.w, a.id, s.uploads[a.id]);
    ThumbnailMapEntries(a.id, cfg.sizes);
    if s.readings[r].query.ThumbnailOf? {
      var px :| px in cfg.sizes && s.readings[r].query.size == SizeName(px);
      assert key == Thumbnail(a.id, px);
      var j :| 0 <= j < |cfg.sizes| && cfg.sizes[j] == px;
    }
    assert key in s.w.objects ==> ObjectOk(cfg, key, s.w.objects[key], s.uploads[a.id]);
    assert ReadingOk(cfg, s.w, s.uploads, s'.readings[r]);
  }

  lemma InvWork(cfg: Config, s: State, m: nat, c: Call)
    requires Inv(cfg, s) && Enabled(cfg, s, Work(m, c))
    ensures Inv(cfg, Apply(cfg, s, Work(m, c)))
  {
    assert MsgOk(cfg, s.w, s.uploads, s.queue[m]);
    match s.queue[m]
    case UploadMsg(ev, Running(worker, attempt, pc)) =>
      UploadWorkEffect(cfg, s.w, s.uploads, ev, pc, c);
      UploadWorkNext(cfg, s.w, s.uploads, ev, pc, c);
      MsgReplaced(cfg, s, P.UploadEffect(cfg, ev, pc, s.w, c), m,
                  UploadMsg(ev, Running(worker, attempt, P.UploadNext(cfg, ev, pc, s.w, c))));
    case DeleteMsg(ev, Running(worker, attempt, pc)) =>
      DeleteWorkEffect(cfg, s.w, s.uploads, ev, pc, c);
      MsgReplaced(cfg, s, P.DeleteEffect(ev, pc, s.w, c), m,
                  DeleteMsg(ev, Running(worker, attempt, P.DeleteNext(ev, pc, s.w, c))));
  }

  lemma InvReport(cfg: Config, s: State, m: nat, c: Call)
    requires Inv(cfg, s) && Enabled(cfg, s, Report(m, c))
    ensures Inv(cfg, Apply(cfg, s, Report(m, c)))
  {
    assert MsgOk(cfg, s.w, s.uploads, s.queue[m]);
    ReportEffectOk(cfg, s.w, s.uploads, s.queue[m].uploadEvent, c);
    MsgReplaced(cfg, s, P.ReportEffect(s.queue[m].uploadEvent, s.w, c), m, Reported(s.queue[m], s.w.table, c));
  }

  /** Moves of a message that touch no store. */
  lemma InvMove(cfg: Config, s: State, e: Event)
    requires Inv(cfg, s) && Enabled(cfg, s, e)
    requires e.Deliver? || e.Take? || e.Retry? || e.Finish? || e.SettleMsg?
    ensures Inv(cfg, Apply(cfg, s, e))
  {
    var s' := Apply(cfg, s, e);
    var msg, msg' := s.queue[e.m], s'.queue[e.m];
    assert MsgOk(cfg, s.w, s.uploads, msg);
    MoveOk(cfg, s, e);
    EvolvesRefl(cfg, s);
    assert s' == s.(w := s.w, queue := s.queue[e.m := msg']);
    MsgReplaced(cfg, s, s.w, e.m, msg');
  }

  lemma MoveOk(cfg: Config, s: State, e: Event)
    requires Enabled(cfg, s, e) && (e.Deliver? || e.Take? || e.Retry? || e.Finish? || e.SettleMsg?)
    requires MsgOk(cfg, s.w, s.uploads, s.queue[e.m])
    ensures var msg' := Apply(cfg, s, e).queue[e.m];
            SameEvent(s.queue[e.m], msg') && MsgOk(cfg, s.w, s.uploads, msg')
  {
  }

  lemma InvCrash(cfg: Config, s: State, worker: Worker)
    requires Inv(cfg, s)
    ensures Inv(cfg, Apply(cfg, s, Crash(worker)))
  {
    var s' := Apply(cfg, s, Crash(worker));
    forall m | 0 <= m < |s'.queue|
      ensures MsgOk(cfg, s'.w, s'.uploads, s'.queue[m]) && SameEvent(s.queue[m], s'.queue[m])
    {
      assert MsgOk(cfg, s.w, s.uploads, s.queue[m]);
    }
    EventsKept(s.deletions, s.queue, s'.queue);
  }

  lemma InvStart(cfg: Config, s: State, e: Event)
    requires Inv(cfg, s) && Enabled(cfg, s, e)
    requires e.StartUpload? || e.StartDelete? || e.StartRead? || e.Cancel?
    ensures Inv(cfg, Apply(cfg, s, e))
  {
    var s' := Apply(cfg, s, e);
    EvolvesRefl(cfg, s);
    if e.StartUpload? {
      SameUploads(cfg, s.w, s.uploads, s'.uploads);
      ReadingsStable(cfg, s.w, s.w, s.uploads, s'.uploads, s.readings);
      QueueStable(cfg, s.w, s.w, s.uploads, s'.uploads, s.queue);
    }
  }

  /** Queued messages keep their events, and a handler's counter only restarts or takes a step of
      its own. */
  lemma UploadMsgMoves(cfg: Config, s: State, e: Event, m: nat)
    requires Enabled(cfg, s, e) && m < |s.queue| && s.queue[m].UploadMsg?
    ensures var msg' := Apply(cfg, s, e).queue[m];
            && msg'.UploadMsg? && msg'.uploadEvent == s.queue[m].uploadEvent
            && (|| msg' == s.queue[m] || !msg'.uploadStage.Running? || msg'.uploadStage.pc.ReadRow?
                || (&& e.Work? && e.m == m && s.queue[m].uploadStage.Running?
                    && msg'.uploadStage.pc
                       == P.UploadNext(cfg, s.queue[m].uploadEvent, s.queue[m].uploadStage.pc, s.w, e.call)))
  {
    match e
    case UploadStep(_, _) => QueueGrows(cfg, s, e);
    case DeleteStep(_, _) => QueueGrows(cfg, s, e);
    case _ =>
  }

  /** Only requests add messages, and what they add is ready. */
  lemma QueueGrows(cfg: Config, s: State, e: Event)
    requires Enabled(cfg, s, e)
    ensures var q' := Apply(cfg, s, e).queue;
            && |s.queue| <= |q'|
            && (e.UploadStep? || e.DeleteStep? ==> q'[..|s.queue|] == s.queue)
            && (forall m | |s.queue| <= m < |q'| ::
                  if q'[m].UploadMsg? then e.UploadStep? && q'[m].uploadStage.Ready?
                  else e.DeleteStep? && q'[m].deleteStage.Ready?)
  {
    var q' := Apply(cfg, s, e).queue;
    match e
    case UploadStep(id, c) =>
      var sent := S.UploadSent(s.uploads[id].pc, [], c);
      assert q'[..|s.queue|] == s.queue;
      assert forall m | |s.queue| <= m < |q'| :: q'[m] == Posted(sent[m - |s.queue|]);
    case DeleteStep(d, c) =>
      var sent := S.DeleteSent(s.deletions[d].pc, [], c);
      assert q'[..|s.queue|] == s.queue;
      assert forall m | |s.queue| <= m < |q'| :: q'[m] == Posted(sent[m - |s.queue|]);
    case _ =>
  }

  /** The invariant is inductive. */
  lemma InvStep(cfg: Config, s: State, e: Event)
    requires Inv(cfg, s) && Enabled(cfg, s, e)
    ensures Inv(cfg, Apply(cfg, s, e))
  {
    match e
    case UploadStep(id, c) => InvUploadStep(cfg, s, id, c);
    case DeleteFind(d, c, pick, order) => InvDeleteFind(cfg, s, d, c, pick, order);
    case DeleteStep(d, c) => InvDeleteStep(cfg, s, d, c);
    case ReadLookup(r, c, pick) => InvReadLookup(cfg, s, r, c, pick);
    case ReadOpen(r, c) => InvReadOpen(cfg, s, r, c);
    case Work(m, c) => InvWork(cfg, s, m, c);
    case Report(m, c) => InvReport(cfg, s, m, c);
    case Crash(worker) => InvCrash(cfg, s, worker);
    case Deliver(_, _) => InvMove(cfg, s, e);
    case Take(_) => InvMove(cfg, s, e);
    case Retry(_) => InvMove(cfg, s, e);
    case Finish(_) => InvMove(cfg, s, e);
    case SettleMsg(_, _) => InvMove(cfg, s, e);
    case StartUpload(_, _, _, _) => InvStart(cfg, s, e);
    case StartDelete(_) => InvStart(cfg, s, e);
    case StartRead(_) => InvStart(cfg, s, e);
    case Cancel(_) => InvStart(cfg, s, e);
  }

  lemma {:induction false} InvRun(cfg: Config, s: State, es: seq<Event>, s': State)
    requires Inv(cfg, s) && Run(cfg, s, es, s')
    ensures Inv(cfg, s')
    decreases es
  {
    if es != [] {
      InvStep(cfg, s, es[0]);
      InvRun(cfg, Apply(cfg, s, es[0]), es[1..], s');
    }
  }

  lemma InvReachable(cfg: Config, s: State)
    requires Reachable(cfg, s)
    ensures Inv(cfg, s)
  {
    var es :| Run(cfg, INITIAL, es, s);
    InvInitial(cfg);
    InvRun(cfg, INITIAL, es, s);
  }
}
