/** What the invariant means for clients and operators, in every reachable state and over
    every run. */
module Lifecycle {
  import opened Wrappers
  import opened KeyLayout
  import opened Avatars
  import opened Calls
  import opened Protocol
  import opened Invariant
  import Preservation
  import Postgres
  import S = Service

  // ---------------------------------------------------------------------------------------
  // Monotonicity over runs
  // ---------------------------------------------------------------------------------------

  /** What one step does to the stores and the requests. */
  ghost predicate Advances(cfg: Config, s: State, s': State) {
    Evolves(cfg, s.w, s'.w) && UploadsKept(s.uploads, s'.uploads)
  }

  lemma UploadStepEvolves(cfg: Config, s: State, id: Id, c: Call)
    requires Inv(cfg, s) && Enabled(cfg, s, UploadStep(id, c))
    ensures Advances(cfg, s, Apply(cfg, s, UploadStep(id, c)))
  {
    assert UploadOk(s.w, id, s.uploads[id]);
    Preservation.UploadStepEffect(cfg, s.w, s.uploads, id, c);
  }

  lemma WorkEvolves(cfg: Config, s: State, m: nat, c: Call)
    requires Inv(cfg, s) && Enabled(cfg, s, Work(m, c))
    ensures Advances(cfg, s, Apply(cfg, s, Work(m, c)))
  {
    assert MsgOk(cfg, s.w, s.uploads, s.queue[m]);
    match s.queue[m] {
      case UploadMsg(ev, Running(_, _, pc)) => Preservation.UploadWorkEffect(cfg, s.w, s.uploads, ev, pc, c);
      case DeleteMsg(ev, Running(_, _, pc)) => Preservation.DeleteWorkEffect(cfg, s.w, s.uploads, ev, pc, c);
    }
  }

  lemma ReportEvolves(cfg: Config, s: State, m: nat, c: Call)
    requires Inv(cfg, s) && Enabled(cfg, s, Report(m, c))
    ensures Advances(cfg, s, Apply(cfg, s, Report(m, c)))
  {
    assert MsgOk(cfg, s.w, s.uploads, s.queue[m]);
    Preservation.ReportEffectOk(cfg, s.w, s.uploads, s.queue[m].uploadEvent, c);
  }

  lemma DeleteStepEvolves(cfg: Config, s: State, d: nat, c: Call)
    requires Inv(cfg, s) && Enabled(cfg, s, DeleteStep(d, c))
    ensures Advances(cfg, s, Apply(cfg, s, DeleteStep(d, c)))
  {
    Preservation.HideEffect(cfg, s.w, s.uploads, s.deletions[d].pc, c);
  }

  lemma StepEvolves(cfg: Config, s: State, e: Event)
    requires Inv(cfg, s) && Enabled(cfg, s, e)
    ensures Advances(cfg, s, Apply(cfg, s, e))
  {
    match e
    case UploadStep(id, c) => UploadStepEvolves(cfg, s, id, c);
    case DeleteStep(d, c) => DeleteStepEvolves(cfg, s, d, c);
    case Work(m, c) => WorkEvolves(cfg, s, m, c);
    case Report(m, c) => ReportEvolves(cfg, s, m, c);
    case _ => Preservation.EvolvesRefl(cfg, s);
  }

  /** Over any run: rows stay, keep their identity, and neither deletion, nor a finished upload,
      nor full thumbnails are ever undone; requests keep what they were asked. */
  lemma {:induction false} RunEvolves(cfg: Config, s: State, es: seq<Event>, s': State)
    requires Inv(cfg, s) && Run(cfg, s, es, s')
    ensures Inv(cfg, s') && Evolves(cfg, s.w, s'.w) && UploadsKept(s.uploads, s'.uploads)
    decreases es
  {
    if es == [] {
      Preservation.EvolvesRefl(cfg, s);
    } else {
      var next := Apply(cfg, s, es[0]);
      StepEvolves(cfg, s, es[0]);
      Preservation.InvStep(cfg, s, es[0]);
      RunEvolves(cfg, next, es[1..], s');
      EvolvesTransitive(cfg, s.w, next.w, s'.w, s.uploads);
    }
  }

  lemma EvolvesTransitive(cfg: Config, w: World, w': World, w'': World, up: map<Id, Upload>)
    requires StoresOk(cfg, w, up) && Evolves(cfg, w, w') && Evolves(cfg, w', w'')
    ensures Evolves(cfg, w, w'')
  {
    forall k | k in w.objects && Postgres.Live(w''.table, k.id)
      ensures k in w''.objects
    {
      assert k.id in w.table && Postgres.Live(w'.table, k.id);
    }
  }

  // ---------------------------------------------------------------------------------------
  // Uploads are served
  // ---------------------------------------------------------------------------------------

  /** A live row that says uploaded has its original in the bucket, byte for byte what was
      uploaded, and its size is that length. */
  lemma UploadedIsStored(cfg: Config, s: State, id: Id)
    requires Reachable(cfg, s)
    requires Postgres.Live(s.w.table, id) && s.w.table[id].uploadStatus == Uploaded
    ensures id in s.uploads
    ensures Original(id) in s.w.objects && s.w.objects[Original(id)] == s.uploads[id].data
    ensures s.w.table[id].s3Key == Original(id) && s.w.table[id].sizeBytes == |s.uploads[id].data|
  {
    Preservation.InvReachable(cfg, s);
    assert RowOk(cfg, id, s.w.table[id], s.uploads[id]) && RowBacked(cfg, s.w, id, s.uploads[id]);
    assert ObjectOk(cfg, Original(id), s.w.objects[Original(id)], s.uploads[id]);
  }

  /** GetFile with no fault and nobody in between. */
  function FaultFreeFile(w: World, id: Id): Reply<S.File> {
    var q := S.FileOf(id);
    S.ReadAnswer(S.OpenNext(q, S.LookupNext(q, w, FAULT_FREE, None), w, FAULT_FREE))
  }

  function FaultFreeThumbnail(w: World, id: Id, size: string): Reply<S.File> {
    var q := S.ThumbnailOf(id, size);
    S.ReadAnswer(S.OpenNext(q, S.LookupNext(q, w, FAULT_FREE, None), w, FAULT_FREE))
  }

  /** Once Upload has answered a row, GetFile answers exactly the uploaded bytes until the
      avatar is deleted, whatever else happens in between. */
  lemma UploadIsServed(cfg: Config, s: State, es: seq<Event>, s': State, id: Id)
    requires Reachable(cfg, s) && id in s.uploads && s.uploads[id].pc.Answered?
    requires Run(cfg, s, es, s')
    ensures FaultFreeFile(s'.w, id) ==
            if Postgres.Live(s'.w.table, id)
            then Ok(S.File(s.uploads[id].data, cfg.sniff(s.uploads[id].data).mimeType, |s.uploads[id].data|))
            else NotFound
  {
    Preservation.InvReachable(cfg, s);
    RunEvolves(cfg, s, es, s');
    assert UploadOk(s.w, id, s.uploads[id]);
    AnsweredIsServed(cfg, s', id);
  }

  lemma AnsweredIsServed(cfg: Config, s: State, id: Id)
    requires Inv(cfg, s) && id in s.uploads && s.uploads[id].pc.Answered?
    ensures Postgres.Live(s.w.table, id) ==>
              FaultFreeFile(s.w, id)
              == Ok(S.File(s.uploads[id].data, cfg.sniff(s.uploads[id].data).mimeType, |s.uploads[id].data|))
    ensures !Postgres.Live(s.w.table, id) ==> FaultFreeFile(s.w, id) == NotFound
  {
    assert UploadOk(s.w, id, s.uploads[id]);
    if Postgres.Live(s.w.table, id) {
      assert RowOk(cfg, id, s.w.table[id], s.uploads[id]) && RowBacked(cfg, s.w, id, s.uploads[id]);
      assert ObjectOk(cfg, Original(id), s.w.objects[Original(id)], s.uploads[id]);
      var q := S.FileOf(id);
      assert S.LookupNext(q, s.w, FAULT_FREE, None) == S.Open(s.w.table[id], Original(id));
    }
  }

  /** In every reachable state a row tells what was uploaded: whose it is, its type, length and
      dimensions as sniffed, and the file name, cut to what the column holds. */
  lemma MetadataIsFaithful(cfg: Config, s: State, id: Id)
    requires Reachable(cfg, s) && id in s.w.table
    ensures id in s.uploads
    ensures
      var a, u := s.w.table[id], s.uploads[id];
      && a.id == id && a.userID == u.user && a.s3Key == Original(id) && a.sizeBytes == |u.data|
      && a.mimeType == cfg.sniff(u.data).mimeType
      && a.width == cfg.sniff(u.data).width && a.height == cfg.sniff(u.data).height
      && a.fileName <= u.fileName && |a.fileName| == (if |u.fileName| <= 255 then |u.fileName| else 255)
  {
    Preservation.InvReachable(cfg, s);
    assert RowOk(cfg, id, s.w.table[id], s.uploads[id]);
  }

  // ---------------------------------------------------------------------------------------
  // Thumbnails
  // ---------------------------------------------------------------------------------------

  /** The thumbnail column is all or nothing, completed means all, and while the row is live
      every size has its object, generated from the uploaded bytes. */
  lemma ThumbnailsAllOrNothing(cfg: Config, s: State, id: Id)
    requires Reachable(cfg, s) && id in s.w.table
    ensures s.w.table[id].thumbnails == map[] || Full(cfg, s.w.table[id])
    ensures s.w.table[id].processingStatus == Completed ==> Full(cfg, s.w.table[id])
    ensures Full(cfg, s.w.table[id]) && Postgres.Live(s.w.table, id) ==>
              id in s.uploads && forall px | px in cfg.sizes ::
                Thumbnail(id, px) in s.w.objects &&
                cfg.generate(s.uploads[id].data, px) == Some(s.w.objects[Thumbnail(id, px)])
  {
    Preservation.InvReachable(cfg, s);
    assert RowOk(cfg, id, s.w.table[id], s.uploads[id]) && RowBacked(cfg, s.w, id, s.uploads[id]);
    if Full(cfg, s.w.table[id]) && Postgres.Live(s.w.table, id) {
      forall px | px in cfg.sizes
        ensures Thumbnail(id, px) in s.w.objects
        ensures cfg.generate(s.uploads[id].data, px) == Some(s.w.objects[Thumbnail(id, px)])
      {
        var j :| 0 <= j < |cfg.sizes| && cfg.sizes[j] == px;
        assert ObjectOk(cfg, Thumbnail(id, px), s.w.objects[Thumbnail(id, px)], s.uploads[id]);
      }
    }
  }

  /** Full thumbnails are never emptied or changed, under any redelivery or status regression. */
  lemma FullThumbnailsStay(cfg: Config, s: State, es: seq<Event>, s': State, id: Id)
    requires Reachable(cfg, s) && id in s.w.table && Full(cfg, s.w.table[id]) && Run(cfg, s, es, s')
    ensures id in s'.w.table && s'.w.table[id].thumbnails == s.w.table[id].thumbnails
  {
    Preservation.InvReachable(cfg, s);
    RunEvolves(cfg, s, es, s');
  }

  /** For a live avatar with full thumbnails, ThumbnailFile serves exactly the configured sizes. */
  lemma ThumbnailsAreServed(cfg: Config, s: State, id: Id, size: string)
    requires Reachable(cfg, s) && Postgres.Live(s.w.table, id) && Full(cfg, s.w.table[id])
    ensures id in s.uploads
    ensures forall px | px in cfg.sizes && size == SizeName(px) ::
              cfg.generate(s.uploads[id].data, px).Some? &&
              FaultFreeThumbnail(s.w, id, size)
              == Ok(S.File(cfg.generate(s.uploads[id].data, px).value, "image/jpeg", 0))
    ensures (forall px | px in cfg.sizes :: size != SizeName(px)) ==> FaultFreeThumbnail(s.w, id, size) == NotFound
  {
    Preservation.InvReachable(cfg, s);
    assert RowOk(cfg, id, s.w.table[id], s.uploads[id]);
    ThumbnailsAllOrNothing(cfg, s, id);
    ThumbnailMapEntries(id, cfg.sizes);
    EntryIsServed(s.w, id, size);
  }

  /** ThumbnailFile looks the size up in the row. */
  lemma EntryIsServed(w: World, id: Id, size: string)
    requires Postgres.Live(w.table, id)
    ensures FaultFreeThumbnail(w, id, size) ==
            if size !in w.table[id].thumbnails || w.table[id].thumbnails[size] !in w.objects then NotFound
            else Ok(S.File(w.objects[w.table[id].thumbnails[size]], "image/jpeg", 0))
  {
  }

  // ---------------------------------------------------------------------------------------
  // Nothing gets stuck
  // ---------------------------------------------------------------------------------------

  /** The message is still with the broker or a worker. */
  predicate InFlight<Pc>(stage: Stage<Pc>) {
    !stage.Acked? && !stage.Dead?
  }

  /** A live avatar that is still pending or processing although its event was published has
      that event in flight, or buried after UploadFailed's write got no good answer. */
  lemma NoLiveAvatarStuck(cfg: Config, s: State, m: nat)
    requires Reachable(cfg, s) && m < |s.queue| && s.queue[m].UploadMsg?
    requires Postgres.Live(s.w.table, s.queue[m].uploadEvent.avatarID)
    requires s.w.table[s.queue[m].uploadEvent.avatarID].processingStatus in {Pending, Processing}
    ensures InFlight(s.queue[m].uploadStage) || s.queue[m].uploadStage == Dead(false)
  {
    Preservation.InvReachable(cfg, s);
    assert MsgOk(cfg, s.w, s.uploads, s.queue[m]);
  }

  ghost predicate Published(s: State, id: Id) {
    exists m :: 0 <= m < |s.queue| && s.queue[m].UploadMsg? && s.queue[m].uploadEvent.avatarID == id
  }

  /** When the upload queue has drained and every burial was reported, every live avatar whose
      event was published is completed or failed. */
  lemma DrainedMeansConcluded(cfg: Config, s: State, id: Id)
    requires Reachable(cfg, s)
    requires forall m | 0 <= m < |s.queue| && s.queue[m].UploadMsg? ::
               s.queue[m].uploadStage == Acked || s.queue[m].uploadStage == Dead(true)
    requires Published(s, id) && Postgres.Live(s.w.table, id)
    ensures s.w.table[id].processingStatus in {Completed, ProcessingFailed}
  {
    Preservation.InvReachable(cfg, s);
    var m :| 0 <= m < |s.queue| && s.queue[m].UploadMsg? && s.queue[m].uploadEvent.avatarID == id;
    SettledMeansConcluded(cfg, s.w, s.uploads, s.queue[m]);
  }

  lemma SettledMeansConcluded(cfg: Config, w: World, up: map<Id, Upload>, msg: Message)
    requires MsgOk(cfg, w, up, msg) && msg.UploadMsg?
    requires msg.uploadStage == Acked || msg.uploadStage == Dead(true)
    ensures Concluded(w.table, msg.uploadEvent.avatarID)
  {
  }

  // ---------------------------------------------------------------------------------------
  // Two-step reads
  // ---------------------------------------------------------------------------------------

  /** What a client that saw the live row `a` may be told when its object is read in w. */
  ghost predicate FairAnswer(cfg: Config, w: World, up: map<Id, Upload>, q: S.Query, a: Avatar, c: Call, answer: Reply<S.File>)
    requires a.id in w.table && a.id in up
  {
    && (answer.Fault? <==> !c.outcome.Success?)
    && (answer.NotFound? ==> w.table[a.id].deletedAt.Some?)
    && (answer.Ok? ==>
          var data, file := up[a.id].data, answer.value;
          if q.ThumbnailOf?
          then file.contentType == "image/jpeg" &&
               exists px :: px in cfg.sizes && q.size == SizeName(px) && cfg.generate(data, px) == Some(file.body)
          else file == S.File(data, cfg.sniff(data).mimeType, |data|))
  }

  /** GetFile, LatestFile and ThumbnailFile read the row in s1 and the object in s2, and anything may
      happen between. If the row said uploaded, or had the thumbnail, the client is told an error
      exactly when the object read did not succeed; a content answer is exactly the upload of that
      avatar, or the thumbnail of that size made from it; and not found means that the avatar was live
      in s1 and is deleted in s2. */
  lemma ReadsAreLinearizable(cfg: Config, s1: State, r: nat, c1: Call, pick: Option<Id>, es: seq<Event>, s2: State, c2: Call)
    requires Reachable(cfg, s1) && Enabled(cfg, s1, ReadLookup(r, c1, pick))
    requires Run(cfg, Apply(cfg, s1, ReadLookup(r, c1, pick)), es, s2)
    requires r < |s2.readings| && s2.readings[r] == Apply(cfg, s1, ReadLookup(r, c1, pick)).readings[r]
    requires s2.readings[r].pc.Open?
    requires s2.readings[r].pc.a.uploadStatus == Uploaded || s2.readings[r].query.ThumbnailOf?
    ensures
      var a, q := s2.readings[r].pc.a, s2.readings[r].query;
      && Postgres.Live(s1.w.table, a.id) && s1.w.table[a.id] == a && a.id in s1.uploads
      && a.id in s2.uploads && s2.uploads[a.id].data == s1.uploads[a.id].data && a.id in s2.w.table
      && FairAnswer(cfg, s2.w, s2.uploads, q, a, c2, S.ReadAnswer(S.OpenNext(q, s2.readings[r].pc, s2.w, c2)))
  {
    var next := Apply(cfg, s1, ReadLookup(r, c1, pick));
    var q := s1.readings[r].query;
    Preservation.InvReachable(cfg, s1);
    Preservation.InvStep(cfg, s1, ReadLookup(r, c1, pick));
    RunEvolves(cfg, next, es, s2);
    assert s2.readings[r] == s1.readings[r].(pc := S.LookupNext(q, s1.w, c1, pick));
    LookupSees(cfg, s1, q, c1, pick);
    OpenAnswers(cfg, s2, r, c2);
  }

  lemma LookupSees(cfg: Config, s: State, q: S.Query, c: Call, pick: Option<Id>)
    requires Inv(cfg, s) && S.LookupAdmits(q, s.w, pick) && S.LookupNext(q, s.w, c, pick).Open?
    ensures var a := S.LookupNext(q, s.w, c, pick).a;
            Postgres.Live(s.w.table, a.id) && s.w.table[a.id] == a && a.id in s.uploads
  {
    var id := match q case FileOf(id) => id case ThumbnailOf(id, _) => id case LatestFileOf(_) => pick.value;
    assert RowOk(cfg, id, s.w.table[id], s.uploads[id]);
  }

  /** The object a read is about to open. */
  lemma OpenedOriginal(cfg: Config, w: World, up: map<Id, Upload>, q: S.Query, a: Avatar, key: Key)
    requires StoresOk(cfg, w, up) && SeenRow(cfg, w, a) && OpenedKey(q, a, key)
    requires !q.ThumbnailOf? && a.uploadStatus == Uploaded
    ensures a.id in up && a.mimeType == cfg.sniff(up[a.id].data).mimeType && a.sizeBytes == |up[a.id].data|
    ensures if key in w.objects then w.objects[key] == up[a.id].data else w.table[a.id].deletedAt.Some?
  {
    assert RowOk(cfg, a.id, w.table[a.id], up[a.id]) && RowBacked(cfg, w, a.id, up[a.id]);
    assert key == Original(a.id);
    assert key in w.objects ==> ObjectOk(cfg, key, w.objects[key], up[a.id]);
  }

  lemma OpenedThumbnail(cfg: Config, w: World, up: map<Id, Upload>, q: S.Query, a: Avatar, key: Key)
    requires StoresOk(cfg, w, up) && SeenRow(cfg, w, a) && OpenedKey(q, a, key) && q.ThumbnailOf?
    ensures a.id in up
    ensures if key in w.objects
            then exists px :: px in cfg.sizes && q.size == SizeName(px) && cfg.generate(up[a.id].data, px) == Some(w.objects[key])
            else w.table[a.id].deletedAt.Some?
  {
    assert RowOk(cfg, a.id, w.table[a.id], up[a.id]) && RowBacked(cfg, w, a.id, up[a.id]);
    ThumbnailMapEntries(a.id, cfg.sizes);
    var px :| px in cfg.sizes && q.size == SizeName(px);
    var j :| 0 <= j < |cfg.sizes| && cfg.sizes[j] == px;
    assert key == Thumbnail(a.id, px);
    assert key in w.objects ==> ObjectOk(cfg, key, w.objects[key], up[a.id]);
  }

  lemma OpenAnswers(cfg: Config, s: State, r: nat, c: Call)
    requires Inv(cfg, s) && r < |s.readings| && s.readings[r].pc.Open?
    requires s.readings[r].pc.a.uploadStatus == Uploaded || s.readings[r].query.ThumbnailOf?
    ensures
      var a, q := s.readings[r].pc.a, s.readings[r].query;
      && a.id in s.w.table && a.id in s.uploads
      && FairAnswer(cfg, s.w, s.uploads, q, a, c, S.ReadAnswer(S.OpenNext(q, s.readings[r].pc, s.w, c)))
  {
    assert ReadingOk(cfg, s.w, s.uploads, s.readings[r]);
    var a, q, key := s.readings[r].pc.a, s.readings[r].query, s.readings[r].pc.key;
    if q.ThumbnailOf? {
      OpenedThumbnail(cfg, s.w, s.uploads, q, a, key);
    } else {
      OpenedOriginal(cfg, s.w, s.uploads, q, a, key);
    }
  }

  // ---------------------------------------------------------------------------------------
  // Deletion
  // ---------------------------------------------------------------------------------------

  /** At most one request hides a row, it is its owner's, the row is then deleted, and at most
      one delete event is ever published for it. */
  lemma AtMostOneDeleteWins(cfg: Config, s: State, id: Id)
    requires Reachable(cfg, s)
    ensures forall i, j | 0 <= i < |s.deletions| && 0 <= j < |s.deletions|
              && Winner(s.deletions[i], id) && Winner(s.deletions[j], id) :: i == j
    ensures forall i | 0 <= i < |s.deletions| && Winner(s.deletions[i], id) ::
              id in s.w.table && s.w.table[id].deletedAt.Some? && s.w.table[id].userID == s.deletions[i].target.requester
    ensures forall i, j | 0 <= i < |s.queue| && 0 <= j < |s.queue| && s.queue[i].DeleteMsg? && s.queue[j].DeleteMsg?
              && s.queue[i].deleteEvent.avatarID == id && s.queue[j].deleteEvent.avatarID == id :: i == j
  {
    Preservation.InvReachable(cfg, s);
    forall i, j | 0 <= i < |s.deletions| && 0 <= j < |s.deletions| && Winner(s.deletions[i], id) && Winner(s.deletions[j], id)
      ensures i == j
    {
      assert !(i < j) && !(j < i);
    }
    forall i | 0 <= i < |s.deletions| && Winner(s.deletions[i], id)
      ensures id in s.w.table && s.w.table[id].deletedAt.Some? && s.w.table[id].userID == s.deletions[i].target.requester
    {
      assert DeletionOk(cfg, s.w, s.deletions[i]);
    }
    forall i, j | 0 <= i < |s.queue| && 0 <= j < |s.queue| && s.queue[i].DeleteMsg? && s.queue[j].DeleteMsg?
                  && s.queue[i].deleteEvent.avatarID == id && s.queue[j].deleteEvent.avatarID == id
      ensures i == j
    {
      assert MsgAvatar(s.queue[i]) == MsgAvatar(s.queue[j]);
    }
  }

  lemma HiddenIsNotFound(w: World, id: Id)
    requires !Postgres.Live(w.table, id)
    ensures FaultFreeFile(w, id) == NotFound
  {
  }

  /** A deleted avatar stays deleted, its owner never changes, and no read sees it again. */
  lemma DeletionIsPermanent(cfg: Config, s: State, es: seq<Event>, s': State, id: Id)
    requires Reachable(cfg, s) && id in s.w.table && Run(cfg, s, es, s')
    ensures id in s'.w.table && s'.w.table[id].userID == s.w.table[id].userID
    ensures s.w.table[id].deletedAt.Some? ==> s'.w.table[id].deletedAt.Some? && FaultFreeFile(s'.w, id) == NotFound
  {
    Preservation.InvReachable(cfg, s);
    RunEvolves(cfg, s, es, s');
    if s.w.table[id].deletedAt.Some? {
      HiddenIsNotFound(s'.w, id);
    }
  }

  // ---------------------------------------------------------------------------------------
  // What exists before what
  // ---------------------------------------------------------------------------------------

  /** Every object belongs to a row; a queued upload event of a live row points at a present
      original; a queued delete event names a deleted row and that avatar's keys only. */
  lemma ExistenceOrdering(cfg: Config, s: State)
    requires Reachable(cfg, s)
    ensures forall k | k in s.w.objects :: k.id in s.w.table
    ensures forall m | 0 <= m < |s.queue| && s.queue[m].UploadMsg? ::
              var ev := s.queue[m].uploadEvent;
              && ev.avatarID in s.w.table && ev.s3Key == Original(ev.avatarID)
              && ev.userID == s.w.table[ev.avatarID].userID
              && (Postgres.Live(s.w.table, ev.avatarID) ==> ev.s3Key in s.w.objects)
    ensures forall m | 0 <= m < |s.queue| && s.queue[m].DeleteMsg? ::
              var ev := s.queue[m].deleteEvent;
              && ev.avatarID in s.w.table && s.w.table[ev.avatarID].deletedAt.Some? && KeysOf(ev.avatarID, ev.s3Keys)
  {
    Preservation.InvReachable(cfg, s);
    forall m | 0 <= m < |s.queue| && s.queue[m].UploadMsg?
      ensures var ev := s.queue[m].uploadEvent;
              && ev.avatarID in s.w.table && ev.s3Key == Original(ev.avatarID)
              && ev.userID == s.w.table[ev.avatarID].userID
              && (Postgres.Live(s.w.table, ev.avatarID) ==> ev.s3Key in s.w.objects)
    {
      var id := s.queue[m].uploadEvent.avatarID;
      assert MsgOk(cfg, s.w, s.uploads, s.queue[m]) && UploadOk(s.w, id, s.uploads[id]);
      assert RowOk(cfg, id, s.w.table[id], s.uploads[id]) && RowBacked(cfg, s.w, id, s.uploads[id]);
    }
    forall m | 0 <= m < |s.queue| && s.queue[m].DeleteMsg?
      ensures var ev := s.queue[m].deleteEvent;
              && ev.avatarID in s.w.table && s.w.table[ev.avatarID].deletedAt.Some? && KeysOf(ev.avatarID, ev.s3Keys)
    {
      assert MsgOk(cfg, s.w, s.uploads, s.queue[m]);
    }
  }

  /** Status deleted occurs on soft-deleted rows only, so a row a handler could read never shows
      it: the handler's test for it never fires. */
  lemma DeletedStatusIsHidden(cfg: Config, s: State, id: Id, c: Call)
    requires Reachable(cfg, s) && id in s.w.table
    ensures s.w.table[id].processingStatus == Deleted ==> s.w.table[id].deletedAt.Some?
    ensures Postgres.GetByID(s.w.table, id, c).Ok? ==>
              Postgres.GetByID(s.w.table, id, c).value.processingStatus != Deleted
  {
    Preservation.InvReachable(cfg, s);
    assert RowOk(cfg, id, s.w.table[id], s.uploads[id]);
  }
}
