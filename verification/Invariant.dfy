/** The inductive invariant of the protocol, and the proof that every step keeps it. */
module Invariant {
  import opened Wrappers
  import opened KeyLayout
  import opened Avatars
  import opened Calls
  import opened Protocol
  import Postgres
  import P = Processor
  import S = Service

  // ---------------------------------------------------------------------------------------
  // Stores
  // ---------------------------------------------------------------------------------------

  predicate Full(cfg: Config, a: Avatar) {
    a.thumbnails == ThumbnailMap(a.id, cfg.sizes)
  }

  /** What never changes in a row. */
  predicate SameIdentity(a: Avatar, b: Avatar) {
    && a.id == b.id && a.userID == b.userID && a.s3Key == b.s3Key && a.sizeBytes == b.sizeBytes
    && a.mimeType == b.mimeType && a.createdAt == b.createdAt
    && a.fileName == b.fileName && a.width == b.width && a.height == b.height
  }

  ghost predicate RowOk(cfg: Config, id: Id, a: Avatar, u: Upload) {
    && a.id == id && a.s3Key == Original(id) && a.userID == u.user
    && a.sizeBytes == |u.data| && a.mimeType == cfg.sniff(u.data).mimeType
    && a.fileName == S.Truncated(u.fileName)
    && a.width == cfg.sniff(u.data).width && a.height == cfg.sniff(u.data).height
    && (a.thumbnails == map[] || Full(cfg, a))
    && (a.thumbnails != map[] ==> u.pc.Answered?)
    && (a.processingStatus == Completed ==> Full(cfg, a))
    && (a.processingStatus == Deleted ==> a.deletedAt.Some?)
  }

  ghost predicate RowsOk(cfg: Config, t: Table, up: map<Id, Upload>) {
    forall id | id in t :: id in up && RowOk(cfg, id, t[id], up[id])
  }

  /** An object is its avatar's upload, or a thumbnail generated from it. */
  ghost predicate ObjectOk(cfg: Config, k: Key, d: Data, u: Upload) {
    match k
    case Original(_) => d == u.data
    case Thumbnail(_, px) => px in cfg.sizes && cfg.generate(u.data, px) == Some(d)
  }

  ghost predicate ObjectsOk(cfg: Config, w: World, up: map<Id, Upload>) {
    forall k | k in w.objects :: k.id in w.table && k.id in up && ObjectOk(cfg, k, w.objects[k], up[k.id])
  }

  /** The thumbnails of the first `i` sizes can be made and, while the row is live, are there. */
  ghost predicate ThumbsStored(cfg: Config, w: World, id: Id, data: Data, i: nat)
    requires i <= |cfg.sizes|
  {
    forall j | 0 <= j < i ::
      && cfg.generate(data, cfg.sizes[j]).Some?
      && (Postgres.Live(w.table, id) ==> Thumbnail(id, cfg.sizes[j]) in w.objects)
  }

  /** What a live row promises about the bucket. */
  ghost predicate RowBacked(cfg: Config, w: World, id: Id, u: Upload)
    requires id in w.table
  {
    && (w.table[id].uploadStatus == Uploaded && Postgres.Live(w.table, id) ==> Original(id) in w.objects)
    && (Full(cfg, w.table[id]) ==> ThumbsStored(cfg, w, id, u.data, |cfg.sizes|))
  }

  ghost predicate RowsBacked(cfg: Config, w: World, up: map<Id, Upload>)
    requires RowsOk(cfg, w.table, up)
  {
    forall id | id in w.table :: RowBacked(cfg, w, id, up[id])
  }

  ghost predicate StoresOk(cfg: Config, w: World, up: map<Id, Upload>) {
    RowsOk(cfg, w.table, up) && ObjectsOk(cfg, w, up) && RowsBacked(cfg, w, up)
  }

  // ---------------------------------------------------------------------------------------
  // Requests
  // ---------------------------------------------------------------------------------------

  ghost predicate UploadOk(w: World, id: Id, u: Upload) {
    match u.pc
    case CreateRow => id !in w.table
    case Refused => true
    case Announce(a) => UploadedRow(w, id, a)
    case Answered(a) => UploadedRow(w, id, a)
    case PutOriginal(a) => UploadingRow(w, id, a)
    case Compensate(a) => UploadingRow(w, id, a)
    case Confirm(a) => UploadingRow(w, id, a) && (Postgres.Live(w.table, id) ==> Original(id) in w.objects)
  }

  ghost predicate UploadingRow(w: World, id: Id, a: Avatar) {
    id in w.table && SameIdentity(a, w.table[id]) && a.id == id && w.table[id].uploadStatus == Uploading
  }

  ghost predicate UploadedRow(w: World, id: Id, a: Avatar) {
    id in w.table && SameIdentity(a, w.table[id]) && a.id == id && w.table[id].uploadStatus == Uploaded
  }

  predicate KeysOf(id: Id, keys: seq<Key>) {
    forall k | k in keys :: k.id == id
  }

  predicate Captured(a: Avatar, keys: seq<Key>) {
    a.s3Key in keys && forall name | name in a.thumbnails :: a.thumbnails[name] in keys
  }

  /** This request hid the row. */
  predicate Winner(d: Deletion, id: Id) {
    (d.pc.AnnounceDelete? && d.pc.id == id) || (d.pc.Won? && d.pc.id == id)
  }

  ghost predicate DeletionOk(cfg: Config, w: World, d: Deletion) {
    && (d.target.LatestOf? ==> d.target.user == d.target.requester || d.pc.DeleteRefused?)
    && (d.pc.Hide? ==>
          && d.pc.a.id in w.table && SameIdentity(d.pc.a, w.table[d.pc.a.id])
          && d.pc.a.userID == d.target.requester && KeysOf(d.pc.a.id, d.pc.keys) && Captured(d.pc.a, d.pc.keys)
          && (d.pc.a.thumbnails == map[] || (Full(cfg, d.pc.a) && Full(cfg, w.table[d.pc.a.id])))
          && (d.target.ByID? ==> d.target.id == d.pc.a.id))
    && (d.pc.AnnounceDelete? ==> KeysOf(d.pc.id, d.pc.keys))
    && (forall id | Winner(d, id) ::
          id in w.table && w.table[id].deletedAt.Some? && w.table[id].userID == d.target.requester)
  }

  ghost predicate OneWinner(ds: seq<Deletion>) {
    forall i, j, id | 0 <= i < j < |ds| && Winner(ds[i], id) :: !Winner(ds[j], id)
  }

  /** The row `a` was read live and is still that avatar's row, no less advanced. */
  ghost predicate SeenRow(cfg: Config, w: World, a: Avatar) {
    && a.id in w.table && SameIdentity(a, w.table[a.id]) && a.deletedAt.None?
    && (a.uploadStatus == Uploaded ==> w.table[a.id].uploadStatus == Uploaded)
    && (a.thumbnails == map[] || (Full(cfg, a) && Full(cfg, w.table[a.id])))
  }

  ghost predicate OpenedKey(q: S.Query, a: Avatar, k: Key) {
    if q.ThumbnailOf? then q.size in a.thumbnails && k == a.thumbnails[q.size] else k == a.s3Key
  }

  ghost predicate ReadingOk(cfg: Config, w: World, up: map<Id, Upload>, r: Reading) {
    match r.pc
    case Open(a, k) => SeenRow(cfg, w, a) && OpenedKey(r.query, a, k)
    case Served(a, k, file) =>
      && SeenRow(cfg, w, a) && a.id in up && OpenedKey(r.query, a, k) && k.id == a.id
      && ObjectOk(cfg, k, file.body, up[a.id])
      && (!r.query.ThumbnailOf? ==> file == S.File(up[a.id].data, cfg.sniff(up[a.id].data).mimeType, |up[a.id].data|))
    case ObjectMissing(a, k) =>
      && SeenRow(cfg, w, a) && OpenedKey(r.query, a, k)
      && (a.uploadStatus == Uploaded || k.Thumbnail? ==> w.table[a.id].deletedAt.Some?)
    case _ => true
  }

  // ---------------------------------------------------------------------------------------
  // Messages
  // ---------------------------------------------------------------------------------------

  /** The avatar is out of reach of its upload event: deleted, or processed one way or the other. */
  ghost predicate Concluded(t: Table, id: Id) {
    Postgres.Live(t, id) ==> t[id].processingStatus in {Completed, ProcessingFailed}
  }

  /** Past the guard and not ended. */
  predicate Working(pc: P.UploadPc) {
    !pc.ReadRow? && !pc.Returned? && !pc.Errored?
  }

  ghost predicate UploadPcOk(cfg: Config, w: World, id: Id, u: Upload, pc: P.UploadPc) {
    && (Working(pc) && Postgres.Live(w.table, id) ==> w.table[id].processingStatus != Completed)
    && UploadPcHolds(cfg, w, id, u, pc)
  }

  ghost predicate UploadPcHolds(cfg: Config, w: World, id: Id, u: Upload, pc: P.UploadPc) {
    match pc
    case StoreThumb(src, keys, i, thumb) =>
      && i < |cfg.sizes| && src == u.data && keys == ThumbnailMap(id, cfg.sizes[..i])
      && cfg.generate(src, cfg.sizes[i]) == Some(thumb)
      && ThumbsStored(cfg, w, id, u.data, i)
    case SaveThumbnails(keys) =>
      keys == ThumbnailMap(id, cfg.sizes) && ThumbsStored(cfg, w, id, u.data, |cfg.sizes|)
    case Returned(_) => Concluded(w.table, id)
    case _ => true
  }

  ghost predicate UploadStageOk(cfg: Config, w: World, id: Id, u: Upload, stage: Stage<P.UploadPc>) {
    match stage
    case Running(_, _, pc) => UploadPcOk(cfg, w, id, u, pc)
    case Settling(_, how, reported) => how.Ack? || reported ==> Concluded(w.table, id)
    case Acked => Concluded(w.table, id)
    case Dead(reported) => reported ==> Concluded(w.table, id)
    case _ => true
  }

  ghost predicate UploadMsgOk(cfg: Config, w: World, up: map<Id, Upload>, ev: UploadEvent, stage: Stage<P.UploadPc>) {
    && ev.avatarID in up && up[ev.avatarID].pc.Answered? && ev.avatarID in w.table
    && ev.userID == up[ev.avatarID].user && ev.s3Key == Original(ev.avatarID)
    && UploadStageOk(cfg, w, ev.avatarID, up[ev.avatarID], stage)
  }

  ghost predicate DeleteMsgOk(w: World, ev: DeleteEvent, stage: Stage<P.DeletePc>) {
    && ev.avatarID in w.table && w.table[ev.avatarID].deletedAt.Some? && KeysOf(ev.avatarID, ev.s3Keys)
    && (stage.Running? && stage.pc.RemoveKey? ==> stage.pc.i < |ev.s3Keys|)
  }

  ghost predicate MsgOk(cfg: Config, w: World, up: map<Id, Upload>, msg: Message) {
    match msg
    case UploadMsg(ev, stage) => UploadMsgOk(cfg, w, up, ev, stage)
    case DeleteMsg(ev, stage) => DeleteMsgOk(w, ev, stage)
  }

  function MsgAvatar(msg: Message): Id {
    if msg.UploadMsg? then msg.uploadEvent.avatarID else msg.deleteEvent.avatarID
  }

  /** One upload event and one delete event per avatar at most. */
  ghost predicate OneEventEach(q: seq<Message>) {
    forall i, j | 0 <= i < j < |q| && q[i].UploadMsg? == q[j].UploadMsg? :: MsgAvatar(q[i]) != MsgAvatar(q[j])
  }

  /** A winner that is about to publish has not published yet. */
  ghost predicate AnnouncesOnce(ds: seq<Deletion>, q: seq<Message>) {
    forall d, m | 0 <= d < |ds| && ds[d].pc.AnnounceDelete? && 0 <= m < |q| && q[m].DeleteMsg? ::
      q[m].deleteEvent.avatarID != ds[d].pc.id
  }

  // ---------------------------------------------------------------------------------------
  // The invariant
  // ---------------------------------------------------------------------------------------

  ghost predicate UploadsOk(w: World, up: map<Id, Upload>) {
    forall id | id in up :: UploadOk(w, id, up[id])
  }

  ghost predicate DeletionsOk(cfg: Config, w: World, ds: seq<Deletion>) {
    forall d | 0 <= d < |ds| :: DeletionOk(cfg, w, ds[d])
  }

  ghost predicate ReadingsOk(cfg: Config, w: World, up: map<Id, Upload>, rs: seq<Reading>) {
    forall r | 0 <= r < |rs| :: ReadingOk(cfg, w, up, rs[r])
  }

  ghost predicate QueueOk(cfg: Config, w: World, up: map<Id, Upload>, q: seq<Message>) {
    forall m | 0 <= m < |q| :: MsgOk(cfg, w, up, q[m])
  }

  ghost predicate Inv(cfg: Config, s: State) {
    && StoresOk(cfg, s.w, s.uploads)
    && UploadsOk(s.w, s.uploads)
    && DeletionsOk(cfg, s.w, s.deletions)
    && ReadingsOk(cfg, s.w, s.uploads, s.readings)
    && QueueOk(cfg, s.w, s.uploads, s.queue)
    && OneWinner(s.deletions) && OneEventEach(s.queue) && AnnouncesOnce(s.deletions, s.queue)
  }

  // ---------------------------------------------------------------------------------------
  // How the stores may evolve
  // ---------------------------------------------------------------------------------------

  /** What every step of every participant guarantees about the stores: rows stay and keep their
      identity, deletion, a finished upload and full thumbnails are for good, and a row that is
      live afterwards has lost no object. */
  ghost predicate Evolves(cfg: Config, w: World, w': World) {
    && (forall id | id in w.table :: id in w'.table && RowEvolves(cfg, w.table[id], w'.table[id]))
    && (forall k | k in w.objects && Postgres.Live(w'.table, k.id) :: k in w'.objects)
  }

  ghost predicate RowEvolves(cfg: Config, a: Avatar, b: Avatar) {
    && SameIdentity(a, b)
    && (a.deletedAt.Some? ==> b.deletedAt.Some?)
    && (a.uploadStatus == Uploaded ==> b.uploadStatus == Uploaded)
    && (Full(cfg, a) ==> Full(cfg, b))
  }

  /** Uploads are only ever added, and keep what they were asked. */
  ghost predicate UploadsKept(up: map<Id, Upload>, up': map<Id, Upload>) {
    forall id | id in up ::
      && id in up' && up'[id].user == up[id].user && up'[id].data == up[id].data && up'[id].fileName == up[id].fileName
      && (up[id].pc.Answered? ==> up'[id].pc.Answered?)
  }

  /** The upload request of `id` finds its row as it left it. */
  ghost predicate UploadStatusKept(w: World, w': World, id: Id) {
    && (id !in w.table ==> id !in w'.table)
    && (id in w.table && id in w'.table ==> w'.table[id].uploadStatus == w.table[id].uploadStatus)
  }

  /** The handler of `id`'s upload event finds its row as it left it, if still live. */
  ghost predicate ProcessingKept(w: World, w': World, id: Id) {
    id in w.table && Postgres.Live(w'.table, id) ==> w'.table[id].processingStatus == w.table[id].processingStatus
  }

  lemma UploadStable(cfg: Config, w: World, w': World, id: Id, u: Upload)
    requires UploadOk(w, id, u) && Evolves(cfg, w, w') && UploadStatusKept(w, w', id)
    ensures UploadOk(w', id, u)
  {
  }

  lemma DeletionStable(cfg: Config, w: World, w': World, d: Deletion)
    requires DeletionOk(cfg, w, d) && Evolves(cfg, w, w')
    ensures DeletionOk(cfg, w', d)
  {
  }

  lemma ReadingStable(cfg: Config, w: World, w': World, up: map<Id, Upload>, up': map<Id, Upload>, r: Reading)
    requires ReadingOk(cfg, w, up, r) && Evolves(cfg, w, w') && UploadsKept(up, up')
    ensures ReadingOk(cfg, w', up', r)
  {
  }

  lemma ThumbsStable(cfg: Config, w: World, w': World, id: Id, data: Data, i: nat)
    requires i <= |cfg.sizes| && ThumbsStored(cfg, w, id, data, i) && Evolves(cfg, w, w') && id in w.table
    ensures ThumbsStored(cfg, w', id, data, i)
  {
  }

  lemma MsgStable(cfg: Config, w: World, w': World, up: map<Id, Upload>, up': map<Id, Upload>, msg: Message)
    requires MsgOk(cfg, w, up, msg) && Evolves(cfg, w, w') && UploadsKept(up, up')
    requires msg.UploadMsg? ==> ProcessingKept(w, w', MsgAvatar(msg))
    ensures MsgOk(cfg, w', up', msg)
  {
    if msg.UploadMsg? && msg.uploadStage.Running? {
      var id := MsgAvatar(msg);
      match msg.uploadStage.pc
      case StoreThumb(_, _, i, _) => ThumbsStable(cfg, w, w', id, up[id].data, i);
      case SaveThumbnails(_) => ThumbsStable(cfg, w, w', id, up[id].data, |cfg.sizes|);
      case _ =>
    }
  }
}
