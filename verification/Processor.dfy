/** The worker's handlers. Each handler is given twice: as a machine that performs one store
    call per step, and as a method over the stores that is proved to follow the machine. */
module Processor {
  import opened Wrappers
  import opened KeyLayout
  import opened Avatars
  import opened Calls
  import Postgres
  import S3

  /** The outcome recorded once per handler call. */
  datatype Observed = ObservedOK | ObservedError | ObservedSkipped

  // ---------------------------------------------------------------------------------------
  // HandleUpload
  // ---------------------------------------------------------------------------------------

  /** Where an upload handler stands: the store call it makes next, or how it ended.
      Returned is a nil error, Errored any other. */
  datatype UploadPc =
    | ReadRow
    | MarkProcessing
    | Download
    | StoreThumb(src: Data, keys: map<string, Key>, i: nat, thumb: Data)
    | MarkFailed
    | SaveThumbnails(keys: map<string, Key>)
    | Returned(status: Observed)
    | Errored

  predicate Ended(pc: UploadPc) {
    pc.Returned? || pc.Errored?
  }

  /** The head of the thumbnail loop with `i` thumbnails stored. */
  function NextThumb(cfg: Config, src: Data, keys: map<string, Key>, i: nat): UploadPc
    requires i <= |cfg.sizes|
  {
    if i == |cfg.sizes| then SaveThumbnails(keys)
    else
      match cfg.generate(src, cfg.sizes[i])
      case None => MarkFailed
      case Some(thumb) => StoreThumb(src, keys, i, thumb)
  }

  predicate AlreadyHandled(status: ProcessingStatus) {
    status == Completed || status == Deleted
  }

  function UploadNext(cfg: Config, ev: UploadEvent, pc: UploadPc, w: World, c: Call): UploadPc {
    match pc
    case ReadRow => (
      match Postgres.GetByID(w.table, ev.avatarID, c)
      case Ok(a) => if AlreadyHandled(a.processingStatus) then Returned(ObservedSkipped) else MarkProcessing
      case NotFound => Returned(ObservedSkipped)
      case Fault => Errored)
    case MarkProcessing =>
      if Postgres.ExecReply(ev.avatarID in w.table, c).Ok? then Download else Errored
    case Download => (
      match S3.Get(w.objects, ev.s3Key, c)
      case Ok(src) => NextThumb(cfg, src, map[], 0)
      case _ => Errored)
    case StoreThumb(src, keys, i, _) =>
      if S3.WriteReply(c).Ok? && i < |cfg.sizes| then
        var px := cfg.sizes[i];
        NextThumb(cfg, src, keys[SizeName(px) := Thumbnail(ev.avatarID, px)], i + 1)
      else Errored
    case MarkFailed =>
      if Postgres.ExecReply(ev.avatarID in w.table, c).Ok? then Returned(ObservedError) else Errored
    case SaveThumbnails(_) =>
      if Postgres.ExecReply(ev.avatarID in w.table, c).Ok? then Returned(ObservedOK) else Errored
    case Returned(_) => pc
    case Errored => pc
  }

  function UploadEffect(cfg: Config, ev: UploadEvent, pc: UploadPc, w: World, c: Call): World {
    match pc
    case MarkProcessing =>
      w.(table := Postgres.SetProcessingStatus(w.table, ev.avatarID, Processing, c))
    case StoreThumb(_, _, i, thumb) =>
      if i < |cfg.sizes|
      then w.(objects := S3.Put(w.objects, Thumbnail(ev.avatarID, cfg.sizes[i]), thumb, c))
      else w
    case MarkFailed =>
      w.(table := Postgres.SetProcessingStatus(w.table, ev.avatarID, ProcessingFailed, c))
    case SaveThumbnails(keys) =>
      w.(table := Postgres.SetThumbnails(w.table, ev.avatarID, keys, c))
    case _ => w
  }

  /** The handler run alone on the stores, its calls going as `calls` tells. */
  function UploadRun(cfg: Config, ev: UploadEvent, pc: UploadPc, w: World, calls: seq<Call>): (UploadPc, World)
    decreases calls
  {
    if calls == [] then (pc, w)
    else
      UploadRun(cfg, ev, UploadNext(cfg, ev, pc, w, calls[0]), UploadEffect(cfg, ev, pc, w, calls[0]), calls[1..])
  }

  /** No call was made after the handler had ended. */
  ghost predicate UploadGoesOn(cfg: Config, ev: UploadEvent, pc: UploadPc, w: World, calls: seq<Call>)
    decreases calls
  {
    calls == [] ||
    (!Ended(pc) &&
     UploadGoesOn(cfg, ev, UploadNext(cfg, ev, pc, w, calls[0]), UploadEffect(cfg, ev, pc, w, calls[0]), calls[1..]))
  }

  /** `calls` are all the calls of a handler: it ended with the last of them. */
  ghost predicate UploadEnds(cfg: Config, ev: UploadEvent, pc: UploadPc, w: World, calls: seq<Call>) {
    UploadGoesOn(cfg, ev, pc, w, calls) && Ended(UploadRun(cfg, ev, pc, w, calls).0)
  }

  lemma {:induction false} UploadRunSnoc(cfg: Config, ev: UploadEvent, pc: UploadPc, w: World, calls: seq<Call>, c: Call)
    ensures UploadRun(cfg, ev, pc, w, calls + [c]) ==
            var (pc', w') := UploadRun(cfg, ev, pc, w, calls);
            (UploadNext(cfg, ev, pc', w', c), UploadEffect(cfg, ev, pc', w', c))
    ensures UploadGoesOn(cfg, ev, pc, w, calls) && !Ended(UploadRun(cfg, ev, pc, w, calls).0) ==>
              UploadGoesOn(cfg, ev, pc, w, calls + [c])
    decreases calls
  {
    if calls == [] {
      assert (calls + [c])[1..] == [];
    } else {
      assert (calls + [c])[1..] == calls[1..] + [c];
      UploadRunSnoc(cfg, ev, UploadNext(cfg, ev, pc, w, calls[0]), UploadEffect(cfg, ev, pc, w, calls[0]), calls[1..], c);
    }
  }

  // ---------------------------------------------------------------------------------------
  // HandleDelete and UploadFailed
  // ---------------------------------------------------------------------------------------

  datatype DeletePc =
    | RemoveKey(i: nat)
    | MarkDeleted
    | DeleteReturned
    | DeleteErrored

  /** The head of the key loop with `i` keys removed. */
  function NextKey(ev: DeleteEvent, i: nat): DeletePc {
    if i < |ev.s3Keys| then RemoveKey(i) else MarkDeleted
  }

  function DeleteNext(ev: DeleteEvent, pc: DeletePc, w: World, c: Call): DeletePc {
    match pc
    case RemoveKey(i) => if S3.WriteReply(c).Ok? then NextKey(ev, i + 1) else DeleteErrored
    case MarkDeleted =>
      if Postgres.ExecReply(ev.avatarID in w.table, c).Fault? then DeleteErrored else DeleteReturned
    case _ => pc
  }

  function DeleteEffect(ev: DeleteEvent, pc: DeletePc, w: World, c: Call): World {
    match pc
    case RemoveKey(i) =>
      if i < |ev.s3Keys| then w.(objects := S3.Delete(w.objects, ev.s3Keys[i], c)) else w
    case MarkDeleted =>
      w.(table := Postgres.SetProcessingStatus(w.table, ev.avatarID, Deleted, c))
    case _ => w
  }

  function DeleteRun(ev: DeleteEvent, pc: DeletePc, w: World, calls: seq<Call>): (DeletePc, World)
    decreases calls
  {
    if calls == [] then (pc, w)
    else DeleteRun(ev, DeleteNext(ev, pc, w, calls[0]), DeleteEffect(ev, pc, w, calls[0]), calls[1..])
  }

  predicate DeleteEnded(pc: DeletePc) {
    pc.DeleteReturned? || pc.DeleteErrored?
  }

  ghost predicate DeleteGoesOn(ev: DeleteEvent, pc: DeletePc, w: World, calls: seq<Call>)
    decreases calls
  {
    calls == [] ||
    (!DeleteEnded(pc) && DeleteGoesOn(ev, DeleteNext(ev, pc, w, calls[0]), DeleteEffect(ev, pc, w, calls[0]), calls[1..]))
  }

  ghost predicate DeleteEnds(ev: DeleteEvent, pc: DeletePc, w: World, calls: seq<Call>) {
    DeleteGoesOn(ev, pc, w, calls) && DeleteEnded(DeleteRun(ev, pc, w, calls).0)
  }

  lemma {:induction false} DeleteRunSnoc(ev: DeleteEvent, pc: DeletePc, w: World, calls: seq<Call>, c: Call)
    ensures DeleteRun(ev, pc, w, calls + [c]) ==
            var (pc', w') := DeleteRun(ev, pc, w, calls);
            (DeleteNext(ev, pc', w', c), DeleteEffect(ev, pc', w', c))
    ensures DeleteGoesOn(ev, pc, w, calls) && !DeleteEnded(DeleteRun(ev, pc, w, calls).0) ==>
              DeleteGoesOn(ev, pc, w, calls + [c])
    decreases calls
  {
    if calls == [] {
      assert (calls + [c])[1..] == [];
    } else {
      assert (calls + [c])[1..] == calls[1..] + [c];
      DeleteRunSnoc(ev, DeleteNext(ev, pc, w, calls[0]), DeleteEffect(ev, pc, w, calls[0]), calls[1..], c);
    }
  }

  /** UploadFailed makes one call: the row is marked failed whatever it says now. */
  function ReportEffect(ev: UploadEvent, w: World, c: Call): World {
    w.(table := Postgres.SetProcessingStatus(w.table, ev.avatarID, ProcessingFailed, c))
  }

  /** One more call of a handler that runs alone. */
  lemma UploadAdvance(cfg: Config, ev: UploadEvent, start: World, calls: seq<Call>, c: Call, fate: nat -> Call, since: nat)
    requires Follows(fate, since, calls) && c == fate(since + |calls|)
    requires UploadGoesOn(cfg, ev, ReadRow, start, calls) && !Ended(UploadRun(cfg, ev, ReadRow, start, calls).0)
    ensures Follows(fate, since, calls + [c]) && UploadGoesOn(cfg, ev, ReadRow, start, calls + [c])
    ensures UploadRun(cfg, ev, ReadRow, start, calls + [c]) ==
            var (pc, w) := UploadRun(cfg, ev, ReadRow, start, calls);
            (UploadNext(cfg, ev, pc, w, c), UploadEffect(cfg, ev, pc, w, c))
  {
    FollowsSnoc(fate, since, calls, c);
    UploadRunSnoc(cfg, ev, ReadRow, start, calls, c);
  }

  lemma DeleteAdvance(ev: DeleteEvent, start: World, calls: seq<Call>, c: Call, fate: nat -> Call, since: nat)
    requires Follows(fate, since, calls) && c == fate(since + |calls|)
    requires DeleteGoesOn(ev, NextKey(ev, 0), start, calls) && !DeleteEnded(DeleteRun(ev, NextKey(ev, 0), start, calls).0)
    ensures Follows(fate, since, calls + [c]) && DeleteGoesOn(ev, NextKey(ev, 0), start, calls + [c])
    ensures DeleteRun(ev, NextKey(ev, 0), start, calls + [c]) ==
            var (pc, w) := DeleteRun(ev, NextKey(ev, 0), start, calls);
            (DeleteNext(ev, pc, w, c), DeleteEffect(ev, pc, w, c))
  {
    FollowsSnoc(fate, since, calls, c);
    DeleteRunSnoc(ev, NextKey(ev, 0), start, calls, c);
  }

  // ---------------------------------------------------------------------------------------
  // The handlers
  // ---------------------------------------------------------------------------------------

  class Processor {
    const cfg: Config
    const net: Network
    const repo: Postgres.Repository
    const files: S3.Store
    var observed: seq<Observed>

    constructor (cfg: Config, net: Network, repo: Postgres.Repository, files: S3.Store)
      ensures this.cfg == cfg && this.net == net && this.repo == repo && this.files == files && observed == []
    {
      this.cfg := cfg;
      this.net := net;
      this.repo := repo;
      this.files := files;
      observed := [];
    }

    ghost predicate Valid()
      reads repo
    {
      repo.net == net && files.net == net && repo.Valid()
    }

    ghost function Stores(): World
      reads repo, files
    {
      World(repo.rows, files.objects)
    }

    /** The method takes exactly the path of the machine under the calls it made, ends where the
        machine ends, and records what it observed once. */
    method HandleUpload(ev: UploadEvent) returns (ok: bool, ghost calls: seq<Call>)
      requires Valid()
      modifies repo, files, net, this
      ensures Valid() && net.Made(old(net.used), calls) && UploadEnds(cfg, ev, ReadRow, old(Stores()), calls)
      ensures |observed| == |old(observed)| + 1 && observed[..|observed| - 1] == old(observed)
      ensures
        var (pc, w) := UploadRun(cfg, ev, ReadRow, old(Stores()), calls);
        && w == Stores()
        && (if ok then pc == Returned(observed[|observed| - 1])
            else pc == Errored && observed[|observed| - 1] == ObservedError)
    {
      var status: Observed;
      ok, status, calls := Handle(ev);
      observed := observed + [status];
    }

    /** The handler, run alone since `since`, has made `calls` and now stands at `pc`. */
    ghost predicate At(ev: UploadEvent, start: World, since: nat, calls: seq<Call>, pc: UploadPc)
      reads repo, files, net
    {
      && Valid() && net.Made(since, calls) && UploadGoesOn(cfg, ev, ReadRow, start, calls)
      && UploadRun(cfg, ev, ReadRow, start, calls) == (pc, Stores())
    }

    method Handle(ev: UploadEvent) returns (ok: bool, status: Observed, ghost calls: seq<Call>)
      requires Valid()
      modifies repo, files, net
      ensures exists pc :: At(ev, old(Stores()), old(net.used), calls, pc) &&
                           if ok then pc == Returned(status) else pc == Errored && status == ObservedError
    {
      status := ObservedError;
      ghost var start, since := Stores(), net.used;
      ghost var c;
      calls := [];
      var row;
      row, c := repo.ByID(ev.avatarID);
      UploadAdvance(cfg, ev, start, calls, c, net.fate, since);
      calls := calls + [c];
      if row.NotFound? {
        assert At(ev, start, since, calls, Returned(ObservedSkipped));
        return true, ObservedSkipped, calls;
      }
      if row.Fault? {
        assert At(ev, start, since, calls, Errored);
        return false, status, calls;
      }
      if row.value.processingStatus == Completed || row.value.processingStatus == Deleted {
        assert At(ev, start, since, calls, Returned(ObservedSkipped));
        return true, ObservedSkipped, calls;
      }

      var marked;
      marked, c := repo.SetProcessing(ev.avatarID, Processing);
      UploadAdvance(cfg, ev, start, calls, c, net.fate, since);
      calls := calls + [c];
      if !marked.Ok? {
        assert At(ev, start, since, calls, Errored);
        return false, status, calls;
      }

      assert At(ev, start, since, calls, Download);
      ok, status, calls := Process(ev, start, since, calls);
    }

    /** The rest of HandleUpload, from the download on. */
    method Process(ev: UploadEvent, ghost start: World, ghost since: nat, ghost made: seq<Call>)
      returns (ok: bool, status: Observed, ghost calls: seq<Call>)
      requires At(ev, start, since, made, Download)
      modifies repo, files, net
      ensures exists pc :: At(ev, start, since, calls, pc) &&
                           if ok then pc == Returned(status) else pc == Errored && status == ObservedError
    {
      status, calls := ObservedError, made;
      ghost var c;
      var body;
      body, c := files.Read(ev.s3Key);
      UploadAdvance(cfg, ev, start, calls, c, net.fate, since);
      calls := calls + [c];
      if !body.Ok? {
        assert At(ev, start, since, calls, Errored);
        return false, status, calls;
      }
      assert At(ev, start, since, calls, NextThumb(cfg, body.value, map[], 0));
      ok, status, calls := MakeThumbnails(ev, body.value, start, since, calls);
    }

    /** The thumbnail loop, and the write of its keys. */
    method MakeThumbnails(ev: UploadEvent, src: Data, ghost start: World, ghost since: nat, ghost made: seq<Call>)
      returns (ok: bool, status: Observed, ghost calls: seq<Call>)
      requires At(ev, start, since, made, NextThumb(cfg, src, map[], 0))
      modifies repo, files, net
      ensures exists pc :: At(ev, start, since, calls, pc) &&
                           if ok then pc == Returned(status) else pc == Errored && status == ObservedError
    {
      status, calls := ObservedError, made;
      ghost var c;

      var keys: map<string, Key> := map[];
      var i := 0;
      while i < |cfg.sizes|
        invariant 0 <= i <= |cfg.sizes| && At(ev, start, since, calls, NextThumb(cfg, src, keys, i))
      {
        var px := cfg.sizes[i];
        var thumb := cfg.generate(src, px);
        if thumb.None? {
          var failed;
          failed, c := repo.SetProcessing(ev.avatarID, ProcessingFailed);
          UploadAdvance(cfg, ev, start, calls, c, net.fate, since);
          calls := calls + [c];
          assert At(ev, start, since, calls, if failed.Ok? then Returned(ObservedError) else Errored);
          return failed.Ok?, status, calls;
        }
        var key := Thumbnail(ev.avatarID, px);
        var stored;
        stored, c := files.Write(key, thumb.value);
        UploadAdvance(cfg, ev, start, calls, c, net.fate, since);
        calls := calls + [c];
        if !stored.Ok? {
          assert At(ev, start, since, calls, Errored);
          return false, status, calls;
        }
        keys := keys[SizeName(px) := key];
        i := i + 1;
      }

      var saved;
      saved, c := repo.StoreThumbnails(ev.avatarID, keys);
      UploadAdvance(cfg, ev, start, calls, c, net.fate, since);
      calls := calls + [c];
      if !saved.Ok? {
        assert At(ev, start, since, calls, Errored);
        return false, status, calls;
      }
      assert At(ev, start, since, calls, Returned(ObservedOK));
      return true, ObservedOK, calls;
    }

    method HandleDelete(ev: DeleteEvent) returns (ok: bool, ghost calls: seq<Call>)
      requires Valid()
      modifies repo, files, net, this
      ensures Valid() && net.Made(old(net.used), calls) && DeleteEnds(ev, NextKey(ev, 0), old(Stores()), calls)
      ensures observed == old(observed) + [if ok then ObservedOK else ObservedError]
      ensures DeleteRun(ev, NextKey(ev, 0), old(Stores()), calls) ==
              (if ok then DeleteReturned else DeleteErrored, Stores())
    {
      ghost var start, since := Stores(), net.used;
      ghost var c;
      calls := [];
      var i := 0;
      while i < |ev.s3Keys|
        invariant 0 <= i <= |ev.s3Keys| && Valid() && net.Made(since, calls) && observed == old(observed)
        invariant DeleteGoesOn(ev, NextKey(ev, 0), start, calls)
        invariant DeleteRun(ev, NextKey(ev, 0), start, calls) == (NextKey(ev, i), Stores())
      {
        var removed;
        removed, c := files.Remove(ev.s3Keys[i]);
        DeleteAdvance(ev, start, calls, c, net.fate, since);
        calls := calls + [c];
        if !removed.Ok? {
          observed := observed + [ObservedError];
          return false, calls;
        }
        i := i + 1;
      }
      var marked;
      marked, c := repo.SetProcessing(ev.avatarID, Deleted);
      DeleteAdvance(ev, start, calls, c, net.fate, since);
      calls := calls + [c];
      if marked.Fault? {
        observed := observed + [ObservedError];
        return false, calls;
      }
      observed := observed + [ObservedOK];
      ok := true;
    }

    method ReportUploadFailed(ev: UploadEvent) returns (ghost c: Call)
      requires Valid()
      modifies repo, net
      ensures Valid() && net.One(old(net.used), c)
      ensures Stores() == ReportEffect(ev, old(Stores()), c)
    {
      var _, call := repo.SetProcessing(ev.avatarID, ProcessingFailed);
      c := call;
    }
  }
}
