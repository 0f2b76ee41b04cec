/** Repeated attempts of a handler, each stopped at an arbitrary call or finished, followed by one
    that returns: the result is that of a single successful attempt. No other handler works on
    the avatar meanwhile. */
module Convergence {
  import opened Wrappers
  import opened KeyLayout
  import opened Avatars
  import opened Calls
  import opened Processor
  import Postgres

  // ---------------------------------------------------------------------------------------
  // Equality up to the time of the last update
  // ---------------------------------------------------------------------------------------

  predicate SameRow(a: Avatar, b: Avatar) {
    a.(updatedAt := 0) == b.(updatedAt := 0)
  }

  ghost predicate SameTable(t: Table, t': Table) {
    t.Keys == t'.Keys && forall id | id in t :: SameRow(t[id], t'[id])
  }

  ghost predicate SameButTouched(w: World, w': World) {
    w.objects == w'.objects && SameTable(w.table, w'.table)
  }

  /** Any attempts in a row, each stopped wherever its calls end. */
  ghost function AfterAttempts(cfg: Config, ev: UploadEvent, w: World, tries: seq<seq<Call>>): World
    decreases tries
  {
    if tries == [] then w else AfterAttempts(cfg, ev, UploadRun(cfg, ev, ReadRow, w, tries[0]).1, tries[1..])
  }

  // ---------------------------------------------------------------------------------------
  // What an upload event comes to
  // ---------------------------------------------------------------------------------------

  /** The first size from i on that the file cannot be rendered at. */
  function FirstBad(cfg: Config, src: Data, i: nat): (n: nat)
    requires i <= |cfg.sizes|
    ensures i <= n <= |cfg.sizes|
    ensures forall j | i <= j < n :: cfg.generate(src, cfg.sizes[j]).Some?
    ensures n < |cfg.sizes| ==> cfg.generate(src, cfg.sizes[n]).None?
    decreases |cfg.sizes| - i
  {
    if i == |cfg.sizes| || cfg.generate(src, cfg.sizes[i]).None? then i else FirstBad(cfg, src, i + 1)
  }

  ghost function ThumbKeys(cfg: Config, id: Id, n: nat): set<Key>
    requires n <= |cfg.sizes|
  {
    set j | 0 <= j < n :: Thumbnail(id, cfg.sizes[j])
  }

  /** The guard skips: nobody can read the row, or it is handled. */
  predicate Skips(w: World, id: Id) {
    !Postgres.Live(w.table, id) || w.table[id].processingStatus == Completed || w.table[id].processingStatus == Deleted
  }

  /** There is work: the row is live and not handled yet, and its original is there. */
  predicate HasWork(ev: UploadEvent, w: World) {
    !Skips(w, ev.avatarID) && ev.s3Key in w.objects
  }

  ghost function TargetObjects(cfg: Config, ev: UploadEvent, w: World): Objects
    requires HasWork(ev, w)
  {
    var src := w.objects[ev.s3Key];
    var made := ThumbKeys(cfg, ev.avatarID, FirstBad(cfg, src, 0));
    map k | k in w.objects.Keys + made :: if k in made then cfg.generate(src, k.px).value else w.objects[k]
  }

  function TargetRow(cfg: Config, ev: UploadEvent, w: World): Avatar
    requires HasWork(ev, w)
  {
    var a := w.table[ev.avatarID];
    if FirstBad(cfg, w.objects[ev.s3Key], 0) == |cfg.sizes|
    then a.(thumbnails := ThumbnailMap(ev.avatarID, cfg.sizes), processingStatus := Completed)
    else a.(processingStatus := ProcessingFailed)
  }

  /** What the event comes to: every thumbnail up to the first that cannot be made, and the row
      completed or failed; or nothing, when the guard skips. */
  ghost function Target(cfg: Config, ev: UploadEvent, w: World): World {
    if !HasWork(ev, w) then w
    else World(w.table[ev.avatarID := TargetRow(cfg, ev, w)], TargetObjects(cfg, ev, w))
  }

  // ---------------------------------------------------------------------------------------
  // Part-way
  // ---------------------------------------------------------------------------------------

  /** The thumbnails of the first i sizes are made and stored. */
  ghost predicate StoredUpTo(cfg: Config, ev: UploadEvent, w0: World, w: World, i: nat)
    requires HasWork(ev, w0) && i <= |cfg.sizes|
  {
    forall j | 0 <= j < i ::
      && cfg.generate(w0.objects[ev.s3Key], cfg.sizes[j]).Some?
      && Thumbnail(ev.avatarID, cfg.sizes[j]) in w.objects
      && w.objects[Thumbnail(ev.avatarID, cfg.sizes[j])] == cfg.generate(w0.objects[ev.s3Key], cfg.sizes[j]).value
  }

  /** Objects differ from the start only by thumbnails that belong to the result. */
  ghost predicate ObjectsBetween(cfg: Config, ev: UploadEvent, w0: World, o: Objects)
    requires HasWork(ev, w0)
  {
    var goal := TargetObjects(cfg, ev, w0);
    && w0.objects.Keys <= o.Keys <= goal.Keys
    && forall k | k in o :: o[k] == goal[k] || (k in w0.objects && o[k] == w0.objects[k])
  }

  ghost predicate RowsBetween(cfg: Config, ev: UploadEvent, w0: World, w: World)
    requires HasWork(ev, w0)
  {
    var id := ev.avatarID;
    && w.table.Keys == w0.table.Keys
    && (forall other | other in w.table && other != id :: w.table[other] == w0.table[other])
    && if AlreadyHandled(w.table[id].processingStatus) then SameButTouched(w, Target(cfg, ev, w0))
       else SameRow(w.table[id], w0.table[id].(processingStatus := w.table[id].processingStatus))
  }

  ghost predicate PcBetween(cfg: Config, ev: UploadEvent, w0: World, w: World, pc: UploadPc)
    requires HasWork(ev, w0)
  {
    var src := w0.objects[ev.s3Key];
    var n := FirstBad(cfg, src, 0);
    && (pc.MarkProcessing? || pc.Download? || pc.StoreThumb? || pc.MarkFailed? || pc.SaveThumbnails? ==>
          ev.avatarID in w.table && !AlreadyHandled(w.table[ev.avatarID].processingStatus))
    && match pc
       case StoreThumb(s, keys, i, thumb) =>
         && s == src && i < n && keys == ThumbnailMap(ev.avatarID, cfg.sizes[..i])
         && cfg.generate(src, cfg.sizes[i]) == Some(thumb) && StoredUpTo(cfg, ev, w0, w, i)
       case SaveThumbnails(keys) =>
         n == |cfg.sizes| && keys == ThumbnailMap(ev.avatarID, cfg.sizes) && StoredUpTo(cfg, ev, w0, w, n)
       case MarkFailed => n < |cfg.sizes| && StoredUpTo(cfg, ev, w0, w, n)
       case Returned(_) => SameButTouched(w, Target(cfg, ev, w0))
       case _ => true
  }

  ghost predicate Between(cfg: Config, ev: UploadEvent, w0: World, w: World)
    requires HasWork(ev, w0)
  {
    ObjectsBetween(cfg, ev, w0, w.objects) && RowsBetween(cfg, ev, w0, w)
  }

  lemma AllStored(cfg: Config, ev: UploadEvent, w0: World, w: World)
    requires HasWork(ev, w0) && ev.s3Key.Original?
    requires ObjectsBetween(cfg, ev, w0, w.objects)
    requires StoredUpTo(cfg, ev, w0, w, FirstBad(cfg, w0.objects[ev.s3Key], 0))
    ensures w.objects == TargetObjects(cfg, ev, w0)
  {
    var src := w0.objects[ev.s3Key];
    var n := FirstBad(cfg, src, 0);
    var made := ThumbKeys(cfg, ev.avatarID, n);
    forall k | k in TargetObjects(cfg, ev, w0)
      ensures k in w.objects && w.objects[k] == TargetObjects(cfg, ev, w0)[k]
    {
      if k in made {
        var j :| 0 <= j < n && k == Thumbnail(ev.avatarID, cfg.sizes[j]);
      }
    }
  }

  lemma OriginalKept(cfg: Config, ev: UploadEvent, w0: World, w: World)
    requires HasWork(ev, w0) && ev.s3Key.Original? && ObjectsBetween(cfg, ev, w0, w.objects)
    ensures ev.s3Key in w.objects && w.objects[ev.s3Key] == w0.objects[ev.s3Key]
  {
  }

  lemma NextThumbBetween(cfg: Config, ev: UploadEvent, w0: World, w: World, i: nat)
    requires HasWork(ev, w0) && i <= FirstBad(cfg, w0.objects[ev.s3Key], 0) && StoredUpTo(cfg, ev, w0, w, i)
    requires ev.avatarID in w.table && !AlreadyHandled(w.table[ev.avatarID].processingStatus)
    ensures PcBetween(cfg, ev, w0, w, NextThumb(cfg, w0.objects[ev.s3Key], ThumbnailMap(ev.avatarID, cfg.sizes[..i]), i))
  {
    assert cfg.sizes[..|cfg.sizes|] == cfg.sizes;
  }

  lemma ThumbStoredStores(cfg: Config, ev: UploadEvent, w0: World, w: World, pc: UploadPc, c: Call)
    requires HasWork(ev, w0) && pc.StoreThumb?
    requires Between(cfg, ev, w0, w) && PcBetween(cfg, ev, w0, w, pc)
    ensures Between(cfg, ev, w0, UploadEffect(cfg, ev, pc, w, c))
  {
    if Applied(c) {
      ThumbPut(cfg, ev, w0, w.objects, pc.i, pc.thumb);
    }
  }

  lemma ThumbStoredPc(cfg: Config, ev: UploadEvent, w0: World, w: World, pc: UploadPc)
    requires HasWork(ev, w0) && pc.StoreThumb? && PcBetween(cfg, ev, w0, w, pc)
    ensures pc.i < |cfg.sizes|
    ensures var w' := w.(objects := w.objects[Thumbnail(ev.avatarID, cfg.sizes[pc.i]) := pc.thumb]);
            var keys' := pc.keys[SizeName(cfg.sizes[pc.i]) := Thumbnail(ev.avatarID, cfg.sizes[pc.i])];
            PcBetween(cfg, ev, w0, w', NextThumb(cfg, pc.src, keys', pc.i + 1))
  {
    var w' := w.(objects := w.objects[Thumbnail(ev.avatarID, cfg.sizes[pc.i]) := pc.thumb]);
    StoredOneMore(cfg, ev, w0, w, pc.i, pc.thumb);
    ThumbnailMapStep(ev.avatarID, cfg.sizes, pc.i);
    NextThumbBetween(cfg, ev, w0, w', pc.i + 1);
  }

  lemma ThumbPut(cfg: Config, ev: UploadEvent, w0: World, o: Objects, i: nat, thumb: Data)
    requires HasWork(ev, w0) && ObjectsBetween(cfg, ev, w0, o)
    requires i < FirstBad(cfg, w0.objects[ev.s3Key], 0)
    requires cfg.generate(w0.objects[ev.s3Key], cfg.sizes[i]) == Some(thumb)
    ensures ObjectsBetween(cfg, ev, w0, o[Thumbnail(ev.avatarID, cfg.sizes[i]) := thumb])
  {
    assert Thumbnail(ev.avatarID, cfg.sizes[i]) in ThumbKeys(cfg, ev.avatarID, FirstBad(cfg, w0.objects[ev.s3Key], 0));
  }

  lemma StoredOneMore(cfg: Config, ev: UploadEvent, w0: World, w: World, i: nat, thumb: Data)
    requires HasWork(ev, w0) && i < |cfg.sizes| && StoredUpTo(cfg, ev, w0, w, i)
    requires cfg.generate(w0.objects[ev.s3Key], cfg.sizes[i]) == Some(thumb)
    ensures StoredUpTo(cfg, ev, w0, w.(objects := w.objects[Thumbnail(ev.avatarID, cfg.sizes[i]) := thumb]), i + 1)
  {
  }

  lemma RowWrittenBetween(cfg: Config, ev: UploadEvent, w0: World, w: World, pc: UploadPc, c: Call)
    requires HasWork(ev, w0) && ev.s3Key.Original?
    requires pc.MarkFailed? || pc.SaveThumbnails?
    requires Between(cfg, ev, w0, w) && PcBetween(cfg, ev, w0, w, pc)
    ensures var w' := UploadEffect(cfg, ev, pc, w, c);
            Between(cfg, ev, w0, w') && PcBetween(cfg, ev, w0, w', UploadNext(cfg, ev, pc, w, c))
  {
    if Applied(c) {
      RowWritten(cfg, ev, w0, w, pc, c);
    } else {
      assert UploadNext(cfg, ev, pc, w, c) == Errored;
    }
  }

  lemma RowWritten(cfg: Config, ev: UploadEvent, w0: World, w: World, pc: UploadPc, c: Call)
    requires HasWork(ev, w0) && ev.s3Key.Original? && Applied(c)
    requires pc.MarkFailed? || pc.SaveThumbnails?
    requires Between(cfg, ev, w0, w) && PcBetween(cfg, ev, w0, w, pc)
    ensures SameButTouched(UploadEffect(cfg, ev, pc, w, c), Target(cfg, ev, w0))
  {
    AllStored(cfg, ev, w0, w);
    assert SameRow(UploadEffect(cfg, ev, pc, w, c).table[ev.avatarID], TargetRow(cfg, ev, w0));
  }

  lemma StepBetween(cfg: Config, ev: UploadEvent, w0: World, w: World, pc: UploadPc, c: Call)
    requires HasWork(ev, w0) && ev.s3Key.Original?
    requires Between(cfg, ev, w0, w) && PcBetween(cfg, ev, w0, w, pc)
    ensures var w' := UploadEffect(cfg, ev, pc, w, c);
            Between(cfg, ev, w0, w') && PcBetween(cfg, ev, w0, w', UploadNext(cfg, ev, pc, w, c))
  {
    match pc
    case StoreThumb(_, _, _, _) => ThumbStoredBetween(cfg, ev, w0, w, pc, c);
    case MarkFailed => RowWrittenBetween(cfg, ev, w0, w, pc, c);
    case SaveThumbnails(_) => RowWrittenBetween(cfg, ev, w0, w, pc, c);
    case Download => DownloadBetween(cfg, ev, w0, w, c);
    case MarkProcessing => MarkedBetween(cfg, ev, w0, w, c);
    case _ =>
  }

  lemma ThumbStoredBetween(cfg: Config, ev: UploadEvent, w0: World, w: World, pc: UploadPc, c: Call)
    requires HasWork(ev, w0) && pc.StoreThumb?
    requires Between(cfg, ev, w0, w) && PcBetween(cfg, ev, w0, w, pc)
    ensures Between(cfg, ev, w0, UploadEffect(cfg, ev, pc, w, c))
    ensures PcBetween(cfg, ev, w0, UploadEffect(cfg, ev, pc, w, c), UploadNext(cfg, ev, pc, w, c))
  {
    ThumbStoredStores(cfg, ev, w0, w, pc, c);
    ThumbStoredPc(cfg, ev, w0, w, pc);
    if !c.outcome.Success? {
      assert UploadNext(cfg, ev, pc, w, c) == Errored;
    }
  }

  lemma MarkedBetween(cfg: Config, ev: UploadEvent, w0: World, w: World, c: Call)
    requires HasWork(ev, w0) && Between(cfg, ev, w0, w) && PcBetween(cfg, ev, w0, w, MarkProcessing)
    ensures var w' := UploadEffect(cfg, ev, MarkProcessing, w, c);
            Between(cfg, ev, w0, w') && PcBetween(cfg, ev, w0, w', UploadNext(cfg, ev, MarkProcessing, w, c))
  {
  }

  lemma DownloadBetween(cfg: Config, ev: UploadEvent, w0: World, w: World, c: Call)
    requires HasWork(ev, w0) && ev.s3Key.Original?
    requires Between(cfg, ev, w0, w) && PcBetween(cfg, ev, w0, w, Download)
    ensures PcBetween(cfg, ev, w0, w, UploadNext(cfg, ev, Download, w, c))
  {
    OriginalKept(cfg, ev, w0, w);
    assert cfg.sizes[..0] == [];
    NextThumbBetween(cfg, ev, w0, w, 0);
  }

  lemma {:induction false} RunBetween(cfg: Config, ev: UploadEvent, w0: World, w: World, pc: UploadPc, calls: seq<Call>)
    requires HasWork(ev, w0) && ev.s3Key.Original?
    requires Between(cfg, ev, w0, w) && PcBetween(cfg, ev, w0, w, pc)
    ensures var (pc', w') := UploadRun(cfg, ev, pc, w, calls);
            Between(cfg, ev, w0, w') && PcBetween(cfg, ev, w0, w', pc')
    decreases calls
  {
    if calls != [] {
      StepBetween(cfg, ev, w0, w, pc, calls[0]);
      RunBetween(cfg, ev, w0, UploadEffect(cfg, ev, pc, w, calls[0]), UploadNext(cfg, ev, pc, w, calls[0]), calls[1..]);
    }
  }

  lemma {:induction false} AttemptsBetween(cfg: Config, ev: UploadEvent, w0: World, w: World, tries: seq<seq<Call>>)
    requires HasWork(ev, w0) && ev.s3Key.Original? && Between(cfg, ev, w0, w)
    ensures Between(cfg, ev, w0, AfterAttempts(cfg, ev, w, tries))
    decreases tries
  {
    if tries != [] {
      RunBetween(cfg, ev, w0, w, ReadRow, tries[0]);
      AttemptsBetween(cfg, ev, w0, UploadRun(cfg, ev, ReadRow, w, tries[0]).1, tries[1..]);
    }
  }

  // ---------------------------------------------------------------------------------------
  // Nothing to do
  // ---------------------------------------------------------------------------------------

  /** Nobody can read the row, or it is handled: an attempt changes nothing, whatever fails. */
  lemma {:induction false} SkippedRun(cfg: Config, ev: UploadEvent, w: World, pc: UploadPc, calls: seq<Call>)
    requires Skips(w, ev.avatarID) && (pc.ReadRow? || pc == Returned(ObservedSkipped) || pc.Errored?)
    ensures var (pc', w') := UploadRun(cfg, ev, pc, w, calls);
            w' == w && (pc'.ReadRow? || pc' == Returned(ObservedSkipped) || pc'.Errored?)
    decreases calls
  {
    if calls != [] {
      SkippedRun(cfg, ev, w, UploadNext(cfg, ev, pc, w, calls[0]), calls[1..]);
    }
  }

  /** Without its original an unhandled row only ever becomes processing, and no attempt returns. */
  lemma {:induction false} OrphanRun(cfg: Config, ev: UploadEvent, w: World, pc: UploadPc, calls: seq<Call>)
    requires !Skips(w, ev.avatarID)
    requires ev.s3Key !in w.objects && (pc.ReadRow? || pc.MarkProcessing? || pc.Download? || pc.Errored?)
    ensures var (pc', w') := UploadRun(cfg, ev, pc, w, calls);
            && !pc'.Returned? && w'.objects == w.objects
            && !Skips(w', ev.avatarID)
    decreases calls
  {
    if calls != [] {
      OrphanRun(cfg, ev, UploadEffect(cfg, ev, pc, w, calls[0]), UploadNext(cfg, ev, pc, w, calls[0]), calls[1..]);
    }
  }

  lemma {:induction false} AttemptsWithoutWork(cfg: Config, ev: UploadEvent, w: World, tries: seq<seq<Call>>)
    requires !HasWork(ev, w)
    ensures var w' := AfterAttempts(cfg, ev, w, tries);
            && !HasWork(ev, w')
            && (Skips(w, ev.avatarID) ==> w' == w)
            && (!Skips(w, ev.avatarID) ==> !Skips(w', ev.avatarID))
    decreases tries
  {
    if tries != [] {
      var next := UploadRun(cfg, ev, ReadRow, w, tries[0]).1;
      if Skips(w, ev.avatarID) {
        SkippedRun(cfg, ev, w, ReadRow, tries[0]);
      } else {
        OrphanRun(cfg, ev, w, ReadRow, tries[0]);
      }
      AttemptsWithoutWork(cfg, ev, next, tries[1..]);
    }
  }

  // ---------------------------------------------------------------------------------------
  // Convergence
  // ---------------------------------------------------------------------------------------

  lemma AttemptsReachTarget(cfg: Config, ev: UploadEvent, w: World, tries: seq<seq<Call>>, last: seq<Call>)
    requires ev.s3Key.Original?
    requires UploadRun(cfg, ev, ReadRow, AfterAttempts(cfg, ev, w, tries), last).0.Returned?
    ensures SameButTouched(UploadRun(cfg, ev, ReadRow, AfterAttempts(cfg, ev, w, tries), last).1, Target(cfg, ev, w))
  {
    var mid := AfterAttempts(cfg, ev, w, tries);
    if HasWork(ev, w) {
      AttemptsBetween(cfg, ev, w, w, tries);
      RunBetween(cfg, ev, w, mid, ReadRow, last);
    } else {
      AttemptsWithoutWork(cfg, ev, w, tries);
      if Skips(w, ev.avatarID) {
        SkippedRun(cfg, ev, mid, ReadRow, last);
      } else {
        OrphanRun(cfg, ev, mid, ReadRow, last);
      }
    }
  }

  /** Any attempts, stopped at arbitrary calls, and then one that returns, leave the same rows
      (apart from updated_at) and the same objects as one attempt that returns from the start. */
  lemma RetriesConverge(cfg: Config, ev: UploadEvent, w: World, tries: seq<seq<Call>>, last: seq<Call>, single: seq<Call>)
    requires ev.s3Key.Original?
    requires UploadRun(cfg, ev, ReadRow, AfterAttempts(cfg, ev, w, tries), last).0.Returned?
    requires UploadRun(cfg, ev, ReadRow, w, single).0.Returned?
    ensures SameButTouched(UploadRun(cfg, ev, ReadRow, AfterAttempts(cfg, ev, w, tries), last).1,
                           UploadRun(cfg, ev, ReadRow, w, single).1)
  {
    AttemptsReachTarget(cfg, ev, w, tries, last);
    AttemptsReachTarget(cfg, ev, w, [], single);
  }

  /** What the returned status says about the row. */
  ghost predicate StatusTold(id: Id, w0: World, w: World, pc: UploadPc) {
    match pc
    case ReadRow => w == w0
    case Returned(ObservedSkipped) => w == w0 && Skips(w0, id)
    case Returned(ObservedOK) => id in w.table && w.table[id].processingStatus == Completed
    case Returned(ObservedError) => id in w.table && w.table[id].processingStatus == ProcessingFailed
    case _ => !Skips(w0, id)
  }

  lemma {:induction false} StatusRun(cfg: Config, ev: UploadEvent, w0: World, w: World, pc: UploadPc, calls: seq<Call>)
    requires StatusTold(ev.avatarID, w0, w, pc) || pc.Errored?
    ensures var (pc', w') := UploadRun(cfg, ev, pc, w, calls); StatusTold(ev.avatarID, w0, w', pc') || pc'.Errored?
    decreases calls
  {
    if calls != [] {
      StatusRun(cfg, ev, w0, UploadEffect(cfg, ev, pc, w, calls[0]), UploadNext(cfg, ev, pc, w, calls[0]), calls[1..]);
    }
  }

  /** A handler that returns nil observes skipped exactly when the guard skips, else ok exactly when
      every size could be made, and error when the file does not decode, which is not retried. */
  lemma ObservationTells(cfg: Config, ev: UploadEvent, w: World, calls: seq<Call>)
    requires ev.s3Key.Original? && UploadRun(cfg, ev, ReadRow, w, calls).0.Returned?
    ensures var status := UploadRun(cfg, ev, ReadRow, w, calls).0.status;
            if Skips(w, ev.avatarID) then status == ObservedSkipped
            else HasWork(ev, w) &&
                 status == if FirstBad(cfg, w.objects[ev.s3Key], 0) == |cfg.sizes| then ObservedOK else ObservedError
  {
    var (pc, w') := UploadRun(cfg, ev, ReadRow, w, calls);
    if Skips(w, ev.avatarID) {
      SkippedRun(cfg, ev, w, ReadRow, calls);
    } else {
      StatusRun(cfg, ev, w, w, ReadRow, calls);
      if ev.s3Key !in w.objects {
        OrphanRun(cfg, ev, w, ReadRow, calls);
      }
      AttemptsReachTarget(cfg, ev, w, [], calls);
      assert SameRow(w'.table[ev.avatarID], TargetRow(cfg, ev, w));
    }
  }

  function Rank(cfg: Config, pc: UploadPc): int {
    match pc
    case ReadRow => |cfg.sizes| + 4
    case MarkProcessing => |cfg.sizes| + 3
    case Download => |cfg.sizes| + 2
    case StoreThumb(_, _, i, _) => |cfg.sizes| + 1 - i
    case MarkFailed => 1
    case SaveThumbnails(_) => 1
    case _ => 0
  }

  /** An attempt without faults returns, unless there is work without an original. */
  lemma {:induction false} FaultFreeReturns(cfg: Config, ev: UploadEvent, w: World, pc: UploadPc) returns (calls: seq<Call>)
    requires Postgres.Live(w.table, ev.avatarID) ==> ev.s3Key in w.objects
    requires pc.ReadRow? || pc.Returned? || Postgres.Live(w.table, ev.avatarID)
    requires !pc.Errored? && (pc.StoreThumb? ==> pc.i < |cfg.sizes|)
    ensures UploadRun(cfg, ev, pc, w, calls).0.Returned?
    ensures forall i | 0 <= i < |calls| :: calls[i] == FAULT_FREE
    decreases Rank(cfg, pc)
  {
    if pc.Returned? {
      calls := [];
    } else {
      var pc', w' := UploadNext(cfg, ev, pc, w, FAULT_FREE), UploadEffect(cfg, ev, pc, w, FAULT_FREE);
      var rest := FaultFreeReturns(cfg, ev, w', pc');
      calls := [FAULT_FREE] + rest;
      assert calls[1..] == rest;
    }
  }

  /** Replays are inert after a success: whatever fails behind their successful row read. */
  ghost predicate ReplaysAreInert(cfg: Config, ev: UploadEvent, w: World) {
    forall calls: seq<Call> | calls != [] && calls[0].outcome.Success? ::
      SameButTouched(w, UploadRun(cfg, ev, ReadRow, w, calls).1)
  }

  /** After an attempt that returned, replays change nothing exactly when, at the start of that
      attempt, the guard skipped or the original decoded at every size. A live avatar whose file
      does not decode stays replayable: a replay takes it from failed back to processing, and
      leaves it there if a later call fails. */
  lemma ReplaysAreInertIff(cfg: Config, ev: UploadEvent, w: World, calls: seq<Call>)
    requires ev.s3Key.Original? && UploadRun(cfg, ev, ReadRow, w, calls).0.Returned?
    ensures ReplaysAreInert(cfg, ev, UploadRun(cfg, ev, ReadRow, w, calls).1) <==>
            Skips(w, ev.avatarID) ||
            (ev.s3Key in w.objects && FirstBad(cfg, w.objects[ev.s3Key], 0) == |cfg.sizes|)
  {
    var w' := UploadRun(cfg, ev, ReadRow, w, calls).1;
    SkippedAfterReturn(cfg, ev, w, calls);
    if Skips(w', ev.avatarID) {
      forall replay: seq<Call> | replay != [] && replay[0].outcome.Success?
        ensures SameButTouched(w', UploadRun(cfg, ev, ReadRow, w', replay).1)
      {
        SkippedRun(cfg, ev, w', ReadRow, replay);
      }
    } else {
      LiveAfterReturn(cfg, ev, w, calls);
      ReplayRegresses(cfg, ev, w');
    }
  }

  /** The next delivery is skipped exactly when this one was, or made every size. */
  lemma SkippedAfterReturn(cfg: Config, ev: UploadEvent, w: World, calls: seq<Call>)
    requires ev.s3Key.Original? && UploadRun(cfg, ev, ReadRow, w, calls).0.Returned?
    ensures Skips(UploadRun(cfg, ev, ReadRow, w, calls).1, ev.avatarID) <==>
            Skips(w, ev.avatarID) ||
            (ev.s3Key in w.objects && FirstBad(cfg, w.objects[ev.s3Key], 0) == |cfg.sizes|)
  {
    var w' := UploadRun(cfg, ev, ReadRow, w, calls).1;
    ObservationTells(cfg, ev, w, calls);
    AttemptsReachTarget(cfg, ev, w, [], calls);
    assert ev.avatarID in w'.table ==> SameRow(w'.table[ev.avatarID], Target(cfg, ev, w).table[ev.avatarID]);
  }

  lemma LiveAfterReturn(cfg: Config, ev: UploadEvent, w: World, calls: seq<Call>)
    requires ev.s3Key.Original? && UploadRun(cfg, ev, ReadRow, w, calls).0.Returned?
    requires var w' := UploadRun(cfg, ev, ReadRow, w, calls).1;
             !Skips(w', ev.avatarID)
    ensures UploadRun(cfg, ev, ReadRow, w, calls).1.table[ev.avatarID].processingStatus == ProcessingFailed
  {
    var w' := UploadRun(cfg, ev, ReadRow, w, calls).1;
    AttemptsReachTarget(cfg, ev, w, [], calls);
    assert SameRow(w'.table[ev.avatarID], Target(cfg, ev, w).table[ev.avatarID]);
    if !HasWork(ev, w) {
      if !Skips(w, ev.avatarID) {
        OrphanRun(cfg, ev, w, ReadRow, calls);
      }
    }
  }

  lemma ReplayRegresses(cfg: Config, ev: UploadEvent, w: World)
    requires Postgres.Live(w.table, ev.avatarID) && w.table[ev.avatarID].processingStatus == ProcessingFailed
    ensures !ReplaysAreInert(cfg, ev, w)
  {
    var replay := [FAULT_FREE] + [FAULT_FREE];
    UploadRunSnoc(cfg, ev, ReadRow, w, [], FAULT_FREE);
    assert [] + [FAULT_FREE] == [FAULT_FREE];
    UploadRunSnoc(cfg, ev, ReadRow, w, [FAULT_FREE], FAULT_FREE);
    var w' := UploadRun(cfg, ev, ReadRow, w, replay).1;
    assert w'.table[ev.avatarID].processingStatus == Processing;
    assert !SameRow(w.table[ev.avatarID], w'.table[ev.avatarID]);
  }

  // ---------------------------------------------------------------------------------------
  // The cleanup converges, in any order of keys
  // ---------------------------------------------------------------------------------------

  ghost function AfterRemovals(ev: DeleteEvent, w: World, tries: seq<seq<Call>>): World
    decreases tries
  {
    if tries == [] then w else AfterRemovals(ev, DeleteRun(ev, NextKey(ev, 0), w, tries[0]).1, tries[1..])
  }

  ghost function KeySet(ev: DeleteEvent): set<Key> {
    set k | k in ev.s3Keys
  }

  /** What a delete event comes to: it depends on the set of its keys alone. */
  ghost function Cleaned(id: Id, keys: set<Key>, w: World): World {
    World(if id in w.table then w.table[id := w.table[id].(processingStatus := Deleted)] else w.table,
          w.objects - keys)
  }

  /** Some of the keys are removed, none else; the status is the first one or deleted. */
  ghost predicate Removing(ev: DeleteEvent, w0: World, w: World) {
    && w0.objects - KeySet(ev) == w.objects - KeySet(ev)
    && (forall k | k in w.objects :: k in w0.objects)
    && (SameTable(w.table, w0.table) || SameTable(w.table, Cleaned(ev.avatarID, KeySet(ev), w0).table))
  }

  ghost predicate RemovingPc(ev: DeleteEvent, w0: World, w: World, pc: DeletePc) {
    match pc
    case RemoveKey(i) => i < |ev.s3Keys| && forall k | k in ev.s3Keys[..i] :: k !in w.objects
    case MarkDeleted => forall k | k in ev.s3Keys :: k !in w.objects
    case DeleteReturned => SameButTouched(w, Cleaned(ev.avatarID, KeySet(ev), w0))
    case DeleteErrored => true
  }

  lemma RemovalStep(ev: DeleteEvent, w0: World, w: World, pc: DeletePc, c: Call)
    requires Removing(ev, w0, w) && RemovingPc(ev, w0, w, pc)
    ensures var w' := DeleteEffect(ev, pc, w, c);
            Removing(ev, w0, w') && RemovingPc(ev, w0, w', DeleteNext(ev, pc, w, c))
  {
    match pc
    case RemoveKey(i) => KeyRemoved(ev, w0, w, i, c);
    case MarkDeleted => DeletionMarked(ev, w0, w, c);
    case _ =>
  }

  lemma KeyRemoved(ev: DeleteEvent, w0: World, w: World, i: nat, c: Call)
    requires Removing(ev, w0, w) && RemovingPc(ev, w0, w, RemoveKey(i))
    ensures var w' := DeleteEffect(ev, RemoveKey(i), w, c);
            Removing(ev, w0, w') && RemovingPc(ev, w0, w', DeleteNext(ev, RemoveKey(i), w, c))
  {
    var w' := DeleteEffect(ev, RemoveKey(i), w, c);
    assert ev.s3Keys[i] in KeySet(ev);
    assert w'.objects - KeySet(ev) == w.objects - KeySet(ev);
    if c.outcome.Success? {
      assert ev.s3Keys[..i + 1] == ev.s3Keys[..i] + [ev.s3Keys[i]];
      assert ev.s3Keys[..|ev.s3Keys|] == ev.s3Keys;
    }
  }

  /** Marking a row deleted, once more or for the first time, gives the cleaned row. */
  lemma StatusMarked(ev: DeleteEvent, w0: World, w: World, c: Call)
    requires Removing(ev, w0, w) && Applied(c)
    ensures SameTable(Postgres.SetProcessingStatus(w.table, ev.avatarID, Deleted, c),
                      Cleaned(ev.avatarID, KeySet(ev), w0).table)
  {
  }

  lemma DeletionMarked(ev: DeleteEvent, w0: World, w: World, c: Call)
    requires Removing(ev, w0, w) && RemovingPc(ev, w0, w, MarkDeleted)
    ensures var w' := DeleteEffect(ev, MarkDeleted, w, c);
            Removing(ev, w0, w') && RemovingPc(ev, w0, w', DeleteNext(ev, MarkDeleted, w, c))
  {
    assert w.objects - KeySet(ev) == w.objects;
    if Applied(c) {
      StatusMarked(ev, w0, w, c);
    }
  }

  lemma {:induction false} RemovalRun(ev: DeleteEvent, w0: World, w: World, pc: DeletePc, calls: seq<Call>)
    requires Removing(ev, w0, w) && RemovingPc(ev, w0, w, pc)
    ensures var (pc', w') := DeleteRun(ev, pc, w, calls); Removing(ev, w0, w') && RemovingPc(ev, w0, w', pc')
    decreases calls
  {
    if calls != [] {
      RemovalStep(ev, w0, w, pc, calls[0]);
      RemovalRun(ev, w0, DeleteEffect(ev, pc, w, calls[0]), DeleteNext(ev, pc, w, calls[0]), calls[1..]);
    }
  }

  lemma {:induction false} RemovalAttempts(ev: DeleteEvent, w0: World, w: World, tries: seq<seq<Call>>)
    requires Removing(ev, w0, w)
    ensures Removing(ev, w0, AfterRemovals(ev, w, tries))
    decreases tries
  {
    if tries != [] {
      RemovalRun(ev, w0, w, NextKey(ev, 0), tries[0]);
      RemovalAttempts(ev, w0, DeleteRun(ev, NextKey(ev, 0), w, tries[0]).1, tries[1..]);
    }
  }

  /** Any removal attempts and then one that returns leave the first objects minus the key set,
      and status deleted when the row exists. */
  lemma DeletesConverge(ev: DeleteEvent, w: World, tries: seq<seq<Call>>, last: seq<Call>)
    requires DeleteRun(ev, NextKey(ev, 0), AfterRemovals(ev, w, tries), last).0.DeleteReturned?
    ensures SameButTouched(DeleteRun(ev, NextKey(ev, 0), AfterRemovals(ev, w, tries), last).1,
                           Cleaned(ev.avatarID, KeySet(ev), w))
  {
    RemovalAttempts(ev, w, w, tries);
    RemovalRun(ev, w, AfterRemovals(ev, w, tries), NextKey(ev, 0), last);
  }

  /** The order and the repetition of the keys do not matter. */
  lemma KeyOrderIsIrrelevant(ev: DeleteEvent, ev': DeleteEvent, w: World, calls: seq<Call>, calls': seq<Call>)
    requires ev.avatarID == ev'.avatarID && forall k :: k in ev.s3Keys <==> k in ev'.s3Keys
    requires DeleteRun(ev, NextKey(ev, 0), w, calls).0.DeleteReturned?
    requires DeleteRun(ev', NextKey(ev', 0), w, calls').0.DeleteReturned?
    ensures SameButTouched(DeleteRun(ev, NextKey(ev, 0), w, calls).1, DeleteRun(ev', NextKey(ev', 0), w, calls').1)
  {
    assert KeySet(ev) == KeySet(ev');
    DeletesConverge(ev, w, [], calls);
    DeletesConverge(ev', w, [], calls');
  }
}
