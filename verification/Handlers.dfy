/** What one handler call comes to when it runs alone and any of its calls fails: how many calls it
    makes, how it ends, and what it leaves, told from the fate of its calls. */
module Handlers {
  import opened KeyLayout
  import opened Avatars
  import opened Calls
  import opened Processor
  import opened Convergence
  import Postgres

  // ---------------------------------------------------------------------------------------
  // Calls
  // ---------------------------------------------------------------------------------------

  /** Every call but the last succeeded: the first that does not ends the handler. */
  predicate StopsAtFirstFault(calls: seq<Call>) {
    forall i | 0 <= i < |calls| - 1 :: calls[i].outcome.Success?
  }

  predicate LastSucceeded(calls: seq<Call>) {
    calls != [] && calls[|calls| - 1].outcome.Success?
  }

  /** How many calls took effect, when all but the last succeeded. */
  function Effective(calls: seq<Call>): nat {
    if calls == [] then 0 else if Applied(calls[|calls| - 1]) then |calls| else |calls| - 1
  }

  lemma OneMoreCall(c: Call, rest: seq<Call>)
    requires c.outcome.Success? && rest != []
    ensures var calls := [c] + rest;
            && (StopsAtFirstFault(rest) ==> StopsAtFirstFault(calls))
            && (LastSucceeded(calls) <==> LastSucceeded(rest))
            && Effective(calls) == Effective(rest) + 1
            && calls[|calls| - 1] == rest[|rest| - 1]
  {
    var calls := [c] + rest;
    assert calls[|calls| - 1] == rest[|rest| - 1];
    assert forall i | 0 < i < |calls| :: calls[i] == rest[i - 1];
  }

  // ---------------------------------------------------------------------------------------
  // HandleUpload
  // ---------------------------------------------------------------------------------------

  /** A handler that has not ended makes a next call, and none after its end. */
  lemma UploadTail(cfg: Config, ev: UploadEvent, pc: UploadPc, w: World, calls: seq<Call>)
    requires UploadEnds(cfg, ev, pc, w, calls) && !Ended(pc)
    ensures calls != []
    ensures var pc', w' := UploadNext(cfg, ev, pc, w, calls[0]), UploadEffect(cfg, ev, pc, w, calls[0]);
            && UploadEnds(cfg, ev, pc', w', calls[1..])
            && UploadRun(cfg, ev, pc, w, calls) == UploadRun(cfg, ev, pc', w', calls[1..])
            && (Ended(pc') ==> |calls| == 1 && UploadRun(cfg, ev, pc, w, calls) == (pc', w'))
  {
  }

  function Min(a: int, b: int): int {
    if a <= b then a else b
  }

  /** The calls of a delivery that meets no fault: the row read alone when the guard skips; up to the
      download when the original is missing; otherwise a store for each size up to the first that
      cannot be made, and the last status write. */
  function Planned(cfg: Config, ev: UploadEvent, w: World): nat {
    if Skips(w, ev.avatarID) then 1
    else if ev.s3Key !in w.objects then 3
    else 4 + FirstBad(cfg, w.objects[ev.s3Key], 0)
  }

  /** The objects with the thumbnails of the first n sizes stored. */
  function WithThumbs(cfg: Config, id: Id, src: Data, o: Objects, n: nat): Objects
    requires n <= FirstBad(cfg, src, 0)
  {
    if n == 0 then o
    else WithThumbs(cfg, id, src, o, n - 1)[Thumbnail(id, cfg.sizes[n - 1]) := cfg.generate(src, cfg.sizes[n - 1]).value]
  }

  /** The row after its last status write. */
  function Done(cfg: Config, src: Data, a: Avatar, now: nat): Avatar {
    if FirstBad(cfg, src, 0) == |cfg.sizes|
    then a.(thumbnails := ThumbnailMap(a.id, cfg.sizes), processingStatus := Completed, updatedAt := now)
    else a.(processingStatus := ProcessingFailed, updatedAt := now)
  }

  /** How a delivery ends that meets no fault. */
  function PlannedEnd(cfg: Config, ev: UploadEvent, w: World): UploadPc {
    if Skips(w, ev.avatarID) then Returned(ObservedSkipped)
    else if ev.s3Key !in w.objects then Errored
    else Returned(if FirstBad(cfg, w.objects[ev.s3Key], 0) == |cfg.sizes| then ObservedOK else ObservedError)
  }

  /** The end of a handler that has made i thumbnails of `src`, on the row it
      marked processing. */
  ghost predicate LoopConcludes(cfg: Config, ev: UploadEvent, src: Data, o: Objects, i: nat, w: World, calls: seq<Call>, end: (UploadPc, World))
    requires i <= FirstBad(cfg, src, 0) && ev.avatarID in w.table
  {
    var bad, id := FirstBad(cfg, src, 0), ev.avatarID;
    && 0 < |calls| <= bad - i + 1 && StopsAtFirstFault(calls)
    && (if LastSucceeded(calls)
        then |calls| == bad - i + 1 && end.0 == Returned(if bad == |cfg.sizes| then ObservedOK else ObservedError)
        else end.0 == Errored)
    && end.1.objects == WithThumbs(cfg, id, src, o, Min(i + Effective(calls), bad))
    && end.1.table == if Effective(calls) <= bad - i then w.table
                      else w.table[id := Done(cfg, src, w.table[id], calls[|calls| - 1].now)]
  }

  /** The last call: the keys, or the failure, are written. */
  lemma LastWriteConcludes(cfg: Config, ev: UploadEvent, src: Data, o: Objects, w: World, calls: seq<Call>)
    requires ev.avatarID in w.table && w.table[ev.avatarID].id == ev.avatarID
    requires w.objects == WithThumbs(cfg, ev.avatarID, src, o, FirstBad(cfg, src, 0))
    requires var i := FirstBad(cfg, src, 0);
             UploadEnds(cfg, ev, NextThumb(cfg, src, ThumbnailMap(ev.avatarID, cfg.sizes[..i]), i), w, calls)
    ensures var i := FirstBad(cfg, src, 0);
            LoopConcludes(cfg, ev, src, o, i, w, calls,
                          UploadRun(cfg, ev, NextThumb(cfg, src, ThumbnailMap(ev.avatarID, cfg.sizes[..i]), i), w, calls))
  {
    assert cfg.sizes[..|cfg.sizes|] == cfg.sizes;
    var i := FirstBad(cfg, src, 0);
    UploadTail(cfg, ev, NextThumb(cfg, src, ThumbnailMap(ev.avatarID, cfg.sizes[..i]), i), w, calls);
  }

  lemma {:induction false} ThumbsConclude(cfg: Config, ev: UploadEvent, src: Data, o: Objects, i: nat, w: World, calls: seq<Call>)
    requires ev.avatarID in w.table && w.table[ev.avatarID].id == ev.avatarID && i <= FirstBad(cfg, src, 0)
    requires w.objects == WithThumbs(cfg, ev.avatarID, src, o, i)
    requires UploadEnds(cfg, ev, NextThumb(cfg, src, ThumbnailMap(ev.avatarID, cfg.sizes[..i]), i), w, calls)
    ensures LoopConcludes(cfg, ev, src, o, i, w, calls,
                          UploadRun(cfg, ev, NextThumb(cfg, src, ThumbnailMap(ev.avatarID, cfg.sizes[..i]), i), w, calls))
    decreases calls
  {
    if i == FirstBad(cfg, src, 0) {
      LastWriteConcludes(cfg, ev, src, o, w, calls);
    } else {
      var pc := NextThumb(cfg, src, ThumbnailMap(ev.avatarID, cfg.sizes[..i]), i);
      UploadTail(cfg, ev, pc, w, calls);
      StoreGoes(cfg, ev, src, o, i, w, calls[0]);
      if calls[0].outcome.Success? {
        var w' := UploadEffect(cfg, ev, pc, w, calls[0]);
        ThumbsConclude(cfg, ev, src, o, i + 1, w', calls[1..]);
        OneThumbMore(cfg, ev, src, o, i, w, w', calls, UploadRun(cfg, ev, pc, w, calls));
      } else {
        StoreFails(cfg, ev, src, o, i, w, UploadEffect(cfg, ev, pc, w, calls[0]), calls);
      }
    }
  }

  /** One store call of the loop. */
  lemma StoreGoes(cfg: Config, ev: UploadEvent, src: Data, o: Objects, i: nat, w: World, c: Call)
    requires i < FirstBad(cfg, src, 0) && w.objects == WithThumbs(cfg, ev.avatarID, src, o, i)
    ensures var pc := NextThumb(cfg, src, ThumbnailMap(ev.avatarID, cfg.sizes[..i]), i);
            && pc.StoreThumb?
            && UploadEffect(cfg, ev, pc, w, c)
               == w.(objects := WithThumbs(cfg, ev.avatarID, src, o, if Applied(c) then i + 1 else i))
            && UploadNext(cfg, ev, pc, w, c)
               == if c.outcome.Success? then NextThumb(cfg, src, ThumbnailMap(ev.avatarID, cfg.sizes[..i + 1]), i + 1)
                  else Errored
  {
    FirstBadMakes(cfg, src, 0, i);
    ThumbnailMapStep(ev.avatarID, cfg.sizes, i);
  }

  lemma StoreFails(cfg: Config, ev: UploadEvent, src: Data, o: Objects, i: nat, w: World, w': World, calls: seq<Call>)
    requires i < FirstBad(cfg, src, 0) && ev.avatarID in w.table && |calls| == 1 && !calls[0].outcome.Success?
    requires w' == w.(objects := WithThumbs(cfg, ev.avatarID, src, o, if Applied(calls[0]) then i + 1 else i))
    ensures LoopConcludes(cfg, ev, src, o, i, w, calls, (Errored, w'))
  {
  }

  lemma OneThumbMore(cfg: Config, ev: UploadEvent, src: Data, o: Objects, i: nat, w: World, w': World, calls: seq<Call>,
                     end: (UploadPc, World))
    requires i < FirstBad(cfg, src, 0) && ev.avatarID in w.table && w'.table == w.table
    requires calls != [] && calls[0].outcome.Success?
    requires LoopConcludes(cfg, ev, src, o, i + 1, w', calls[1..], end)
    ensures LoopConcludes(cfg, ev, src, o, i, w, calls, end)
  {
    OneMoreCall(calls[0], calls[1..]);
    assert calls == [calls[0]] + calls[1..];
  }

  /** What is below the first bad size can be made. */
  lemma FirstBadMakes(cfg: Config, src: Data, i: nat, j: nat)
    requires i <= |cfg.sizes| && i <= j < FirstBad(cfg, src, i)
    ensures j < |cfg.sizes| && cfg.generate(src, cfg.sizes[j]).Some?
  {
  }

  /** HandleUpload under every pattern of failures. It returns nil only if every call it made
      succeeded; the first one that does not succeed is its last call and its error. Without one it
      makes the calls of its plan and ends as planned. What it leaves is what the calls that took
      effect left: nothing before the first status write, then the status processing and one
      thumbnail after the other, and last the final row. */
  lemma HandleUploadConcludes(cfg: Config, ev: UploadEvent, w: World, calls: seq<Call>)
    requires Postgres.Keyed(w.table) && UploadEnds(cfg, ev, ReadRow, w, calls)
    ensures
      var (pc, w') := UploadRun(cfg, ev, ReadRow, w, calls);
      var n, id, plan := Effective(calls), ev.avatarID, Planned(cfg, ev, w);
      && 0 < |calls| <= plan && StopsAtFirstFault(calls)
      && (if LastSucceeded(calls) then |calls| == plan && pc == PlannedEnd(cfg, ev, w) else pc == Errored)
      && (if Skips(w, id) || n < 2 then w' == w
          else if n < 4 then w' == w.(table := w.table[id := Marked(w.table[id], calls[1].now)])
          else
            && ev.s3Key in w.objects
            && var src := w.objects[ev.s3Key]; var bad := FirstBad(cfg, src, 0); var marked := Marked(w.table[id], calls[1].now);
               && w'.objects == WithThumbs(cfg, id, src, w.objects, Min(n - 3, bad))
               && w'.table == w.table[id := if n == plan then Done(cfg, src, marked, calls[n - 1].now) else marked])
  {
    UploadTail(cfg, ev, ReadRow, w, calls);
    var c0, rest := calls[0], calls[1..];
    assert UploadEffect(cfg, ev, ReadRow, w, c0) == w;
    if !Ended(UploadNext(cfg, ev, ReadRow, w, c0)) {
      MarkConcludes(cfg, ev, w, rest);
      OneMoreCall(c0, rest);
      assert calls == [c0] + rest;
    }
  }

  function Marked(a: Avatar, now: nat): Avatar {
    a.(processingStatus := Processing, updatedAt := now)
  }

  /** The same from the first status write on. */
  lemma MarkConcludes(cfg: Config, ev: UploadEvent, w: World, calls: seq<Call>)
    requires Postgres.Keyed(w.table) && !Skips(w, ev.avatarID) && UploadEnds(cfg, ev, MarkProcessing, w, calls)
    ensures
      var (pc, w') := UploadRun(cfg, ev, MarkProcessing, w, calls);
      var n, id, plan := Effective(calls), ev.avatarID, Planned(cfg, ev, w) - 1;
      && 0 < |calls| <= plan && StopsAtFirstFault(calls)
      && (if LastSucceeded(calls) then |calls| == plan && pc == PlannedEnd(cfg, ev, w) else pc == Errored)
      && (if n < 1 then w' == w
          else if n < 3 then w' == w.(table := w.table[id := Marked(w.table[id], calls[0].now)])
          else
            && ev.s3Key in w.objects
            && var src := w.objects[ev.s3Key]; var bad := FirstBad(cfg, src, 0); var marked := Marked(w.table[id], calls[0].now);
               && w'.objects == WithThumbs(cfg, id, src, w.objects, Min(n - 2, bad))
               && w'.table == w.table[id := if n == plan then Done(cfg, src, marked, calls[n - 1].now) else marked])
  {
    UploadTail(cfg, ev, MarkProcessing, w, calls);
    var c0, rest := calls[0], calls[1..];
    if c0.outcome.Success? {
      DownloadConcludes(cfg, ev, UploadEffect(cfg, ev, MarkProcessing, w, c0), rest);
      OneMoreCall(c0, rest);
      assert calls == [c0] + rest;
    }
  }

  /** The same from the download on. */
  lemma DownloadConcludes(cfg: Config, ev: UploadEvent, w: World, calls: seq<Call>)
    requires ev.avatarID in w.table && w.table[ev.avatarID].id == ev.avatarID && UploadEnds(cfg, ev, Download, w, calls)
    ensures
      var (pc, w') := UploadRun(cfg, ev, Download, w, calls);
      var n, id := Effective(calls), ev.avatarID;
      && calls != [] && StopsAtFirstFault(calls)
      && if ev.s3Key !in w.objects then |calls| == 1 && pc == Errored && w' == w
         else
           var src := w.objects[ev.s3Key]; var bad := FirstBad(cfg, src, 0);
           && |calls| <= bad + 2
           && (if LastSucceeded(calls)
               then |calls| == bad + 2 && pc == Returned(if bad == |cfg.sizes| then ObservedOK else ObservedError)
               else pc == Errored)
           && w'.objects == WithThumbs(cfg, id, src, w.objects, if n == 0 then 0 else Min(n - 1, bad))
           && w'.table == if n < bad + 2 then w.table else w.table[id := Done(cfg, src, w.table[id], calls[n - 1].now)]
  {
    UploadTail(cfg, ev, Download, w, calls);
    var c0, rest := calls[0], calls[1..];
    if c0.outcome.Success? && ev.s3Key in w.objects {
      assert cfg.sizes[..0] == [];
      ThumbsConclude(cfg, ev, w.objects[ev.s3Key], w.objects, 0, w, rest);
      OneMoreCall(c0, rest);
      assert calls == [c0] + rest;
    }
  }

  /** A nil answer means that no call failed. */
  lemma NilMeansNoFault(cfg: Config, ev: UploadEvent, w: World, calls: seq<Call>)
    requires Postgres.Keyed(w.table) && UploadEnds(cfg, ev, ReadRow, w, calls)
    requires UploadRun(cfg, ev, ReadRow, w, calls).0.Returned?
    ensures forall c | c in calls :: c.outcome.Success?
  {
    HandleUploadConcludes(cfg, ev, w, calls);
  }

  // ---------------------------------------------------------------------------------------
  // HandleDelete
  // ---------------------------------------------------------------------------------------

  /** HandleDelete under every pattern of failures. It returns nil exactly when the removal of every
      key and the status write succeeded, whether the row exists or not; the first call that does not
      succeed is the last. It leaves the objects without the keys whose removal took effect, in order,
      and the row marked when that write did. */
  lemma HandleDeleteConcludes(ev: DeleteEvent, w: World, calls: seq<Call>)
    requires DeleteEnds(ev, NextKey(ev, 0), w, calls)
    ensures CleansUp(ev, 0, w, calls, DeleteRun(ev, NextKey(ev, 0), w, calls))
  {
    KeysConclude(ev, 0, w, calls);
  }

  function Without(o: Objects, keys: seq<Key>): Objects {
    map k | k in o && k !in keys :: o[k]
  }

  ghost predicate CleansUp(ev: DeleteEvent, i: nat, w: World, calls: seq<Call>, end: (DeletePc, World))
    requires i <= |ev.s3Keys|
  {
    var n, left := Effective(calls), |ev.s3Keys| - i;
    && 0 < |calls| <= left + 1 && StopsAtFirstFault(calls)
    && (if LastSucceeded(calls) then |calls| == left + 1 && end.0 == DeleteReturned else end.0 == DeleteErrored)
    && end.1.objects == Without(w.objects, ev.s3Keys[i..i + Min(n, left)])
    && end.1.table == if n <= left || ev.avatarID !in w.table then w.table
                      else w.table[ev.avatarID := w.table[ev.avatarID].(processingStatus := Deleted,
                                                                        updatedAt := calls[|calls| - 1].now)]
  }

  lemma DeleteTail(ev: DeleteEvent, pc: DeletePc, w: World, calls: seq<Call>)
    requires DeleteEnds(ev, pc, w, calls) && !DeleteEnded(pc)
    ensures calls != []
    ensures var pc', w' := DeleteNext(ev, pc, w, calls[0]), DeleteEffect(ev, pc, w, calls[0]);
            && DeleteEnds(ev, pc', w', calls[1..])
            && DeleteRun(ev, pc, w, calls) == DeleteRun(ev, pc', w', calls[1..])
            && (DeleteEnded(pc') ==> |calls| == 1 && DeleteRun(ev, pc, w, calls) == (pc', w'))
  {
  }

  lemma {:induction false} KeysConclude(ev: DeleteEvent, i: nat, w: World, calls: seq<Call>)
    requires i <= |ev.s3Keys| && DeleteEnds(ev, NextKey(ev, i), w, calls)
    ensures CleansUp(ev, i, w, calls, DeleteRun(ev, NextKey(ev, i), w, calls))
    decreases calls
  {
    DeleteTail(ev, NextKey(ev, i), w, calls);
    if i < |ev.s3Keys| && calls[0].outcome.Success? {
      var w' := DeleteEffect(ev, NextKey(ev, i), w, calls[0]);
      KeysConclude(ev, i + 1, w', calls[1..]);
      OneKeyMore(ev, i, w, w', calls, DeleteRun(ev, NextKey(ev, i), w, calls));
    } else {
      LastCallConcludes(ev, i, w, calls);
    }
  }

  /** A removal that fails, or the status write. */
  lemma LastCallConcludes(ev: DeleteEvent, i: nat, w: World, calls: seq<Call>)
    requires i <= |ev.s3Keys| && |calls| == 1 && (i < |ev.s3Keys| ==> !calls[0].outcome.Success?)
    ensures CleansUp(ev, i, w, calls, (DeleteNext(ev, NextKey(ev, i), w, calls[0]), DeleteEffect(ev, NextKey(ev, i), w, calls[0])))
  {
    assert ev.s3Keys[i..i] == [];
    assert Without(w.objects, []) == w.objects;
    if i < |ev.s3Keys| {
      assert ev.s3Keys[i..i + 1] == [ev.s3Keys[i]];
    }
  }

  lemma OneKeyMore(ev: DeleteEvent, i: nat, w: World, w': World, calls: seq<Call>, end: (DeletePc, World))
    requires i < |ev.s3Keys| && calls != [] && calls[0].outcome.Success?
    requires w' == w.(objects := w.objects - {ev.s3Keys[i]})
    requires |calls| > 1 && CleansUp(ev, i + 1, w', calls[1..], end)
    ensures CleansUp(ev, i, w, calls, end)
  {
    OneMoreCall(calls[0], calls[1..]);
    assert calls == [calls[0]] + calls[1..];
    var n, left := Effective(calls), |ev.s3Keys| - i;
    assert ev.s3Keys[i..i + Min(n, left)] == [ev.s3Keys[i]] + ev.s3Keys[i + 1..i + Min(n, left)];
  }
}
