/** What one request of the server comes to when it runs alone and any of its calls fails: the
    answer, the row, the object and the event, told from the fate of its calls. */
module Requests {
  import opened Wrappers
  import opened KeyLayout
  import opened Avatars
  import opened Calls
  import opened Service
  import Postgres

  predicate Stopped(pc: UploadPc) {
    pc.Answered? || pc.Refused?
  }

  /** The first k calls succeeded. */
  predicate Went(calls: seq<Call>, k: nat) {
    k <= |calls| && forall i | 0 <= i < k :: calls[i].outcome.Success?
  }

  lemma {:induction false} EndedUploadStays(n: New, data: Data, pc: UploadPc, w: World, sent: seq<Event>, calls: seq<Call>)
    requires Stopped(pc)
    ensures UploadRun(n, data, pc, w, sent, calls) == (pc, w, sent)
    decreases calls
  {
    if calls != [] {
      EndedUploadStays(n, data, pc, w, sent, calls[1..]);
    }
  }

  /** What an upload leaves that stored its object, or tried to, with `put`, and then compensated or
      confirmed with `mark`, one of which did not succeed. */
  function Unfinished(w: World, row: Avatar, data: Data, put: Call, mark: Call): World {
    var status := if put.outcome.Success? then Uploaded else UploadFailed;
    World(w.table[row.id := if Applied(mark) then row.(uploadStatus := status, updatedAt := mark.now) else row],
          if Applied(put) then w.objects[row.s3Key := data] else w.objects)
  }

  /** Upload under every pattern of failures. It answers the row exactly when creating, storing
      and confirming succeeded, whatever became of the publish; then row, object and event are
      those of this upload. Otherwise nothing is published, an object that got stored has its row,
      and the row is marked failed exactly when the store answered an error and the compensation
      took effect. */
  lemma UploadConcludes(n: New, data: Data, w: World, sent: seq<Event>, calls: seq<Call>)
    requires n.id !in w.table && Stopped(UploadRun(n, data, CreateRow, w, sent, calls).0)
    ensures
      var (pc, w', sent') := UploadRun(n, data, CreateRow, w, sent, calls);
      && (pc.Answered? <==> Went(calls, 3))
      && (pc.Answered? ==>
            && |calls| >= 4
            && pc.a == Postgres.Fresh(n, calls[0].now).(uploadStatus := Uploaded)
            && w' == World(w.table[n.id := pc.a.(updatedAt := calls[2].now)], w.objects[n.s3Key := data])
            && sent' == if Applied(calls[3])
                        then sent + [UploadPublished(UploadEvent(n.id, n.userID, n.s3Key))] else sent)
      && (pc.Refused? ==>
            && sent' == sent
            && (w'.objects == w.objects || (w'.objects == w.objects[n.s3Key := data] && n.id in w'.table))
            && calls != []
            && if !Went(calls, 1)
               then w' == (if Applied(calls[0]) then w.(table := w.table[n.id := Postgres.Fresh(n, calls[0].now)]) else w)
               else |calls| >= 3 && w' == Unfinished(w, Postgres.Fresh(n, calls[0].now), data, calls[1], calls[2]))
      && (n.id in w'.table && w'.table[n.id].uploadStatus == UploadFailed <==>
            Went(calls, 1) && |calls| >= 3 && !calls[1].outcome.Success? && Applied(calls[2]))
  {
    var c0 := calls[0];
    var pc1, w1 := UploadNext(n, CreateRow, w, c0), UploadEffect(n, data, CreateRow, w, c0);
    if !c0.outcome.Success? {
      EndedUploadStays(n, data, pc1, w1, sent, calls[1..]);
    } else {
      CreatedConcludes(n, data, w1, sent, calls[1..], pc1.a);
      assert forall i | 0 < i < |calls| :: calls[i] == calls[1..][i - 1];
      assert UploadRun(n, data, pc1, w1, sent, calls[1..]).0.Refused? ==>
          Unfinished(w1, pc1.a, data, calls[1], calls[2]) == Unfinished(w, pc1.a, data, calls[1], calls[2]);
    }
  }

  /** The row Upload answers, field by field from the request and the clock of the insert. */
  lemma AnsweredRowDescribes(cfg: Config, id: Id, user: User, fileName: string, data: Data, w: World, sent: seq<Event>, calls: seq<Call>)
    requires id !in w.table
    requires UploadRun(Record(cfg, id, user, fileName, data), data, CreateRow, w, sent, calls).0.Answered?
    ensures
      var a := UploadRun(Record(cfg, id, user, fileName, data), data, CreateRow, w, sent, calls).0.a;
      && calls != [] && a.createdAt == calls[0].now && a.deletedAt.None?
      && a.id == id && a.userID == user && a.s3Key == Original(id) && a.sizeBytes == |data|
      && a.mimeType == cfg.sniff(data).mimeType && a.width == cfg.sniff(data).width && a.height == cfg.sniff(data).height
      && a.fileName <= fileName && |a.fileName| == (if |fileName| <= 255 then |fileName| else 255)
      && a.thumbnails == map[] && a.uploadStatus == Uploaded && a.processingStatus == Pending
  {
    UploadConcludes(Record(cfg, id, user, fileName, data), data, w, sent, calls);
  }

  /** The same from the point where the row `a` is there. */
  lemma CreatedConcludes(n: New, data: Data, w: World, sent: seq<Event>, calls: seq<Call>, a: Avatar)
    requires a.id == n.id && a.id in w.table && w.table[a.id] == a && a.uploadStatus == Uploading
    requires a.userID == n.userID && a.s3Key == n.s3Key
    requires Stopped(UploadRun(n, data, PutOriginal(a), w, sent, calls).0)
    ensures
      var (pc, w', sent') := UploadRun(n, data, PutOriginal(a), w, sent, calls);
      && (pc.Answered? <==> Went(calls, 2))
      && (pc.Answered? ==>
            && |calls| >= 3 && pc.a == a.(uploadStatus := Uploaded)
            && w' == World(w.table[a.id := pc.a.(updatedAt := calls[1].now)], w.objects[a.s3Key := data])
            && sent' == if Applied(calls[2])
                        then sent + [UploadPublished(UploadEvent(a.id, a.userID, a.s3Key))] else sent)
      && (pc.Refused? ==>
            && sent' == sent && a.id in w'.table
            && |calls| >= 2 && w' == Unfinished(w, a, data, calls[0], calls[1])
            && (w'.objects == w.objects || w'.objects == w.objects[a.s3Key := data]))
      && (a.id in w'.table && w'.table[a.id].uploadStatus == UploadFailed <==>
            |calls| >= 2 && !calls[0].outcome.Success? && Applied(calls[1]))
  {
    var c0, rest := calls[0], calls[1..];
    var pc1, w1 := UploadNext(n, PutOriginal(a), w, c0), UploadEffect(n, data, PutOriginal(a), w, c0);
    assert UploadRun(n, data, PutOriginal(a), w, sent, calls) == UploadRun(n, data, pc1, w1, sent, rest);
    var c1 := rest[0];
    var pc2, w2 := UploadNext(n, pc1, w1, c1), UploadEffect(n, data, pc1, w1, c1);
    assert UploadRun(n, data, pc1, w1, sent, rest) == UploadRun(n, data, pc2, w2, sent, rest[1..]);
    assert c1 == calls[1];
    if Stopped(pc2) {
      EndedUploadStays(n, data, pc2, w2, sent, rest[1..]);
    } else {
      var c2 := rest[1..][0];
      assert c2 == calls[2];
      EndedUploadStays(n, data, Answered(pc2.a), w2, UploadSent(pc2, sent, c2), rest[1..][1..]);
    }
  }

  lemma {:induction false} EndedDeleteStays(pc: DeletePc, w: World, sent: seq<Event>, calls: seq<Call>)
    requires pc.Won? || pc.DeleteRefused?
    ensures DeleteRun(pc, w, sent, calls) == (pc, w, sent)
    decreases calls
  {
    if calls != [] {
      EndedDeleteStays(pc, w, sent, calls[1..]);
    }
  }

  /** Delete, once the row `a` was read, under every pattern of failures: it answers success
      exactly when it hid a live row and learnt of it; the row is then deleted, objects are left to
      the cleanup, and the cleanup of exactly the captured keys is published unless the publish
      fails. A refused delete publishes nothing; it has hidden the row exactly when only the answer
      was lost. */
  lemma DeleteConcludes(a: Avatar, keys: seq<Key>, w: World, sent: seq<Event>, calls: seq<Call>)
    requires var pc := DeleteRun(Hide(a, keys), w, sent, calls).0; pc.Won? || pc.DeleteRefused?
    ensures
      var (pc, w', sent') := DeleteRun(Hide(a, keys), w, sent, calls);
      && |calls| >= 1 && w'.objects == w.objects
      && (pc.Won? <==> Postgres.Live(w.table, a.id) && calls[0].outcome.Success?)
      && (pc.Won? ==> |calls| >= 2 && pc.id == a.id)
      && (pc.DeleteRefused? ==> pc.error == if calls[0].outcome.Success? then ErrNotFound else ErrInternal)
      && sent' == (if pc.Won? && Applied(calls[1]) then sent + [DeletePublished(DeleteEvent(a.id, keys))] else sent)
      && w'.table == if Postgres.Live(w.table, a.id) && Applied(calls[0])
                     then w.table[a.id := w.table[a.id].(deletedAt := Some(calls[0].now), updatedAt := calls[0].now)]
                     else w.table
  {
    var c0, rest := calls[0], calls[1..];
    var pc1, w1 := DeleteNext(Hide(a, keys), w, c0), DeleteEffect(Hide(a, keys), w, c0);
    if pc1.DeleteRefused? {
      EndedDeleteStays(pc1, w1, sent, rest);
    } else {
      assert rest[0] == calls[1];
      EndedDeleteStays(Won(a.id), w1, DeleteSent(pc1, sent, rest[0]), rest[1..]);
    }
  }

  lemma {:induction false} EntriesAreExact(m: map<string, Key>, order: seq<string>)
    requires forall name | name in order :: name in m
    ensures |Entries(m, order)| == |order| && forall i | 0 <= i < |order| :: Entries(m, order)[i] == m[order[i]]
  {
    if order != [] {
      EntriesAreExact(m, order[..|order| - 1]);
    }
  }

  /** Whatever order the thumbnail map is walked in, the captured keys are the original and every
      thumbnail, each entry once and nothing else. */
  lemma CaptureIsExact(a: Avatar, order: seq<string>)
    requires IsOrder(a.thumbnails, order)
    ensures var keys := CapturedKeys(a, order);
            && |keys| == 1 + |a.thumbnails|
            && forall k :: k in keys <==> k == a.s3Key || exists name :: name in a.thumbnails && a.thumbnails[name] == k
  {
    EntriesAreExact(a.thumbnails, order);
    OrderCounts(a.thumbnails.Keys, order);
    forall k
      ensures k in CapturedKeys(a, order) <==> k == a.s3Key || exists name :: name in a.thumbnails && a.thumbnails[name] == k
    {
      CapturedIff(a, order, k);
    }
  }

  lemma CapturedIff(a: Avatar, order: seq<string>, k: Key)
    requires IsOrder(a.thumbnails, order)
    ensures k in CapturedKeys(a, order) <==> k == a.s3Key || exists name :: name in a.thumbnails && a.thumbnails[name] == k
  {
    EntriesAreExact(a.thumbnails, order);
    var entries := Entries(a.thumbnails, order);
    assert k in CapturedKeys(a, order) <==> k == a.s3Key || k in entries;
    if k in entries {
      var i :| 0 <= i < |entries| && entries[i] == k;
      assert order[i] in a.thumbnails;
    }
    if name :| name in a.thumbnails && a.thumbnails[name] == k {
      var i :| 0 <= i < |order| && order[i] == name;
      assert entries[i] == k;
    }
  }

  lemma {:induction false} OrderCounts(names: set<string>, order: seq<string>)
    requires (forall name :: name in names <==> name in order)
    requires forall i, j | 0 <= i < j < |order| :: order[i] != order[j]
    ensures |names| == |order|
    decreases order
  {
    if order != [] {
      var last, before := order[|order| - 1], order[..|order| - 1];
      forall name
        ensures name in names - {last} <==> name in before
      {
        if name in before {
          var i :| 0 <= i < |before| && before[i] == name;
          assert order[i] == name;
        }
      }
      OrderCounts(names - {last}, before);
    } else {
      assert names == {};
    }
  }

  // ---------------------------------------------------------------------------------------
  // Answers, whatever happens between the calls
  // ---------------------------------------------------------------------------------------

  /** The object a read asks for, if the row it sees has one. */
  function Wanted(q: Query, t: Table, pick: Option<Id>): Option<Key>
    requires pick.Some? ==> pick.value in t
  {
    match q
    case FileOf(id) => if Postgres.Live(t, id) then Some(t[id].s3Key) else None
    case LatestFileOf(_) => if pick.Some? then Some(t[pick.value].s3Key) else None
    case ThumbnailOf(id, size) =>
      if Postgres.Live(t, id) && size in t[id].thumbnails then Some(t[id].thumbnails[size]) else None
  }

  /** A read sees the row in w1 and the object in w2. It answers an error exactly when a call it made did
      not succeed, not found exactly when there is no such row, no such size, or no such object, and
      otherwise the object's bytes, with the type and size of the row, or as a JPEG. */
  lemma ReadAnswers(q: Query, w1: World, c1: Call, pick: Option<Id>, w2: World, c2: Call)
    requires LookupAdmits(q, w1, pick)
    ensures
      var pc := LookupNext(q, w1, c1, pick);
      var answer := ReadAnswer(OpenNext(q, pc, w2, c2));
      var key := Wanted(q, w1.table, pick);
      && (pc.Open? <==> c1.outcome.Success? && key.Some?)
      && (answer.Fault? <==> !c1.outcome.Success? || (key.Some? && !c2.outcome.Success?))
      && (answer.NotFound? <==> c1.outcome.Success? && (key.None? || (c2.outcome.Success? && key.value !in w2.objects)))
      && (answer.Ok? ==>
            && key.Some? && key.value in w2.objects && answer.value.body == w2.objects[key.value]
            && if q.ThumbnailOf? then answer.value.contentType == "image/jpeg" && answer.value.size == 0
               else var a := w1.table[if q.FileOf? then q.id else pick.value];
                    answer.value.contentType == a.mimeType && answer.value.size == a.sizeBytes)
  {
  }

  /** How a delete ends that is after the live row `a` of w1: read by c1, hidden by c2 in w2, its cleanup
      published by c3 in w3. */
  ghost predicate Ends(found: DeletePc, a: Avatar, order: seq<string>, w2: World, c2: Call, w3: World, c3: Call)
    requires forall name | name in order :: name in a.thumbnails
  {
    var end := DeleteNext(DeleteNext(found, w2, c2), w3, c3);
    && found == Hide(a, CapturedKeys(a, order))
    && end == (if !c2.outcome.Success? then DeleteRefused(ErrInternal)
               else if Postgres.Live(w2.table, a.id) then Won(a.id) else DeleteRefused(ErrNotFound))
    && DeleteEffect(found, w2, c2)
       == (if Applied(c2) && Postgres.Live(w2.table, a.id)
           then w2.(table := w2.table[a.id := w2.table[a.id].(deletedAt := Some(c2.now), updatedAt := c2.now)]) else w2)
  }

  /** Delete by id, whatever happens between its calls. An error of the row read is internal, a row that
      is not live is not found, somebody else's is refused as such, and its owner's delete goes on to
      hide it, which fails only if that call does or the row is gone by then. */
  lemma DeleteAnswers(id: Id, requester: User, w1: World, c1: Call, order: seq<string>, w2: World, c2: Call, w3: World, c3: Call)
    requires Postgres.Keyed(w1.table) && FindAdmits(ByID(id, requester), w1, c1, None, order)
    ensures
      var found := FindNext(ByID(id, requester), w1, c1, None, order);
      && DeleteStart(ByID(id, requester)) == Find
      && if !c1.outcome.Success? then found == DeleteRefused(ErrInternal)
         else if !Postgres.Live(w1.table, id) then found == DeleteRefused(ErrNotFound)
         else if w1.table[id].userID != requester then found == DeleteRefused(ErrNotOwner)
         else w1.table[id].id == id && Ends(found, w1.table[id], order, w2, c2, w3, c3)
  {
  }

  /** DeleteLatest, whatever happens between its calls: refused to anybody but the user before any call,
      not found exactly when the user has no live row, else the delete of a newest one. */
  lemma DeleteLatestAnswers(user: User, requester: User, w1: World, c1: Call, pick: Option<Id>, order: seq<string>,
                            w2: World, c2: Call, w3: World, c3: Call)
    requires Postgres.Keyed(w1.table) && FindAdmits(LatestOf(user, requester), w1, c1, pick, order)
    ensures DeleteStart(LatestOf(user, requester)) == if user != requester then DeleteRefused(ErrNotOwner) else Find
    ensures
      var found := FindNext(LatestOf(user, requester), w1, c1, pick, order);
      if !c1.outcome.Success? then found == DeleteRefused(ErrInternal)
      else if Postgres.LiveOf(w1.table, user) == {} then found == DeleteRefused(ErrNotFound)
      else pick.Some? && Postgres.IsLatest(w1.table, user, pick.value) && w1.table[pick.value].id == pick.value &&
           Ends(found, w1.table[pick.value], order, w2, c2, w3, c3)
  {
  }
}
