/** A user's avatars in order, and what deleting the latest one does to it. */
module Listing {
  import opened Wrappers
  import opened Avatars
  import opened Calls
  import opened Postgres
  import S = Service

  /** No two live rows of the user were created at the same time. */
  ghost predicate DistinctTimes(t: Table, ids: set<Id>)
    requires ids <= t.Keys
  {
    forall a, b | a in ids && b in ids && a != b :: t[a].createdAt != t[b].createdAt
  }

  /** The head of a listing is a newest row, and the tail lists the others. */
  lemma ListsHead(t: Table, ids: set<Id>, l: seq<Avatar>)
    requires Keyed(t) && ids <= t.Keys && Lists(t, ids, l) && l != []
    ensures l[0].id in ids && forall id | id in ids :: t[id].createdAt <= l[0].createdAt
    ensures Lists(t, ids - {l[0].id}, l[1..])
  {
    forall id | id in ids
      ensures t[id].createdAt <= l[0].createdAt
      ensures id != l[0].id ==> t[id] in l[1..]
    {
      assert t[id] in l;
      var i :| 0 <= i < |l| && l[i] == t[id];
      if i > 0 {
        assert l[1..][i - 1] == t[id];
      }
    }
    assert forall i | 0 < i < |l| :: l[1..][i - 1] == l[i];
  }

  lemma SameLength(t: Table, ids: set<Id>, l: seq<Avatar>, l': seq<Avatar>)
    requires ids <= t.Keys && Lists(t, ids, l) && Lists(t, ids, l')
    ensures l == [] <==> l' == []
  {
    assert l != [] ==> t[l[0].id] in l';
    assert l' != [] ==> t[l'[0].id] in l;
  }

  lemma SameHead(t: Table, ids: set<Id>, l: seq<Avatar>, l': seq<Avatar>)
    requires Keyed(t) && ids <= t.Keys && DistinctTimes(t, ids) && Lists(t, ids, l) && Lists(t, ids, l')
    requires l != [] && l' != []
    ensures l[0] == l'[0] && l[0].id in ids
    ensures var others := ids - {l[0].id}; Lists(t, others, l[1..]) && Lists(t, others, l'[1..]) && DistinctTimes(t, others)
  {
    ListsHead(t, ids, l);
    ListsHead(t, ids, l');
    assert t[l[0].id].createdAt == t[l'[0].id].createdAt;
  }

  lemma Rejoined(l: seq<Avatar>, l': seq<Avatar>)
    requires l != [] && l' != [] && l[0] == l'[0] && l[1..] == l'[1..]
    ensures l == l'
  {
    assert l == [l[0]] + l[1..] && l' == [l'[0]] + l'[1..];
  }

  /** With distinct times there is one listing. */
  lemma {:induction false} ListingIsUnique(t: Table, ids: set<Id>, l: seq<Avatar>, l': seq<Avatar>)
    requires Keyed(t) && ids <= t.Keys && DistinctTimes(t, ids) && Lists(t, ids, l) && Lists(t, ids, l')
    ensures l == l'
    decreases l
  {
    SameLength(t, ids, l, l');
    if l != [] {
      SameHead(t, ids, l, l');
      ListingIsUnique(t, ids - {l[0].id}, l[1..], l'[1..]);
      Rejoined(l, l');
    }
  }

  lemma NonEmptyListing(t: Table, ids: set<Id>, l: seq<Avatar>)
    requires ids <= t.Keys && Lists(t, ids, l)
    ensures ids != {} ==> l != []
  {
    if id :| id in ids {
      assert t[id] in l;
    }
  }

  /** LatestByUser answers the head of the listing, and not found exactly when it is empty. */
  lemma LatestIsHead(t: Table, u: User, l: seq<Avatar>, pick: Option<Id>)
    requires Keyed(t) && DistinctTimes(t, LiveOf(t, u)) && IsListing(t, u, l)
    ensures LatestPick(t, u, pick) <==> pick == if l == [] then None else Some(l[0].id)
  {
    if l != [] {
      ListsHead(t, LiveOf(t, u), l);
    }
    NonEmptyListing(t, LiveOf(t, u), l);
  }

  /** An insert at a later time than the user's other rows puts its row at the head of the listing, and
      changes no other user's listing. */
  lemma InsertBecomesHead(t: Table, n: New, c: Call, u: User, l: seq<Avatar>)
    requires Keyed(t) && n.id !in t && c.outcome.Success? && IsListing(t, u, l)
    requires forall id | id in LiveOf(t, n.userID) :: t[id].createdAt < c.now
    ensures var t' := Create(t, n, c);
            n.id in t' && IsListing(t', u, if u == n.userID then [t'[n.id]] + l else l)
  {
    var t' := Create(t, n, c);
    if u == n.userID {
      assert LiveOf(t', u) == LiveOf(t, u) + {n.id};
      var l' := [t'[n.id]] + l;
      assert forall i | 0 < i < |l'| :: l'[i] == l[i - 1];
      forall id | id in LiveOf(t', u)
        ensures t'[id] in l'
      {
        if id == n.id {
          assert l'[0] == t'[id];
        } else {
          assert t[id] in l;
        }
      }
    } else {
      assert LiveOf(t', u) == LiveOf(t, u);
    }
  }

  // ---------------------------------------------------------------------------------------
  // Deleting the latest
  // ---------------------------------------------------------------------------------------

  /** The calls of a DeleteLatest without faults: row read, hide and publish, each at its own time. */
  predicate NoFaults(calls: seq<Call>) {
    |calls| == 3 && forall i | 0 <= i < 3 :: calls[i].outcome.Success?
  }

  /** The user's own DeleteLatest with no fault and nobody in between: it leads from w to `end`. */
  ghost predicate DeletesLatest(w: World, u: User, calls: seq<Call>, pick: Option<Id>, order: seq<string>,
                                end: (S.DeletePc, World, seq<S.Event>)) {
    var target := S.LatestOf(u, u);
    && NoFaults(calls) && S.DeleteStart(target).Find? && S.FindAdmits(target, w, calls[0], pick, order)
    && end == S.DeleteRun(S.FindNext(target, w, calls[0], pick, order), w, [], calls[1..])
  }

  ghost predicate OthersUntouched(t: Table, t': Table, u: User) {
    t'.Keys == t.Keys && forall id | id in t && t[id].userID != u :: t'[id] == t[id]
  }

  /** It deletes the head of the listing, leaves its tail and every other user's rows, and
      publishes the cleanup; on an empty listing it answers not found and changes nothing. */
  lemma DeleteLatestDropsHead(w: World, u: User, l: seq<Avatar>, calls: seq<Call>, pick: Option<Id>, order: seq<string>,
                              end: (S.DeletePc, World, seq<S.Event>))
    requires Keyed(w.table) && DistinctTimes(w.table, LiveOf(w.table, u)) && IsListing(w.table, u, l)
    requires DeletesLatest(w, u, calls, pick, order, end)
    ensures l == [] ==> end == (S.DeleteRefused(S.ErrNotFound), w, [])
    ensures l != [] ==>
              && end.0 == S.Won(l[0].id)
              && end.2 == [S.DeletePublished(DeleteEvent(l[0].id, S.CapturedKeys(l[0], order)))]
              && end.1.objects == w.objects && !Live(end.1.table, l[0].id)
              && Keyed(end.1.table) && DistinctTimes(end.1.table, LiveOf(end.1.table, u))
              && IsListing(end.1.table, u, l[1..]) && OthersUntouched(w.table, end.1.table, u)
  {
    LatestIsHead(w.table, u, l, pick);
    var target := S.LatestOf(u, u);
    var found := S.FindNext(target, w, calls[0], pick, order);
    S.DeleteRunSnoc(found, w, [], [], calls[1]);
    assert [] + [calls[1]] == [calls[1]] && [calls[1]] + [calls[2]] == calls[1..];
    S.DeleteRunSnoc(found, w, [], [calls[1]], calls[2]);
    if l != [] {
      ListsHead(w.table, LiveOf(w.table, u), l);
      HiddenHead(w.table, u, l, calls[1]);
    }
  }

  lemma HiddenHead(t: Table, u: User, l: seq<Avatar>, c: Call)
    requires Keyed(t) && DistinctTimes(t, LiveOf(t, u)) && IsListing(t, u, l) && l != [] && c.outcome.Success?
    ensures var t' := SoftDelete(t, l[0].id, c);
            && !Live(t', l[0].id) && Keyed(t') && DistinctTimes(t', LiveOf(t', u))
            && IsListing(t', u, l[1..]) && OthersUntouched(t, t', u)
  {
    var t' := SoftDelete(t, l[0].id, c);
    ListsHead(t, LiveOf(t, u), l);
    assert LiveOf(t', u) == LiveOf(t, u) - {l[0].id};
  }

  /** k such calls in a row. */
  ghost predicate DeletesLatestTimes(w: World, u: User, k: nat, w': World)
    decreases k
  {
    if k == 0 then w' == w
    else
      exists calls, pick, order, end ::
        DeletesLatest(w, u, calls, pick, order, end) && end.0.Won? && DeletesLatestTimes(end.1, u, k - 1, w')
  }

  /** k calls leave the listing without its first k rows, and every other user's rows alone. */
  lemma {:induction false} DrainsTheListing(w: World, u: User, l: seq<Avatar>, k: nat, w': World)
    requires Keyed(w.table) && DistinctTimes(w.table, LiveOf(w.table, u)) && IsListing(w.table, u, l)
    requires DeletesLatestTimes(w, u, k, w')
    ensures k <= |l| && IsListing(w'.table, u, l[k..]) && OthersUntouched(w.table, w'.table, u)
    ensures Keyed(w'.table) && DistinctTimes(w'.table, LiveOf(w'.table, u))
    decreases k
  {
    if k == 0 {
      assert l[0..] == l;
    } else {
      var next := FirstOfMany(w, u, l, k, w');
      DrainsTheListing(next, u, l[1..], k - 1, w');
      assert l[1..][k - 1..] == l[k..];
      UntouchedTransitive(w.table, next.table, w'.table, u);
    }
  }

  lemma FirstOfMany(w: World, u: User, l: seq<Avatar>, k: nat, w': World) returns (next: World)
    requires Keyed(w.table) && DistinctTimes(w.table, LiveOf(w.table, u)) && IsListing(w.table, u, l)
    requires k > 0 && DeletesLatestTimes(w, u, k, w')
    ensures l != [] && DeletesLatestTimes(next, u, k - 1, w')
    ensures Keyed(next.table) && DistinctTimes(next.table, LiveOf(next.table, u))
    ensures IsListing(next.table, u, l[1..]) && OthersUntouched(w.table, next.table, u)
  {
    var calls, pick, order, end :|
      DeletesLatest(w, u, calls, pick, order, end) && end.0.Won? && DeletesLatestTimes(end.1, u, k - 1, w');
    DeleteLatestDropsHead(w, u, l, calls, pick, order, end);
    next := end.1;
  }

  lemma UntouchedTransitive(t: Table, t': Table, t'': Table, u: User)
    requires OthersUntouched(t, t', u) && OthersUntouched(t', t'', u)
    ensures OthersUntouched(t, t'', u)
  {
  }

  /** While rows are listed, such a call can be made, and wins. */
  lemma CanDeleteLatest(w: World, u: User, l: seq<Avatar>)
    returns (calls: seq<Call>, pick: Option<Id>, order: seq<string>, end: (S.DeletePc, World, seq<S.Event>))
    requires Keyed(w.table) && DistinctTimes(w.table, LiveOf(w.table, u)) && IsListing(w.table, u, l) && l != []
    ensures DeletesLatest(w, u, calls, pick, order, end) && end.0.Won?
    ensures Keyed(end.1.table) && DistinctTimes(end.1.table, LiveOf(end.1.table, u)) && IsListing(end.1.table, u, l[1..])
  {
    calls, pick, order := [FAULT_FREE, FAULT_FREE, FAULT_FREE], Some(l[0].id), S.SomeOrder(l[0].thumbnails);
    LatestIsHead(w.table, u, l, pick);
    assert S.FindAdmits(S.LatestOf(u, u), w, FAULT_FREE, pick, order);
    end := S.DeleteRun(S.FindNext(S.LatestOf(u, u), w, FAULT_FREE, pick, order), w, [], calls[1..]);
    DeleteLatestDropsHead(w, u, l, calls, pick, order, end);
  }

  /** k of them in a row are possible. */
  lemma {:induction false} DrainingIsPossible(w: World, u: User, l: seq<Avatar>, k: nat) returns (w': World)
    requires Keyed(w.table) && DistinctTimes(w.table, LiveOf(w.table, u)) && IsListing(w.table, u, l)
    requires k <= |l|
    ensures DeletesLatestTimes(w, u, k, w')
    decreases k
  {
    if k == 0 {
      w' := w;
    } else {
      var calls, pick, order, end := CanDeleteLatest(w, u, l);
      w' := DrainingIsPossible(end.1, u, l[1..], k - 1);
    }
  }

  /** As many calls as the listing is long empty it, and the next one answers not found. */
  lemma DrainedAnswersNotFound(w: World, u: User, l: seq<Avatar>, w': World, calls: seq<Call>, pick: Option<Id>, order: seq<string>,
                               end: (S.DeletePc, World, seq<S.Event>))
    requires Keyed(w.table) && DistinctTimes(w.table, LiveOf(w.table, u)) && IsListing(w.table, u, l)
    requires DeletesLatestTimes(w, u, |l|, w') && DeletesLatest(w', u, calls, pick, order, end)
    ensures LiveOf(w'.table, u) == {} && end == (S.DeleteRefused(S.ErrNotFound), w', [])
  {
    DrainsTheListing(w, u, l, |l|, w');
    assert l[|l|..] == [];
    DeleteLatestDropsHead(w', u, [], calls, pick, order, end);
    NonEmptyListing(w'.table, LiveOf(w'.table, u), []);
  }
}
