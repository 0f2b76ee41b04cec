/** Storage accounting: what StorageByUser answers, against the listing and against a ledger of
    the statements that ran. */
module Accounting {
  import opened KeyLayout
  import opened Avatars
  import opened Calls
  import opened Postgres

  /** The live bytes of one user, zero for a user without rows. */
  ghost function Used(t: Table, u: User): nat {
    SumBytes(t, LiveOf(t, u))
  }

  function Bytes(l: seq<Avatar>): nat {
    if l == [] then 0 else l[0].sizeBytes + Bytes(l[1..])
  }

  ghost function Ids(l: seq<Avatar>): set<Id> {
    set i | 0 <= i < |l| :: l[i].id
  }

  lemma {:induction false} BytesAreSum(t: Table, l: seq<Avatar>)
    requires forall i | 0 <= i < |l| :: l[i].id in t && l[i] == t[l[i].id]
    requires forall i, j | 0 <= i < j < |l| :: l[i].id != l[j].id
    ensures Ids(l) <= t.Keys && Bytes(l) == SumBytes(t, Ids(l))
  {
    if l == [] {
      assert Ids(l) == {};
    } else {
      BytesAreSum(t, l[1..]);
      assert forall i | 0 < i < |l| :: l[i] == l[1..][i - 1];
      assert Ids(l) - {l[0].id} == Ids(l[1..]) by {
        forall id | id in Ids(l) - {l[0].id}
          ensures id in Ids(l[1..])
        {
          var i :| 0 <= i < |l| && l[i].id == id;
          assert l[1..][i - 1].id == id;
        }
      }
      SumBytesSplit(t, Ids(l), l[0].id);
    }
  }

  /** StorageByUser and ListByUser agree: a user is reported exactly when the listing is not
      empty, with the sum of the listed sizes. */
  lemma StorageIsListedBytes(t: Table, u: User, l: seq<Avatar>)
    requires Keyed(t) && IsListing(t, u, l)
    ensures u in Storage(t) <==> l != []
    ensures l != [] ==> Storage(t)[u] == Bytes(l)
    ensures Used(t, u) == Bytes(l)
  {
    forall id | id in LiveOf(t, u)
      ensures id in Ids(l)
    {
      assert t[id] in l;
    }
    assert Ids(l) == LiveOf(t, u);
    BytesAreSum(t, l);
    OwnerHasRow(t, u);
    if l != [] {
      assert l[0].id in LiveOf(t, u);
    }
  }

  // ---------------------------------------------------------------------------------------
  // The ledger
  // ---------------------------------------------------------------------------------------

  /** A write to the table, with what became of it. */
  datatype Statement =
    | Insert(n: New, call: Call)
    | UploadStatusSet(id: Id, upload: UploadStatus, call: Call)
    | ProcessingStatusSet(id: Id, processing: ProcessingStatus, call: Call)
    | ThumbnailsSet(id: Id, keys: map<string, Key>, call: Call)
    | Hidden(id: Id, call: Call)

  function After(t: Table, st: Statement): Table {
    match st
    case Insert(n, c) => Create(t, n, c)
    case UploadStatusSet(id, status, c) => SetUploadStatus(t, id, status, c)
    case ProcessingStatusSet(id, status, c) => SetProcessingStatus(t, id, status, c)
    case ThumbnailsSet(id, keys, c) => SetThumbnails(t, id, keys, c)
    case Hidden(id, c) => SoftDelete(t, id, c)
  }

  /** Only an effective insert and an effective soft delete move a user's bytes. */
  function Entry(t: Table, st: Statement, u: User): int {
    match st
    case Insert(n, c) => if Applied(c) && n.id !in t && n.userID == u then n.sizeBytes else 0
    case Hidden(id, c) => if Applied(c) && Live(t, id) && t[id].userID == u then 0 - t[id].sizeBytes else 0
    case _ => 0
  }

  function AfterAll(t: Table, sts: seq<Statement>): Table
    decreases sts
  {
    if sts == [] then t else AfterAll(After(t, sts[0]), sts[1..])
  }

  function Ledger(t: Table, sts: seq<Statement>, u: User): int
    decreases sts
  {
    if sts == [] then 0 else Entry(t, sts[0], u) + Ledger(After(t, sts[0]), sts[1..], u)
  }

  lemma {:induction false} SumBytesSame(t: Table, t': Table, ids: set<Id>)
    requires ids <= t.Keys && ids <= t'.Keys && forall id | id in ids :: t'[id].sizeBytes == t[id].sizeBytes
    ensures SumBytes(t', ids) == SumBytes(t, ids)
    decreases ids
  {
    if id :| id in ids {
      SumBytesSplit(t, ids, id);
      SumBytesSplit(t', ids, id);
      SumBytesSame(t, t', ids - {id});
    }
  }

  lemma StatementMovesBytes(t: Table, st: Statement, u: User)
    ensures Used(After(t, st), u) == Used(t, u) + Entry(t, st, u)
  {
    var t' := After(t, st);
    var live, live' := LiveOf(t, u), LiveOf(t', u);
    match st
    case Insert(n, c) =>
      if Applied(c) && n.id !in t && n.userID == u {
        assert live' - {n.id} == live;
        SumBytesSplit(t', live', n.id);
      } else {
        assert live' == live;
      }
      SumBytesSame(t, t', live);
    case Hidden(id, c) =>
      if Applied(c) && Live(t, id) && t[id].userID == u {
        assert live - {id} == live';
        SumBytesSplit(t, live, id);
      } else {
        assert live' == live;
      }
      SumBytesSame(t, t', live');
    case _ =>
      assert live' == live;
      SumBytesSame(t, t', live);
  }

  /** Over every sequence of statements, with failures and lost replies anywhere, a user's
      storage is what was there plus the ledger's balance. */
  lemma {:induction false} StorageFollowsLedger(t: Table, sts: seq<Statement>, u: User)
    ensures Used(AfterAll(t, sts), u) == Used(t, u) + Ledger(t, sts, u)
    ensures u in Storage(AfterAll(t, sts)) <==> LiveOf(AfterAll(t, sts), u) != {}
    ensures u in Storage(AfterAll(t, sts)) ==> Storage(AfterAll(t, sts))[u] == Used(t, u) + Ledger(t, sts, u)
    decreases sts
  {
    if sts != [] {
      StatementMovesBytes(t, sts[0], u);
      StorageFollowsLedger(After(t, sts[0]), sts[1..], u);
    } else {
      OwnerHasRow(t, u);
    }
  }
}
