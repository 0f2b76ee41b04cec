/** The avatars table and its queries: what one statement does to the table and what its
    caller sees, and the repository that runs the statements. */
module Postgres {
  import opened Wrappers
  import opened Avatars
  import opened Calls
  import opened KeyLayout

  // ---------------------------------------------------------------------------------------
  // Statements
  // ---------------------------------------------------------------------------------------

  /** The primary key: a row is stored under its own id. */
  ghost predicate Keyed(t: Table) {
    forall id | id in t :: t[id].id == id
  }

  predicate Live(t: Table, id: Id) {
    id in t && t[id].deletedAt.None?
  }

  ghost function LiveOf(t: Table, u: User): (ids: set<Id>) {
    set id | id in t && Live(t, id) && t[id].userID == u
  }

  /** The row an INSERT stores: the column defaults make it uploading and pending. */
  function Fresh(n: New, now: nat): Avatar {
    Avatar(n.id, n.userID, n.fileName, n.mimeType, n.sizeBytes, n.width, n.height, n.s3Key,
           map[], Uploading, Pending, now, now, None)
  }

  /** The primary key refuses a second row with the same id. */
  function Create(t: Table, n: New, c: Call): Table {
    if Applied(c) && n.id !in t then t[n.id := Fresh(n, c.now)] else t
  }

  function CreateReply(t: Table, n: New, c: Call): Reply<Avatar> {
    if c.outcome.Success? && n.id !in t then Ok(Fresh(n, c.now)) else Fault
  }

  function GetByID(t: Table, id: Id, c: Call): Reply<Avatar> {
    if !c.outcome.Success? then Fault else if Live(t, id) then Ok(t[id]) else NotFound
  }

  /** ORDER BY created_at DESC LIMIT 1: any newest live row of the user. */
  ghost predicate IsLatest(t: Table, u: User, id: Id) {
    id in LiveOf(t, u) && forall other | other in LiveOf(t, u) :: t[other].createdAt <= t[id].createdAt
  }

  /** A pick is possible exactly when the user has a live row. */
  ghost predicate LatestPick(t: Table, u: User, pick: Option<Id>) {
    if pick.Some? then IsLatest(t, u, pick.value) else LiveOf(t, u) == {}
  }

  function LatestByUser(t: Table, pick: Option<Id>, c: Call): Reply<Avatar>
    requires pick.Some? ==> pick.value in t
  {
    if !c.outcome.Success? then Fault else if pick.Some? then Ok(t[pick.value]) else NotFound
  }

  /** "No rows touched" reads as not found. */
  function ExecReply(hit: bool, c: Call): Reply<()> {
    if !c.outcome.Success? then Fault else if hit then Ok(()) else NotFound
  }

  function SetUploadStatus(t: Table, id: Id, status: UploadStatus, c: Call): Table {
    if Applied(c) && id in t then t[id := t[id].(uploadStatus := status, updatedAt := c.now)] else t
  }

  function SetProcessingStatus(t: Table, id: Id, status: ProcessingStatus, c: Call): Table {
    if Applied(c) && id in t then t[id := t[id].(processingStatus := status, updatedAt := c.now)] else t
  }

  function SetThumbnails(t: Table, id: Id, keys: map<string, Key>, c: Call): Table {
    if Applied(c) && id in t
    then t[id := t[id].(thumbnails := keys, processingStatus := Completed, updatedAt := c.now)]
    else t
  }

  function SoftDelete(t: Table, id: Id, c: Call): Table {
    if Applied(c) && Live(t, id)
    then t[id := t[id].(deletedAt := Some(c.now), updatedAt := c.now)]
    else t
  }

  // ---------------------------------------------------------------------------------------
  // Result sets
  // ---------------------------------------------------------------------------------------

  /** `l` holds the rows of `ids`, each once, newest first. */
  ghost predicate Lists(t: Table, ids: set<Id>, l: seq<Avatar>)
    requires ids <= t.Keys
  {
    && (forall i | 0 <= i < |l| :: l[i].id in ids && l[i] == t[l[i].id])
    && (forall id | id in ids :: t[id] in l)
    && (forall i, j | 0 <= i < j < |l| :: l[i].id != l[j].id)
    && (forall i, j | 0 <= i < j < |l| :: l[j].createdAt <= l[i].createdAt)
  }

  /** What ListByUser may return. */
  ghost predicate IsListing(t: Table, u: User, l: seq<Avatar>) {
    Lists(t, LiveOf(t, u), l)
  }

  /** SUM(size_bytes) over a set of rows. */
  ghost function SumBytes(t: Table, ids: set<Id>): nat
    requires ids <= t.Keys
  {
    if ids == {} then 0
    else
      var id :| id in ids;
      t[id].sizeBytes + SumBytes(t, ids - {id})
  }

  lemma {:induction false} SumBytesSplit(t: Table, ids: set<Id>, id: Id)
    requires ids <= t.Keys && id in ids
    ensures SumBytes(t, ids) == t[id].sizeBytes + SumBytes(t, ids - {id})
    decreases ids
  {
    var pick :| pick in ids && SumBytes(t, ids) == t[pick].sizeBytes + SumBytes(t, ids - {pick});
    if pick != id {
      SumBytesSplit(t, ids - {pick}, id);
      SumBytesSplit(t, ids - {id}, pick);
      assert ids - {pick} - {id} == ids - {id} - {pick};
    }
  }

  /** The users that own a live row. */
  ghost function Owners(t: Table): set<User> {
    set id | id in t && Live(t, id) :: t[id].userID
  }

  lemma OwnerHasRow(t: Table, u: User)
    ensures u in Owners(t) <==> LiveOf(t, u) != {}
  {
    if u in Owners(t) {
      var id :| id in t && Live(t, id) && t[id].userID == u;
      assert id in LiveOf(t, u);
    }
    if id :| id in LiveOf(t, u) {
      assert t[id].userID in Owners(t);
    }
  }

  /** StorageByUser: the live bytes of every user with a live row, and no other user. */
  ghost function Storage(t: Table): map<User, nat> {
    map u | u in Owners(t) :: SumBytes(t, LiveOf(t, u))
  }

  lemma {:induction false} NewestExists(t: Table, ids: set<Id>) returns (id: Id)
    requires ids != {} && ids <= t.Keys
    ensures id in ids && forall other | other in ids :: t[other].createdAt <= t[id].createdAt
    decreases ids
  {
    id :| id in ids;
    if ids - {id} != {} {
      var best := NewestExists(t, ids - {id});
      if t[id].createdAt <= t[best].createdAt {
        id := best;
      }
    } else {
      assert ids == {id};
    }
  }

  /** Part-way through a listing: `l` holds the rows of `live` except those in `rest`. */
  ghost predicate Listed(t: Table, live: set<Id>, rest: set<Id>, l: seq<Avatar>)
    requires rest <= live <= t.Keys
  {
    && Lists(t, live - rest, l)
    && (forall i, id | 0 <= i < |l| && id in rest :: t[id].createdAt <= l[i].createdAt)
  }

  lemma ListedStep(t: Table, live: set<Id>, rest: set<Id>, l: seq<Avatar>, id: Id)
    requires Keyed(t) && rest <= live <= t.Keys && Listed(t, live, rest, l)
    requires id in rest && forall other | other in rest :: t[other].createdAt <= t[id].createdAt
    ensures Listed(t, live, rest - {id}, l + [t[id]])
  {
    var l' := l + [t[id]];
    forall x | x in live - (rest - {id})
      ensures t[x] in l'
    {
      if x == id {
        assert l'[|l|] == t[x];
      } else {
        assert t[x] in l;
      }
    }
  }

  // ---------------------------------------------------------------------------------------
  // The repository
  // ---------------------------------------------------------------------------------------

  /** Every statement is one call on the network, whose fate the ghost result repeats. */
  class Repository {
    const net: Network
    var rows: Table

    ghost predicate Valid()
      reads this
    {
      Keyed(rows)
    }

    constructor (net: Network)
      ensures Valid() && rows == map[] && this.net == net
    {
      this.net := net;
      rows := map[];
    }

    method Insert(n: New) returns (r: Reply<Avatar>, ghost c: Call)
      requires Valid()
      modifies this, net
      ensures Valid() && net.One(old(net.used), c)
      ensures rows == Create(old(rows), n, c) && r == CreateReply(old(rows), n, c)
    {
      var call := net.Next();
      c := call;
      if call.outcome.Failure? || n.id in rows {
        return Fault, c;
      }
      var a := Avatar(n.id, n.userID, n.fileName, n.mimeType, n.sizeBytes, n.width, n.height,
                      n.s3Key, map[], Uploading, Pending, call.now, call.now, None);
      rows := rows[n.id := a];
      r := if call.outcome.Success? then Ok(a) else Fault;
    }

    method ByID(id: Id) returns (r: Reply<Avatar>, ghost c: Call)
      modifies net
      ensures net.One(old(net.used), c)
      ensures r == GetByID(rows, id, c)
    {
      var call := net.Next();
      c := call;
      if !call.outcome.Success? {
        r := Fault;
      } else if id in rows && rows[id].deletedAt == None {
        r := Ok(rows[id]);
      } else {
        r := NotFound;
      }
    }

    method Latest(u: User) returns (r: Reply<Avatar>, ghost c: Call, ghost pick: Option<Id>)
      modifies net
      ensures net.One(old(net.used), c)
      ensures LatestPick(rows, u, pick) && r == LatestByUser(rows, pick, c)
    {
      var call := net.Next();
      c := call;
      var live := set id | id in rows && rows[id].deletedAt == None && rows[id].userID == u;
      assert live == LiveOf(rows, u);
      if live == {} {
        pick := None;
        r := if call.outcome.Success? then NotFound else Fault;
      } else {
        ghost var _ := NewestExists(rows, live);
        var id :| id in live && forall other | other in live :: rows[other].createdAt <= rows[id].createdAt;
        pick := Some(id);
        r := if call.outcome.Success? then Ok(rows[id]) else Fault;
      }
    }

    method SetUpload(id: Id, status: UploadStatus) returns (r: Reply<()>, ghost c: Call)
      requires Valid()
      modifies this, net
      ensures Valid() && net.One(old(net.used), c)
      ensures rows == SetUploadStatus(old(rows), id, status, c) && r == ExecReply(id in old(rows), c)
    {
      var call := net.Next();
      c := call;
      r := ExecReply(id in rows, call);
      if !call.outcome.Failure? && id in rows {
        rows := rows[id := rows[id].(uploadStatus := status, updatedAt := call.now)];
      }
    }

    method SetProcessing(id: Id, status: ProcessingStatus) returns (r: Reply<()>, ghost c: Call)
      requires Valid()
      modifies this, net
      ensures Valid() && net.One(old(net.used), c)
      ensures rows == SetProcessingStatus(old(rows), id, status, c) && r == ExecReply(id in old(rows), c)
    {
      var call := net.Next();
      c := call;
      r := ExecReply(id in rows, call);
      if !call.outcome.Failure? && id in rows {
        rows := rows[id := rows[id].(processingStatus := status, updatedAt := call.now)];
      }
    }

    method StoreThumbnails(id: Id, keys: map<string, Key>) returns (r: Reply<()>, ghost c: Call)
      requires Valid()
      modifies this, net
      ensures Valid() && net.One(old(net.used), c)
      ensures rows == SetThumbnails(old(rows), id, keys, c) && r == ExecReply(id in old(rows), c)
    {
      var call := net.Next();
      c := call;
      r := ExecReply(id in rows, call);
      if !call.outcome.Failure? && id in rows {
        rows := rows[id := rows[id].(thumbnails := keys, processingStatus := Completed,
                                     updatedAt := call.now)];
      }
    }

    method Hide(id: Id) returns (r: Reply<()>, ghost c: Call)
      requires Valid()
      modifies this, net
      ensures Valid() && net.One(old(net.used), c)
      ensures rows == SoftDelete(old(rows), id, c) && r == ExecReply(Live(old(rows), id), c)
    {
      var call := net.Next();
      c := call;
      var hit := id in rows && rows[id].deletedAt == None;
      r := ExecReply(hit, call);
      if !call.outcome.Failure? && hit {
        rows := rows[id := rows[id].(deletedAt := Some(call.now), updatedAt := call.now)];
      }
    }

    /** The cursor yields the newest remaining row until none is left. */
    method ListByUser(u: User) returns (r: Reply<seq<Avatar>>)
      requires Valid()
      modifies net
      ensures net.used == old(net.used) + 1
      ensures if net.fate(old(net.used)).outcome.Success? then r.Ok? && IsListing(rows, u, r.value) else r.Fault?
    {
      var call := net.Next();
      if !call.outcome.Success? {
        return Fault;
      }
      var list: seq<Avatar> := [];
      var rest := set id | id in rows && rows[id].deletedAt == None && rows[id].userID == u;
      ghost var live := LiveOf(rows, u);
      assert rest == live;
      while rest != {}
        invariant rest <= live && Listed(rows, live, rest, list)
        invariant net.used == old(net.used) + 1
        decreases rest
      {
        ghost var _ := NewestExists(rows, rest);
        var id :| id in rest && forall other | other in rest :: rows[other].createdAt <= rows[id].createdAt;
        ListedStep(rows, live, rest, list, id);
        list := list + [rows[id]];
        rest := rest - {id};
      }
      r := Ok(list);
    }

    /** The value of one group of StorageByUser's query. */
    method SumGroup(u: User) returns (bytes: nat)
      requires u in Owners(rows)
      ensures bytes == SumBytes(rows, LiveOf(rows, u))
    {
      bytes := 0;
      var rest := set id | id in rows && rows[id].deletedAt == None && rows[id].userID == u;
      assert rest == LiveOf(rows, u);
      while rest != {}
        invariant rest <= LiveOf(rows, u)
        invariant bytes + SumBytes(rows, rest) == SumBytes(rows, LiveOf(rows, u))
        decreases rest
      {
        var id :| id in rest;
        SumBytesSplit(rows, rest, id);
        bytes := bytes + rows[id].sizeBytes;
        rest := rest - {id};
      }
    }

    method StorageByUser() returns (r: Reply<map<User, nat>>)
      modifies net
      ensures net.used == old(net.used) + 1
      ensures r == if net.fate(old(net.used)).outcome.Success? then Ok(Storage(rows)) else Fault
    {
      var call := net.Next();
      if !call.outcome.Success? {
        return Fault;
      }
      var usage: map<User, nat> := map[];
      var groups := set id | id in rows && rows[id].deletedAt == None :: rows[id].userID;
      assert groups == Owners(rows);
      while groups != {}
        invariant net.used == old(net.used) + 1
        invariant groups <= Owners(rows) && usage.Keys == Owners(rows) - groups
        invariant forall u | u in usage :: usage[u] == SumBytes(rows, LiveOf(rows, u))
        decreases groups
      {
        var u :| u in groups;
        var bytes := SumGroup(u);
        usage := usage[u := bytes];
        groups := groups - {u};
      }
      assert usage == Storage(rows);
      r := Ok(usage);
    }
  }
}
