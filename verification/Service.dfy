/** The server's use cases, again as machines that make one call per step and as methods over
    the stores and the publisher that are proved to follow them. */
module Service {
  import opened Wrappers
  import opened KeyLayout
  import opened Avatars
  import opened Calls
  import Postgres
  import S3
  import T = Topology

  /** What goes to the broker. */
  datatype Event = UploadPublished(upload: UploadEvent) | DeletePublished(delete: DeleteEvent)

  datatype Error = ErrNotFound | ErrNotOwner | ErrInternal

  function ErrorOf<T>(r: Reply<T>): Error
    requires !r.Ok?
  {
    if r.NotFound? then ErrNotFound else ErrInternal
  }

  /** A publish that took effect appends its event, whatever its caller saw. */
  function Publish(sent: seq<Event>, e: Event, c: Call): seq<Event> {
    if Applied(c) then sent + [e] else sent
  }

  // ---------------------------------------------------------------------------------------
  // Upload
  // ---------------------------------------------------------------------------------------

  /** Where an upload stands. It carries the row Create answered. */
  datatype UploadPc =
    | CreateRow
    | PutOriginal(a: Avatar)
    | Compensate(a: Avatar)
    | Confirm(a: Avatar)
    | Announce(a: Avatar)
    | Answered(a: Avatar)
    | Refused

  const MAX_FILE_NAME_LEN := 255

  function Truncated(fileName: string): string {
    if |fileName| > MAX_FILE_NAME_LEN then fileName[..MAX_FILE_NAME_LEN] else fileName
  }

  function Record(cfg: Config, id: Id, user: User, fileName: string, data: Data): New {
    var sniff := cfg.sniff(data);
    New(id, user, Truncated(fileName), sniff.mimeType, |data|, sniff.width, sniff.height, Original(id))
  }

  function UploadNext(n: New, pc: UploadPc, w: World, c: Call): UploadPc {
    match pc
    case CreateRow => (
      match Postgres.CreateReply(w.table, n, c)
      case Ok(a) => PutOriginal(a)
      case _ => Refused)
    case PutOriginal(a) => if S3.WriteReply(c).Ok? then Confirm(a) else Compensate(a)
    case Compensate(_) => Refused
    case Confirm(a) =>
      if Postgres.ExecReply(a.id in w.table, c).Ok? then Announce(a.(uploadStatus := Uploaded)) else Refused
    case Announce(a) => Answered(a)
    case _ => pc
  }

  function UploadEffect(n: New, data: Data, pc: UploadPc, w: World, c: Call): World {
    match pc
    case CreateRow => w.(table := Postgres.Create(w.table, n, c))
    case PutOriginal(a) => w.(objects := S3.Put(w.objects, a.s3Key, data, c))
    case Compensate(a) => w.(table := Postgres.SetUploadStatus(w.table, a.id, UploadFailed, c))
    case Confirm(a) => w.(table := Postgres.SetUploadStatus(w.table, a.id, Uploaded, c))
    case _ => w
  }

  function UploadAnnouncement(a: Avatar): UploadEvent {
    UploadEvent(a.id, a.userID, a.s3Key)
  }

  function UploadSent(pc: UploadPc, sent: seq<Event>, c: Call): seq<Event> {
    if pc.Announce? then Publish(sent, UploadPublished(UploadAnnouncement(pc.a)), c) else sent
  }

  function UploadRun(n: New, data: Data, pc: UploadPc, w: World, sent: seq<Event>, calls: seq<Call>)
    : (UploadPc, World, seq<Event>)
    decreases calls
  {
    if calls == [] then (pc, w, sent)
    else
      UploadRun(n, data, UploadNext(n, pc, w, calls[0]), UploadEffect(n, data, pc, w, calls[0]),
                UploadSent(pc, sent, calls[0]), calls[1..])
  }

  lemma {:induction false} UploadRunSnoc(n: New, data: Data, pc: UploadPc, w: World, sent: seq<Event>, calls: seq<Call>, c: Call)
    ensures UploadRun(n, data, pc, w, sent, calls + [c]) ==
            var (pc', w', sent') := UploadRun(n, data, pc, w, sent, calls);
            (UploadNext(n, pc', w', c), UploadEffect(n, data, pc', w', c), UploadSent(pc', sent', c))
    decreases calls
  {
    if calls == [] {
      assert (calls + [c])[1..] == [];
    } else {
      assert (calls + [c])[1..] == calls[1..] + [c];
      UploadRunSnoc(n, data, UploadNext(n, pc, w, calls[0]), UploadEffect(n, data, pc, w, calls[0]),
                    UploadSent(pc, sent, calls[0]), calls[1..], c);
    }
  }

  /** One more call of an upload request that runs alone. */
  lemma UploadAdvance(n: New, data: Data, start: World, sent: seq<Event>, calls: seq<Call>, c: Call, fate: nat -> Call, since: nat)
    requires Follows(fate, since, calls) && c == fate(since + |calls|)
    ensures Follows(fate, since, calls + [c])
    ensures UploadRun(n, data, CreateRow, start, sent, calls + [c]) ==
            var (pc, w, sent') := UploadRun(n, data, CreateRow, start, sent, calls);
            (UploadNext(n, pc, w, c), UploadEffect(n, data, pc, w, c), UploadSent(pc, sent', c))
  {
    FollowsSnoc(fate, since, calls, c);
    UploadRunSnoc(n, data, CreateRow, start, sent, calls, c);
  }

  // ---------------------------------------------------------------------------------------
  // Delete and DeleteLatest
  // ---------------------------------------------------------------------------------------

  datatype Target =
    | ByID(id: Id, requester: User)
    | LatestOf(user: User, requester: User)

  /** Where a delete stands. Won means this request hid the row. */
  datatype DeletePc =
    | Find
    | Hide(a: Avatar, keys: seq<Key>)
    | AnnounceDelete(id: Id, keys: seq<Key>)
    | Won(id: Id)
    | DeleteRefused(error: Error)

  /** An order in which a map may be iterated. */
  ghost predicate IsOrder(m: map<string, Key>, order: seq<string>) {
    && (forall name | name in order :: name in m)
    && (forall name | name in m :: name in order)
    && (forall i, j | 0 <= i < j < |order| :: order[i] != order[j])
  }

  function Entries(m: map<string, Key>, order: seq<string>): seq<Key>
    requires forall name | name in order :: name in m
  {
    if order == [] then [] else Entries(m, order[..|order| - 1]) + [m[order[|order| - 1]]]
  }

  /** The keys captured for the cleanup: the original, then the thumbnails in map order. */
  function CapturedKeys(a: Avatar, order: seq<string>): seq<Key>
    requires forall name | name in order :: name in a.thumbnails
  {
    [a.s3Key] + Entries(a.thumbnails, order)
  }

  function DeleteStart(target: Target): DeletePc {
    if target.LatestOf? && target.user != target.requester then DeleteRefused(ErrNotOwner) else Find
  }

  function FindReply(target: Target, w: World, c: Call, pick: Option<Id>): Reply<Avatar>
    requires pick.Some? ==> pick.value in w.table
  {
    match target
    case ByID(id, _) => Postgres.GetByID(w.table, id, c)
    case LatestOf(_, _) => Postgres.LatestByUser(w.table, pick, c)
  }

  /** The choices the row read leaves open: which newest row, and the iteration order. */
  ghost predicate FindAdmits(target: Target, w: World, c: Call, pick: Option<Id>, order: seq<string>) {
    && (if target.LatestOf? then Postgres.LatestPick(w.table, target.user, pick) else pick.None?)
    && (pick.Some? ==> pick.value in w.table)
    && var r := FindReply(target, w, c, pick);
       if r.Ok? then IsOrder(r.value.thumbnails, order) else order == []
  }

  function FindNext(target: Target, w: World, c: Call, pick: Option<Id>, order: seq<string>): DeletePc
    requires pick.Some? ==> pick.value in w.table
    requires var r := FindReply(target, w, c, pick);
             r.Ok? ==> forall name | name in order :: name in r.value.thumbnails
  {
    var r := FindReply(target, w, c, pick);
    if !r.Ok? then DeleteRefused(ErrorOf(r))
    else if target.ByID? && r.value.userID != target.requester then DeleteRefused(ErrNotOwner)
    else Hide(r.value, CapturedKeys(r.value, order))
  }

  function DeleteNext(pc: DeletePc, w: World, c: Call): DeletePc {
    match pc
    case Hide(a, keys) =>
      var r := Postgres.ExecReply(Postgres.Live(w.table, a.id), c);
      if r.Ok? then AnnounceDelete(a.id, keys) else DeleteRefused(ErrorOf(r))
    case AnnounceDelete(id, _) => Won(id)
    case _ => pc
  }

  function DeleteEffect(pc: DeletePc, w: World, c: Call): World {
    if pc.Hide? then w.(table := Postgres.SoftDelete(w.table, pc.a.id, c)) else w
  }

  function DeleteSent(pc: DeletePc, sent: seq<Event>, c: Call): seq<Event> {
    if pc.AnnounceDelete? then Publish(sent, DeletePublished(DeleteEvent(pc.id, pc.keys)), c) else sent
  }

  function DeleteRun(pc: DeletePc, w: World, sent: seq<Event>, calls: seq<Call>): (DeletePc, World, seq<Event>)
    decreases calls
  {
    if calls == [] then (pc, w, sent)
    else
      DeleteRun(DeleteNext(pc, w, calls[0]), DeleteEffect(pc, w, calls[0]),
                DeleteSent(pc, sent, calls[0]), calls[1..])
  }

  lemma {:induction false} DeleteRunSnoc(pc: DeletePc, w: World, sent: seq<Event>, calls: seq<Call>, c: Call)
    ensures DeleteRun(pc, w, sent, calls + [c]) ==
            var (pc', w', sent') := DeleteRun(pc, w, sent, calls);
            (DeleteNext(pc', w', c), DeleteEffect(pc', w', c), DeleteSent(pc', sent', c))
    decreases calls
  {
    if calls == [] {
      assert (calls + [c])[1..] == [];
    } else {
      assert (calls + [c])[1..] == calls[1..] + [c];
      DeleteRunSnoc(DeleteNext(pc, w, calls[0]), DeleteEffect(pc, w, calls[0]),
                    DeleteSent(pc, sent, calls[0]), calls[1..], c);
    }
  }

  // ---------------------------------------------------------------------------------------
  // GetFile, LatestFile and ThumbnailFile
  // ---------------------------------------------------------------------------------------

  datatype Query =
    | FileOf(id: Id)
    | LatestFileOf(user: User)
    | ThumbnailOf(id: Id, size: string)

  datatype File = File(body: Data, contentType: string, size: nat)

  /** Where a read stands. `a` is the row it saw. */
  datatype ReadPc =
    | Lookup
    | Open(a: Avatar, key: Key)
    | Served(a: Avatar, key: Key, file: File)
    | ObjectMissing(a: Avatar, key: Key)
    | ReadRefused(error: Error)

  function LookupReply(q: Query, w: World, c: Call, pick: Option<Id>): Reply<Avatar>
    requires pick.Some? ==> pick.value in w.table
  {
    match q
    case FileOf(id) => Postgres.GetByID(w.table, id, c)
    case LatestFileOf(_) => Postgres.LatestByUser(w.table, pick, c)
    case ThumbnailOf(id, _) => Postgres.GetByID(w.table, id, c)
  }

  ghost predicate LookupAdmits(q: Query, w: World, pick: Option<Id>) {
    && (if q.LatestFileOf? then Postgres.LatestPick(w.table, q.user, pick) else pick.None?)
    && (pick.Some? ==> pick.value in w.table)
  }

  function LookupNext(q: Query, w: World, c: Call, pick: Option<Id>): ReadPc
    requires pick.Some? ==> pick.value in w.table
  {
    var r := LookupReply(q, w, c, pick);
    if !r.Ok? then ReadRefused(ErrorOf(r))
    else if !q.ThumbnailOf? then Open(r.value, r.value.s3Key)
    else if q.size in r.value.thumbnails then Open(r.value, r.value.thumbnails[q.size])
    else ReadRefused(ErrNotFound)
  }

  function OpenNext(q: Query, pc: ReadPc, w: World, c: Call): ReadPc {
    if !pc.Open? then pc
    else
      match S3.Get(w.objects, pc.key, c)
      case Ok(body) =>
        Served(pc.a, pc.key, if q.ThumbnailOf? then File(body, "image/jpeg", 0)
                             else File(body, pc.a.mimeType, pc.a.sizeBytes))
      case NotFound => ObjectMissing(pc.a, pc.key)
      case Fault => ReadRefused(ErrInternal)
  }

  /** What the client is told. */
  function ReadAnswer(pc: ReadPc): Reply<File> {
    match pc
    case Served(_, _, file) => Ok(file)
    case ObjectMissing(_, _) => NotFound
    case ReadRefused(e) => if e == ErrNotFound then NotFound else Fault
    case _ => Fault
  }

  // ---------------------------------------------------------------------------------------
  // The service
  // ---------------------------------------------------------------------------------------

  /** A message as the broker receives it. */
  datatype Publishing = Publishing(exchange: string, key: string, messageID: Id, persistent: bool, body: Event)

  /** How an event travels: persistent, to our exchange, under the queue of its kind, with the avatar's
      id as message id. */
  function Wire(e: Event): Publishing {
    match e
    case UploadPublished(ev) => Publishing(T.EXCHANGE, T.QUEUE_UPLOAD, ev.avatarID, true, e)
    case DeletePublished(ev) => Publishing(T.EXCHANGE, T.QUEUE_DELETE, ev.avatarID, true, e)
  }

  function Wired(sent: seq<Event>): seq<Publishing> {
    seq(|sent|, i requires 0 <= i < |sent| => Wire(sent[i]))
  }

  /** The broker as the publisher sees it: what was published, and the events that stands for. */
  class Publisher {
    const net: Network
    var wire: seq<Publishing>
    ghost var sent: seq<Event>

    ghost predicate Valid()
      reads this
    {
      wire == Wired(sent)
    }

    constructor (net: Network)
      ensures Valid() && sent == [] && this.net == net
    {
      this.net := net;
      wire := [];
      sent := [];
    }

    method PublishUpload(ev: UploadEvent) returns (ok: bool, ghost c: Call)
      requires Valid()
      modifies this, net
      ensures Valid() && net.One(old(net.used), c)
      ensures sent == Publish(old(sent), UploadPublished(ev), c) && ok == c.outcome.Success?
      ensures wire == if Applied(c) then old(wire) + [Publishing(T.EXCHANGE, T.QUEUE_UPLOAD, ev.avatarID, true, UploadPublished(ev))]
                      else old(wire)
    {
      ok, c := Send(T.QUEUE_UPLOAD, ev.avatarID, UploadPublished(ev));
      sent := Publish(sent, UploadPublished(ev), c);
    }

    method PublishDelete(ev: DeleteEvent) returns (ok: bool, ghost c: Call)
      requires Valid()
      modifies this, net
      ensures Valid() && net.One(old(net.used), c)
      ensures sent == Publish(old(sent), DeletePublished(ev), c) && ok == c.outcome.Success?
      ensures wire == if Applied(c) then old(wire) + [Publishing(T.EXCHANGE, T.QUEUE_DELETE, ev.avatarID, true, DeletePublished(ev))]
                      else old(wire)
    {
      ok, c := Send(T.QUEUE_DELETE, ev.avatarID, DeletePublished(ev));
      sent := Publish(sent, DeletePublished(ev), c);
    }

    method Send(key: string, messageID: Id, body: Event) returns (ok: bool, ghost c: Call)
      modifies this`wire, net
      ensures net.One(old(net.used), c) && ok == c.outcome.Success?
      ensures wire == if Applied(c) then old(wire) + [Publishing(T.EXCHANGE, key, messageID, true, body)] else old(wire)
    {
      var call := net.Next();
      c := call;
      if !call.outcome.Failure? {
        wire := wire + [Publishing(T.EXCHANGE, key, messageID, true, body)];
      }
      ok := call.outcome.Success?;
    }
  }

  /** What a client gets for a row: the stored bytes under the row's type and size, not found only when
      the object is missing, and any failure as such. */
  function OriginalOf(a: Avatar, o: Objects, c: Call): Reply<File> {
    if !c.outcome.Success? then Fault
    else if a.s3Key !in o then NotFound
    else Ok(File(o[a.s3Key], a.mimeType, a.sizeBytes))
  }

  function ThumbnailAt(key: Key, o: Objects, c: Call): Reply<File> {
    if !c.outcome.Success? then Fault
    else if key !in o then NotFound
    else Ok(File(o[key], "image/jpeg", 0))
  }

  class Service {
    const cfg: Config
    const repo: Postgres.Repository
    const files: S3.Store
    const pub: Publisher
    const net: Network

    constructor (cfg: Config, net: Network, repo: Postgres.Repository, files: S3.Store, pub: Publisher)
      ensures this.cfg == cfg && this.net == net && this.repo == repo && this.files == files && this.pub == pub
    {
      this.cfg := cfg;
      this.net := net;
      this.repo := repo;
      this.files := files;
      this.pub := pub;
    }

    ghost predicate Valid()
      reads repo, pub
    {
      repo.net == net && files.net == net && pub.net == net && repo.Valid() && pub.Valid()
    }

    ghost function Stores(): World
      reads repo, files
    {
      World(repo.rows, files.objects)
    }

    /** The upload, run alone since `since`, has made `calls` and now stands at `pc`. */
    ghost predicate At(n: New, data: Data, start: World, sent: seq<Event>, since: nat, calls: seq<Call>, pc: UploadPc)
      reads repo, files, pub, net
    {
      Valid() && net.Made(since, calls) && UploadRun(n, data, CreateRow, start, sent, calls) == (pc, Stores(), pub.sent)
    }

    /** `id` is the fresh UUID. The answer is the row, or None for an error. */
    method Upload(id: Id, user: User, fileName: string, data: Data)
      returns (answer: Option<Avatar>, ghost calls: seq<Call>)
      requires Valid()
      modifies repo, files, pub, net
      ensures Valid() && net.Made(old(net.used), calls)
      ensures UploadRun(Record(cfg, id, user, fileName, data), data, CreateRow, old(Stores()), old(pub.sent), calls) ==
              (if answer.Some? then Answered(answer.value) else Refused, Stores(), pub.sent)
      ensures |calls| == if answer.Some? then 4
                         else if net.fate(old(net.used)).outcome.Success? && id !in old(repo.rows) then 3 else 1
    {
      var name := fileName;
      if |name| > MAX_FILE_NAME_LEN {
        name := name[..MAX_FILE_NAME_LEN];
      }
      var sniff := cfg.sniff(data);
      var n := New(id, user, name, sniff.mimeType, |data|, sniff.width, sniff.height, Original(id));
      ghost var start, sent, since := Stores(), pub.sent, net.used;
      ghost var c;
      calls := [];
      var created;
      created, c := repo.Insert(n);
      UploadAdvance(n, data, start, sent, calls, c, net.fate, since);
      calls := calls + [c];
      if !created.Ok? {
        return None, calls;
      }
      assert At(n, data, start, sent, since, calls, PutOriginal(created.value));
      answer, calls := StoreOriginal(created.value, data, n, start, sent, since, calls);
    }

    /** The rest of Upload, once the row is there. */
    method StoreOriginal(row: Avatar, data: Data, ghost n: New, ghost start: World, ghost sent: seq<Event>,
                         ghost since: nat, ghost made: seq<Call>)
      returns (answer: Option<Avatar>, ghost calls: seq<Call>)
      requires At(n, data, start, sent, since, made, PutOriginal(row))
      modifies repo, files, pub, net
      ensures At(n, data, start, sent, since, calls, if answer.Some? then Answered(answer.value) else Refused)
      ensures |calls| == |made| + if answer.Some? then 3 else 2
    {
      var a := row;
      ghost var c;
      calls := made;
      var stored;
      stored, c := files.Write(a.s3Key, data);
      UploadAdvance(n, data, start, sent, calls, c, net.fate, since);
      calls := calls + [c];
      if !stored.Ok? {
        var _, c' := repo.SetUpload(a.id, UploadFailed);
        UploadAdvance(n, data, start, sent, calls, c', net.fate, since);
        calls := calls + [c'];
        return None, calls;
      }

      assert At(n, data, start, sent, since, calls, Confirm(a));

      var confirmed;
      confirmed, c := repo.SetUpload(a.id, Uploaded);
      UploadAdvance(n, data, start, sent, calls, c, net.fate, since);
      calls := calls + [c];
      if !confirmed.Ok? {
        return None, calls;
      }
      a := a.(uploadStatus := Uploaded);
      assert At(n, data, start, sent, since, calls, Announce(a));
      var _, c' := pub.PublishUpload(UploadEvent(a.id, a.userID, a.s3Key));
      UploadAdvance(n, data, start, sent, calls, c', net.fate, since);
      calls := calls + [c'];
      return Some(a), calls;
    }

    method GetFile(id: Id) returns (answer: Reply<File>, ghost c1: Call, ghost c2: Call)
      requires Valid()
      modifies net
      ensures
        var pc := LookupNext(FileOf(id), Stores(), c1, None);
        && answer == ReadAnswer(OpenNext(FileOf(id), pc, Stores(), c2))
        && net.Made(old(net.used), if pc.Open? then [c1, c2] else [c1])
      ensures answer == if !c1.outcome.Success? then Fault
                        else if !Postgres.Live(repo.rows, id) then NotFound
                        else OriginalOf(repo.rows[id], files.objects, c2)
    {
      var row;
      row, c1 := repo.ByID(id);
      c2 := FAULT_FREE;
      if row.NotFound? {
        return NotFound, c1, c2;
      } else if row.Fault? {
        return Fault, c1, c2;
      }
      answer, c2 := OpenOriginal(row.value);
    }

    method LatestFile(user: User) returns (answer: Reply<File>, ghost c1: Call, ghost c2: Call, ghost pick: Option<Id>)
      requires Valid()
      modifies net
      ensures LookupAdmits(LatestFileOf(user), Stores(), pick)
      ensures
        var pc := LookupNext(LatestFileOf(user), Stores(), c1, pick);
        && answer == ReadAnswer(OpenNext(LatestFileOf(user), pc, Stores(), c2))
        && net.Made(old(net.used), if pc.Open? then [c1, c2] else [c1])
      ensures answer == if !c1.outcome.Success? then Fault
                        else if pick.None? then NotFound
                        else OriginalOf(repo.rows[pick.value], files.objects, c2)
    {
      var row;
      row, c1, pick := repo.Latest(user);
      c2 := FAULT_FREE;
      if row.NotFound? {
        return NotFound, c1, c2, pick;
      } else if row.Fault? {
        return Fault, c1, c2, pick;
      }
      answer, c2 := OpenOriginal(row.value);
    }

    method OpenOriginal(a: Avatar) returns (answer: Reply<File>, ghost c: Call)
      requires Valid()
      modifies net
      ensures net.One(old(net.used), c)
      ensures forall q: Query | !q.ThumbnailOf? ::
                answer == ReadAnswer(OpenNext(q, Open(a, a.s3Key), Stores(), c))
      ensures answer == OriginalOf(a, files.objects, c)
    {
      var body;
      body, c := files.Read(a.s3Key);
      match body
      case Ok(data) => answer := Ok(File(data, a.mimeType, a.sizeBytes));
      case NotFound => answer := NotFound;
      case Fault => answer := Fault;
    }

    method ThumbnailFile(id: Id, size: string) returns (answer: Reply<File>, ghost c1: Call, ghost c2: Call)
      requires Valid()
      modifies net
      ensures
        var pc := LookupNext(ThumbnailOf(id, size), Stores(), c1, None);
        && answer == ReadAnswer(OpenNext(ThumbnailOf(id, size), pc, Stores(), c2))
        && net.Made(old(net.used), if pc.Open? then [c1, c2] else [c1])
      ensures answer == if !c1.outcome.Success? then Fault
                        else if !Postgres.Live(repo.rows, id) || size !in repo.rows[id].thumbnails then NotFound
                        else ThumbnailAt(repo.rows[id].thumbnails[size], files.objects, c2)
    {
      var row;
      row, c1 := repo.ByID(id);
      c2 := FAULT_FREE;
      if row.NotFound? {
        return NotFound, c1, c2;
      } else if row.Fault? {
        return Fault, c1, c2;
      }
      if size !in row.value.thumbnails {
        return NotFound, c1, c2;
      }
      var body;
      body, c2 := files.Read(row.value.thumbnails[size]);
      match body
      case Ok(data) => answer := Ok(File(data, "image/jpeg", 0));
      case NotFound => answer := NotFound;
      case Fault => answer := Fault;
    }

    method Delete(id: Id, requester: User)
      returns (result: Option<Error>, ghost c: Call, ghost order: seq<string>, ghost calls: seq<Call>)
      requires Valid()
      modifies repo, pub, net
      ensures Valid() && net.Made(old(net.used), [c] + calls)
      ensures FindAdmits(ByID(id, requester), old(Stores()), c, None, order)
      ensures
        var found := FindNext(ByID(id, requester), old(Stores()), c, None, order);
        Concludes(DeleteRun(found, old(Stores()), old(pub.sent), calls), result, Stores(), pub.sent)
      ensures
        var mine := Postgres.Live(old(repo.rows), id) && old(repo.rows)[id].userID == requester;
        && (c.outcome.Success? && mine <==> calls != [])
        && result == if !c.outcome.Success? then Some(ErrInternal)
                     else if !Postgres.Live(old(repo.rows), id) then Some(ErrNotFound)
                     else if !mine then Some(ErrNotOwner)
                     else if !calls[0].outcome.Success? then Some(ErrInternal) else None
      ensures calls == [] ==> Stores() == old(Stores()) && pub.sent == old(pub.sent)
    {
      var row;
      row, c := repo.ByID(id);
      order, calls := [], [];
      match row
      case NotFound => result := Some(ErrNotFound);
      case Fault => result := Some(ErrInternal);
      case Ok(a) =>
        if a.userID != requester {
          result := Some(ErrNotOwner);
          order := SomeOrder(a.thumbnails);
        } else {
          result, order, calls := DeleteAvatar(a);
        }
    }

    method DeleteLatest(user: User, requester: User)
      returns (result: Option<Error>, ghost c: Call, ghost pick: Option<Id>, ghost order: seq<string>, ghost calls: seq<Call>)
      requires Valid()
      modifies repo, pub, net
      ensures Valid()
      ensures user != requester ==>
                net.Made(old(net.used), []) &&
                Concludes((DeleteStart(LatestOf(user, requester)), old(Stores()), old(pub.sent)), result, Stores(), pub.sent)
      ensures user == requester ==>
                net.Made(old(net.used), [c] + calls) &&
                FindAdmits(LatestOf(user, requester), old(Stores()), c, pick, order) &&
                var found := FindNext(LatestOf(user, requester), old(Stores()), c, pick, order);
                Concludes(DeleteRun(found, old(Stores()), old(pub.sent), calls), result, Stores(), pub.sent)
      ensures user == requester ==> (c.outcome.Success? && pick.Some? <==> calls != [])
      ensures result == if user != requester then Some(ErrNotOwner)
                        else if !c.outcome.Success? then Some(ErrInternal)
                        else if pick.None? then Some(ErrNotFound)
                        else if !calls[0].outcome.Success? then Some(ErrInternal) else None
      ensures user != requester || calls == [] ==> Stores() == old(Stores()) && pub.sent == old(pub.sent)
    {
      c, pick, order, calls := FAULT_FREE, None, [], [];
      if user != requester {
        return Some(ErrNotOwner), c, pick, order, calls;
      }
      var row;
      row, c, pick := repo.Latest(user);
      match row
      case NotFound => result := Some(ErrNotFound);
      case Fault => result := Some(ErrInternal);
      case Ok(a) => result, order, calls := DeleteAvatar(a);
    }

    method DeleteAvatar(a: Avatar) returns (result: Option<Error>, ghost order: seq<string>, ghost calls: seq<Call>)
      requires Valid()
      modifies repo, pub, net
      ensures Valid() && net.Made(old(net.used), calls)
      ensures IsOrder(a.thumbnails, order)
      ensures Concludes(DeleteRun(Hide(a, CapturedKeys(a, order)), old(Stores()), old(pub.sent), calls),
                        result, Stores(), pub.sent)
      ensures |calls| == if result.None? then 2 else 1
      ensures result == if !calls[0].outcome.Success? then Some(ErrInternal)
                        else if !Postgres.Live(old(repo.rows), a.id) then Some(ErrNotFound) else None
    {
      var keys := [a.s3Key];
      order := [];
      var rest := a.thumbnails.Keys;
      while rest != {}
        invariant rest <= a.thumbnails.Keys
        invariant forall name | name in order :: name in a.thumbnails && name !in rest
        invariant forall name | name in a.thumbnails && name !in rest :: name in order
        invariant forall i, j | 0 <= i < j < |order| :: order[i] != order[j]
        invariant keys == CapturedKeys(a, order)
        decreases rest
      {
        var name :| name in rest;
        keys := keys + [a.thumbnails[name]];
        assert (order + [name])[..|order|] == order;
        order := order + [name];
        rest := rest - {name};
      }

      ghost var start, sent := Stores(), pub.sent;
      var hidden, c1 := repo.Hide(a.id);
      calls := [] + [c1];
      DeleteRunSnoc(Hide(a, keys), start, sent, [], c1);
      match hidden
      case NotFound => result := Some(ErrNotFound);
      case Fault => result := Some(ErrInternal);
      case Ok(_) =>
        var _, c2 := pub.PublishDelete(DeleteEvent(a.id, keys));
        DeleteRunSnoc(Hide(a, keys), start, sent, calls, c2);
        calls := calls + [c2];
        result := None;
    }
  }

  /** A finished delete told the client `result` and left these stores and events. */
  ghost predicate Concludes(end: (DeletePc, World, seq<Event>), result: Option<Error>, w: World, sent: seq<Event>) {
    && end.1 == w && end.2 == sent
    && (if result.None? then end.0.Won? else end.0 == DeleteRefused(result.value))
  }

  ghost function SomeOrder(m: map<string, Key>): (order: seq<string>)
    ensures IsOrder(m, order)
    decreases m.Keys
  {
    if m == map[] then []
    else
      var name :| name in m;
      [name] + SomeOrder(m - {name})
  }
}
