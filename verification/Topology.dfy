/** The broker's topology, the procedure that declares it, and the conservation of messages that
    rests on it. Routing is that of a direct exchange (section 3.1.3.1 of AMQP 0-9-1): a message
    goes to every queue bound with its routing key, and a rejected message is published again to
    its queue's dead-letter exchange with the key it has. */
module Topology {
  import opened Calls

  const EXCHANGE := "avatars"
  const DLX_EXCHANGE := "avatars.dlx"
  const QUEUE_UPLOAD := "avatar.upload"
  const QUEUE_DELETE := "avatar.delete"
  const QUEUE_DEAD := "avatar.dead"

  datatype Binding = Binding(exchange: string, key: string, queue: string)

  type Arguments = map<string, string>

  /** What an exchange or a queue was declared with. */
  datatype ExchangeArgs = ExchangeArgs(kind: string, durable: bool, autoDelete: bool, isInternal: bool, table: Arguments)

  datatype QueueArgs = QueueArgs(durable: bool, autoDelete: bool, exclusive: bool, table: Arguments)

  datatype Topology = Topology(
    exchanges: map<string, ExchangeArgs>,
    queues: map<string, QueueArgs>,
    bindings: set<Binding>)

  const NOTHING := Topology(map[], map[], {})

  // ---------------------------------------------------------------------------------------
  // Declaring
  // ---------------------------------------------------------------------------------------

  datatype Request =
    | AddExchange(name: string, exchangeArgs: ExchangeArgs)
    | AddQueue(queue: string, queueArgs: QueueArgs)
    | AddBinding(binding: Binding)

  /** Every request is idempotent; what exists is left as it is. */
  function Perform(t: Topology, r: Request): Topology {
    match r
    case AddExchange(name, args) => if name in t.exchanges then t else t.(exchanges := t.exchanges[name := args])
    case AddQueue(queue, args) => if queue in t.queues then t else t.(queues := t.queues[queue := args])
    case AddBinding(b) => t.(bindings := t.bindings + {b})
  }

  /** What a granted request leaves; an exchange or queue that exists with other arguments is
      refused. */
  predicate Has(t: Topology, r: Request) {
    match r
    case AddExchange(name, args) => name in t.exchanges && t.exchanges[name] == args
    case AddQueue(queue, args) => queue in t.queues && t.queues[queue] == args
    case AddBinding(b) => b in t.bindings
  }

  const DLX_ARGUMENT := "x-dead-letter-exchange"
  const DIRECT := ExchangeArgs("direct", true, false, false, map[])
  const WORK_ARGS := QueueArgs(true, false, false, map[DLX_ARGUMENT := DLX_EXCHANGE])
  const DEAD_ARGS := QueueArgs(true, false, false, map[])

  const OURS: Topology :=
    Topology(map[EXCHANGE := DIRECT, DLX_EXCHANGE := DIRECT],
             map[QUEUE_UPLOAD := WORK_ARGS, QUEUE_DELETE := WORK_ARGS, QUEUE_DEAD := DEAD_ARGS],
             {Binding(EXCHANGE, QUEUE_UPLOAD, QUEUE_UPLOAD), Binding(EXCHANGE, QUEUE_DELETE, QUEUE_DELETE),
              Binding(DLX_EXCHANGE, QUEUE_UPLOAD, QUEUE_DEAD), Binding(DLX_EXCHANGE, QUEUE_DELETE, QUEUE_DEAD)})

  /** `t` with what it lacks of ours added. */
  function Declared(t: Topology): Topology {
    Topology(OURS.exchanges + t.exchanges, OURS.queues + t.queues, t.bindings + OURS.bindings)
  }

  /** No exchange and no queue of ours exists with other arguments. */
  predicate Compatible(t: Topology) {
    && (forall x | x in t.exchanges && x in OURS.exchanges :: t.exchanges[x] == OURS.exchanges[x])
    && (forall q | q in t.queues && q in OURS.queues :: t.queues[q] == OURS.queues[q])
  }

  predicate Within(t: Topology, t': Topology) {
    && t.exchanges.Keys <= t'.exchanges.Keys && (forall x | x in t.exchanges :: t.exchanges[x] == t'.exchanges[x])
    && t.queues.Keys <= t'.queues.Keys && (forall q | q in t.queues :: t.queues[q] == t'.queues[q])
    && t.bindings <= t'.bindings
  }

  /** Between nothing done and all done. */
  predicate PartlyDeclared(t0: Topology, t: Topology) {
    Within(t0, t) && Within(t, Declared(t0))
  }

  lemma PerformStaysWithin(t0: Topology, t: Topology, r: Request)
    requires PartlyDeclared(t0, t) && Has(OURS, r)
    ensures PartlyDeclared(t0, Perform(t, r))
  {
  }

  class Channel {
    const net: Network
    var topology: Topology

    constructor (net: Network)
      ensures topology == NOTHING && this.net == net
    {
      this.net := net;
      topology := NOTHING;
    }

    /** One request: it may be lost, refused, or performed with its answer lost. */
    method Send(r: Request) returns (ok: bool)
      modifies this, net
      ensures net.used == old(net.used) + 1
      ensures topology == if Applied(net.fate(old(net.used))) then Perform(old(topology), r) else old(topology)
      ensures ok == (net.fate(old(net.used)).outcome.Success? && Has(topology, r))
    {
      var call := net.Next();
      if !call.outcome.Failure? {
        match r
        case AddExchange(name, args) =>
          if name !in topology.exchanges {
            topology := topology.(exchanges := topology.exchanges[name := args]);
          }
        case AddQueue(queue, args) =>
          if queue !in topology.queues {
            topology := topology.(queues := topology.queues[queue := args]);
          }
        case AddBinding(b) => topology := topology.(bindings := topology.bindings + {b});
      }
      ok := call.outcome.Success? && Has(topology, r);
    }

    /** Request j since `since` was answered. */
    ghost predicate Answered(since: nat, j: nat) {
      net.fate(since + j).outcome.Success?
    }

    /** The first n requests of the script were answered and granted. */
    ghost predicate Progress(t0: Topology, since: nat, n: nat)
      reads this, net
    {
      && n <= 9 && net.used == since + n && PartlyDeclared(t0, topology)
      && forall j | 0 <= j < n :: Answered(since, j) && Has(topology, Script(j))
    }

    /** Declare stops here: a request was not answered, or something of ours was there with other
        arguments. */
    ghost predicate Stopped(t0: Topology, since: nat)
      reads this
    {
      PartlyDeclared(t0, topology) && !(Compatible(t0) && forall j | 0 <= j < 9 :: Answered(since, j))
    }

    /** Request n of the script: it fails only by the network, or because an incompatible exchange
        or queue was there from the start. */
    method SendNext(r: Request, ghost t0: Topology, ghost since: nat, ghost n: nat) returns (ok: bool)
      requires Progress(t0, since, n) && n < 9 && r == Script(n)
      modifies this, net
      ensures if ok then Progress(t0, since, n + 1) else Stopped(t0, since)
    {
      ScriptIsOurs(n);
      PerformStaysWithin(t0, topology, r);
      ghost var before := topology;
      ok := Send(r);
      if !ok {
        assert !(Answered(since, n) && Compatible(t0));
      }
      forall j | 0 <= j < n ensures Has(topology, Script(j)) {
        PerformKeeps(before, r, Script(j));
      }
    }

    method DeclareWorkQueues(ghost t0: Topology, ghost since: nat) returns (ok: bool)
      requires Progress(t0, since, 2)
      modifies this, net
      ensures if ok then Progress(t0, since, 6) else Stopped(t0, since)
    {
      var i := 0;
      while i < |WORK_QUEUES|
        invariant 0 <= i <= |WORK_QUEUES| && Progress(t0, since, 2 + 2 * i)
      {
        WorkScript(i);
        ok := SendNext(AddQueue(WORK_QUEUES[i], WORK_ARGS), t0, since, 2 + 2 * i);
        if !ok { return; }
        ok := SendNext(AddBinding(Binding(EXCHANGE, WORK_QUEUES[i], WORK_QUEUES[i])), t0, since, 3 + 2 * i);
        if !ok { return; }
        i := i + 1;
      }
      ok := true;
    }

    method BindDeadQueue(ghost t0: Topology, ghost since: nat) returns (ok: bool)
      requires Progress(t0, since, 7)
      modifies this, net
      ensures if ok then Progress(t0, since, 9) else Stopped(t0, since)
    {
      var i := 0;
      while i < |WORK_QUEUES|
        invariant 0 <= i <= |WORK_QUEUES| && Progress(t0, since, 7 + i)
      {
        WorkScript(i);
        ok := SendNext(AddBinding(Binding(DLX_EXCHANGE, WORK_QUEUES[i], QUEUE_DEAD)), t0, since, 7 + i);
        if !ok { return; }
        i := i + 1;
      }
      ok := true;
    }

    /** Declare succeeds exactly when its nine requests are answered and no exchange or queue of
        ours exists with other arguments; then exactly our topology was added. Otherwise a part of
        it was. */
    method Declare() returns (ok: bool)
      modifies this, net
      ensures ok <==> Compatible(old(topology)) && forall j | 0 <= j < 9 :: Answered(old(net.used), j)
      ensures PartlyDeclared(old(topology), topology)
      ensures ok ==> topology == Declared(old(topology))
    {
      ghost var t0, since := topology, net.used;
      ok := SendNext(AddExchange(EXCHANGE, DIRECT), t0, since, 0);
      if !ok { return; }
      ok := SendNext(AddExchange(DLX_EXCHANGE, DIRECT), t0, since, 1);
      if !ok { return; }
      ok := DeclareWorkQueues(t0, since);
      if !ok { return; }
      ok := SendNext(AddQueue(QUEUE_DEAD, DEAD_ARGS), t0, since, 6);
      if !ok { return; }
      ok := BindDeadQueue(t0, since);
      if !ok { return; }
      AllGranted(t0, topology);
    }
  }

  const WORK_QUEUES := [QUEUE_UPLOAD, QUEUE_DELETE]

  /** What Declare asks for, in order: two exchanges, each work queue with its binding, the dead
      queue, and its two bindings. */
  function Script(n: nat): Request
    requires n < 9
  {
    if n == 0 then AddExchange(EXCHANGE, DIRECT)
    else if n == 1 then AddExchange(DLX_EXCHANGE, DIRECT)
    else if n < 6 then
      var queue := WORK_QUEUES[(n - 2) / 2];
      if n % 2 == 0 then AddQueue(queue, WORK_ARGS) else AddBinding(Binding(EXCHANGE, queue, queue))
    else if n == 6 then AddQueue(QUEUE_DEAD, DEAD_ARGS)
    else AddBinding(Binding(DLX_EXCHANGE, WORK_QUEUES[n - 7], QUEUE_DEAD))
  }

  lemma ScriptIsOurs(n: nat)
    requires n < 9
    ensures Has(OURS, Script(n))
  {
  }

  lemma PerformKeeps(t: Topology, r: Request, r': Request)
    requires Has(t, r')
    ensures Has(Perform(t, r), r')
  {
  }

  lemma WorkScript(i: nat)
    requires i < |WORK_QUEUES|
    ensures Script(2 + 2 * i) == AddQueue(WORK_QUEUES[i], WORK_ARGS)
    ensures Script(3 + 2 * i) == AddBinding(Binding(EXCHANGE, WORK_QUEUES[i], WORK_QUEUES[i]))
    ensures Script(7 + i) == AddBinding(Binding(DLX_EXCHANGE, WORK_QUEUES[i], QUEUE_DEAD))
  {
  }

  /** Everything of ours was granted. */
  lemma AllHad(t: Topology)
    requires forall j | 0 <= j < 9 :: Has(t, Script(j))
    ensures forall x | x in OURS.exchanges :: x in t.exchanges && t.exchanges[x] == OURS.exchanges[x]
    ensures forall q | q in OURS.queues :: q in t.queues && t.queues[q] == OURS.queues[q]
    ensures OURS.bindings <= t.bindings
  {
    assert Has(t, Script(0)) && Has(t, Script(1)) && Has(t, Script(2)) && Has(t, Script(3)) && Has(t, Script(4))
        && Has(t, Script(5)) && Has(t, Script(6)) && Has(t, Script(7)) && Has(t, Script(8));
  }

  /** A map between t0 and t0 with ours added that has all of ours. */
  lemma Merged<T>(ours: map<string, T>, t0: map<string, T>, t: map<string, T>)
    requires t0.Keys <= t.Keys <= (ours + t0).Keys
    requires forall x | x in t0 :: t[x] == t0[x]
    requires forall x | x in ours :: x in t && t[x] == ours[x]
    ensures t == ours + t0
    ensures forall x | x in t0 && x in ours :: t0[x] == ours[x]
  {
  }

  lemma AllGranted(t0: Topology, t: Topology)
    requires PartlyDeclared(t0, t) && forall j | 0 <= j < 9 :: Has(t, Script(j))
    ensures Compatible(t0) && t == Declared(t0)
  {
    AllHad(t);
    Merged(OURS.exchanges, t0.exchanges, t.exchanges);
    Merged(OURS.queues, t0.queues, t.queues);
  }

  // ---------------------------------------------------------------------------------------
  // What declaring comes to
  // ---------------------------------------------------------------------------------------

  /** `ts` are the topologies after successive Declare calls that may each have stopped anywhere. */
  ghost predicate DeclareHistory(t: Topology, ts: seq<Topology>)
    decreases ts
  {
    ts == [] || (PartlyDeclared(t, ts[0]) && DeclareHistory(ts[0], ts[1..]))
  }

  /** Whatever calls of either binary failed or succeeded before, a successful Declare ends in the
      one same topology, so either binary can start first, and repeating it changes nothing. */
  lemma {:induction false} DeclaresConverge(t: Topology, ts: seq<Topology>)
    requires DeclareHistory(t, ts)
    ensures var last := if ts == [] then t else ts[|ts| - 1];
            Declared(last) == Declared(t) && Declared(Declared(t)) == Declared(t)
    decreases ts
  {
    if ts != [] {
      DeclaredAgain(t, ts[0]);
      DeclaresConverge(ts[0], ts[1..]);
    } else {
      DeclaredAgain(t, Declared(t));
    }
  }

  lemma DeclaredAgain(t: Topology, t': Topology)
    requires PartlyDeclared(t, t')
    ensures Declared(t') == Declared(t)
  {
    assert Declared(t').exchanges == Declared(t).exchanges && Declared(t').queues == Declared(t).queues;
  }

  /** A broker that only these binaries ever declared on ends up with our topology exactly. */
  lemma DeclaredFromNothing()
    ensures Declared(NOTHING) == OURS
  {
  }

  // ---------------------------------------------------------------------------------------
  // Routing
  // ---------------------------------------------------------------------------------------

  /** The queues a direct exchange hands a message to. */
  ghost function Routes(t: Topology, exchange: string, key: string): set<string> {
    set b | b in t.bindings && b.exchange == exchange && b.key == key :: b.queue
  }

  /** An event goes to its own queue and no other; a rejected one, from either work queue, to the
      dead queue and no other. */
  ghost predicate RoutesSingly(t: Topology) {
    forall key | key in WORK_QUEUES ::
      Routes(t, EXCHANGE, key) == {key} && Routes(t, DLX_EXCHANGE, key) == {QUEUE_DEAD}
  }

  /** Nobody else bound a queue to our exchanges under our keys. */
  predicate NoForeignBindings(t: Topology) {
    forall b | b in t.bindings && b.key in WORK_QUEUES ::
      && (b.exchange == EXCHANGE ==> b.queue == b.key)
      && (b.exchange == DLX_EXCHANGE ==> b.queue == QUEUE_DEAD)
  }

  lemma NamesDiffer()
    ensures EXCHANGE != DLX_EXCHANGE
    ensures QUEUE_UPLOAD != QUEUE_DELETE && QUEUE_UPLOAD != QUEUE_DEAD && QUEUE_DELETE != QUEUE_DEAD
  {
    assert |EXCHANGE| != |DLX_EXCHANGE|;
    assert QUEUE_UPLOAD[7] != QUEUE_DELETE[7];
    assert |QUEUE_DEAD| != |QUEUE_UPLOAD| && |QUEUE_DEAD| != |QUEUE_DELETE|;
  }

  /** Once declared, on a broker with whatever else, routing is single exactly when nobody else bound
      a queue under our keys. */
  lemma RoutesAreSingleIff(t: Topology)
    ensures RoutesSingly(Declared(t)) <==> NoForeignBindings(t)
  {
    NamesDiffer();
    var t' := Declared(t);
    if NoForeignBindings(t) {
      forall key | key in WORK_QUEUES
        ensures Routes(t', EXCHANGE, key) == {key} && Routes(t', DLX_EXCHANGE, key) == {QUEUE_DEAD}
      {
        assert Binding(EXCHANGE, key, key) in OURS.bindings && Binding(DLX_EXCHANGE, key, QUEUE_DEAD) in OURS.bindings;
      }
    } else {
      var b :| b in t.bindings && b.key in WORK_QUEUES &&
               ((b.exchange == EXCHANGE && b.queue != b.key) || (b.exchange == DLX_EXCHANGE && b.queue != QUEUE_DEAD));
      assert b.queue in Routes(t', b.exchange, b.key);
    }
  }

  /** What is declared survives a broker restart and belongs to no single connection; the dead queue
      passes nothing on. */
  lemma OursAreDurable(t: Topology)
    requires Compatible(t)
    ensures forall x | x in OURS.exchanges ::
              x in Declared(t).exchanges && Declared(t).exchanges[x].durable && !Declared(t).exchanges[x].autoDelete
              && Declared(t).exchanges[x].kind == "direct" && !Declared(t).exchanges[x].isInternal
    ensures forall q | q in OURS.queues ::
              q in Declared(t).queues && Declared(t).queues[q].durable && !Declared(t).queues[q].autoDelete
              && !Declared(t).queues[q].exclusive
    ensures QUEUE_DEAD in Declared(t).queues && DLX_ARGUMENT !in Declared(t).queues[QUEUE_DEAD].table
  {
    NamesDiffer();
  }

  /** On a broker without incompatible queues, the work queues dead-letter into our exchange. */
  lemma WorkQueuesDeadLetter(t: Topology, queue: string)
    requires Compatible(t) && queue in WORK_QUEUES
    ensures var t' := Declared(t);
            && queue in t'.queues && DLX_ARGUMENT in t'.queues[queue].table
            && t'.queues[queue].table[DLX_ARGUMENT] == DLX_EXCHANGE
            && EXCHANGE in t'.exchanges && t'.exchanges[EXCHANGE].kind == "direct"
            && DLX_EXCHANGE in t'.exchanges && t'.exchanges[DLX_EXCHANGE].kind == "direct"
  {
    NamesDiffer();
  }
}
