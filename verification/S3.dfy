/** The object store: what one operation does to the bucket and what its caller sees. */
module S3 {
  import opened Avatars
  import opened Calls
  import opened KeyLayout

  function Put(o: Objects, k: Key, d: Data, c: Call): Objects {
    if Applied(c) then o[k := d] else o
  }

  /** Only an operation on one missing object says not found. */
  function Get(o: Objects, k: Key, c: Call): Reply<Data> {
    if !c.outcome.Success? then Fault else if k in o then Ok(o[k]) else NotFound
  }

  function Delete(o: Objects, k: Key, c: Call): Objects {
    if Applied(c) then o - {k} else o
  }

  /** Put, and Delete even of a missing object, answer success or an error. */
  function WriteReply(c: Call): Reply<()> {
    if c.outcome.Success? then Ok(()) else Fault
  }

  class Store {
    const net: Network
    var objects: Objects

    constructor (net: Network)
      ensures objects == map[] && this.net == net
    {
      this.net := net;
      objects := map[];
    }

    method Write(k: Key, d: Data) returns (r: Reply<()>, ghost c: Call)
      modifies this, net
      ensures net.One(old(net.used), c)
      ensures objects == Put(old(objects), k, d, c) && r == WriteReply(c)
    {
      var call := net.Next();
      c := call;
      if !call.outcome.Failure? {
        objects := objects[k := d];
      }
      r := if call.outcome.Success? then Ok(()) else Fault;
    }

    method Read(k: Key) returns (r: Reply<Data>, ghost c: Call)
      modifies net
      ensures net.One(old(net.used), c)
      ensures r == Get(objects, k, c)
    {
      var call := net.Next();
      c := call;
      if !call.outcome.Success? {
        r := Fault;
      } else if k in objects {
        r := Ok(objects[k]);
      } else {
        r := NotFound;
      }
    }

    method Remove(k: Key) returns (r: Reply<()>, ghost c: Call)
      modifies this, net
      ensures net.One(old(net.used), c)
      ensures objects == Delete(old(objects), k, c) && r == WriteReply(c)
    {
      var call := net.Next();
      c := call;
      if !call.outcome.Failure? {
        objects := map key | key in objects && key != k :: objects[key];
      }
      r := if call.outcome.Success? then Ok(()) else Fault;
    }
  }
}
