/** Calls to the shared stores. A call takes effect at one moment or not at all, and the caller
    may learn less than what happened. */
module Calls {
  import opened Avatars
  import opened KeyLayout

  /** LostReply: the effect took place, the caller sees an error. Failure: no effect. */
  datatype Outcome = Success | LostReply | Failure

  /** One call: what became of it and the database clock when it ran. */
  datatype Call = Call(outcome: Outcome, now: nat)

  /** What the caller sees. NotFound is avatar.ErrNotFound, Fault any other error. */
  datatype Reply<+T> = Ok(value: T) | NotFound | Fault

  predicate Applied(c: Call) {
    c.outcome != Failure
  }

  type Table = map<Id, Avatar>
  type Objects = map<Key, Data>

  /** The two stores without a common transaction. */
  datatype World = World(table: Table, objects: Objects)

  const FAULT_FREE := Call(Success, 0)

  /** The outside world: what becomes of each call, in the order the calls are made. */
  class Network {
    const fate: nat -> Call
    var used: nat

    constructor (fate: nat -> Call)
      ensures this.fate == fate && used == 0
    {
      this.fate := fate;
      used := 0;
    }

    method Next() returns (c: Call)
      modifies this
      ensures c == fate(old(used)) && used == old(used) + 1
    {
      c := fate(used);
      used := used + 1;
    }

    /** One call was made since the network had served `since`. */
    ghost predicate One(since: nat, c: Call)
      reads this
    {
      used == since + 1 && c == fate(since)
    }

    /** `calls` are all the calls made since then. */
    ghost predicate Made(since: nat, calls: seq<Call>)
      reads this
    {
      used == since + |calls| && Follows(fate, since, calls)
    }
  }

  ghost predicate Follows(fate: nat -> Call, since: nat, calls: seq<Call>) {
    forall i | 0 <= i < |calls| :: calls[i] == fate(since + i)
  }

  lemma FollowsSnoc(fate: nat -> Call, since: nat, calls: seq<Call>, c: Call)
    requires Follows(fate, since, calls) && c == fate(since + |calls|)
    ensures Follows(fate, since, calls + [c])
  {
  }

  lemma FollowsConcat(fate: nat -> Call, since: nat, a: seq<Call>, b: seq<Call>)
    requires Follows(fate, since, a) && Follows(fate, since + |a|, b)
    ensures Follows(fate, since, a + b)
  {
    forall i | 0 <= i < |a + b|
      ensures (a + b)[i] == fate(since + i)
    {
      if i >= |a| {
        assert b[i - |a|] == fate(since + |a| + (i - |a|));
      }
    }
  }
}
