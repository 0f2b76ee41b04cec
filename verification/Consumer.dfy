/** The retry cycle of one delivery and the loop over one queue. The world enters as a script:
    what each handler call returns, whether the context is cancelled each time it is consulted,
    and which ready branch a select takes. */
module Consumer {
  import opened Wrappers
  import Processor

  type Backoff = seq<nat>

  // ---------------------------------------------------------------------------------------
  // The decisions
  // ---------------------------------------------------------------------------------------

  datatype Settlement = Ack | Requeue | DeadLetter

  /** withRetry returns instead of waiting for another attempt. */
  predicate StopsRetrying(backoff: Backoff, attempt: nat, ok: bool, cancelled: bool) {
    ok || attempt >= |backoff| || cancelled
  }

  /** What process does with the result of withRetry. */
  function Settle(ok: bool, cancelled: bool): Settlement {
    if ok then Ack else if cancelled then Requeue else DeadLetter
  }

  // ---------------------------------------------------------------------------------------
  // One delivery
  // ---------------------------------------------------------------------------------------

  /** One attempt. `observed` is what the event handler recorded, None when the body did not
      decode and the handler was not reached. */
  datatype Result = Result(ok: bool, observed: Option<Processor.Observed>)

  /** `handler(i)` is the result of attempt i. The context is consulted after attempt i, in the
      select of wait i, and at the end (`settling`); `timerWins(i)` resolves wait i when both
      branches are ready. */
  datatype Script = Script(
    decodes: bool,
    handler: nat -> Result,
    afterAttempt: nat -> bool,
    duringWait: nat -> bool,
    timerWins: nat -> bool,
    settling: bool)

  /** An event handler that is reached observes once; an undecodable body is always an error. */
  ghost predicate Faithful(sc: Script) {
    forall i: nat :: if sc.decodes then sc.handler(i).observed.Some? else sc.handler(i) == Result(false, None)
  }

  /** A cancelled context stays cancelled. */
  ghost predicate Monotone(sc: Script) {
    && (forall i: nat :: sc.afterAttempt(i) ==> sc.duringWait(i))
    && (forall i: nat :: sc.duringWait(i) ==> sc.afterAttempt(i + 1) && sc.settling)
  }

  ghost predicate NeverCancelled(sc: Script) {
    && (forall i: nat :: !sc.afterAttempt(i) && !sc.duringWait(i))
    && !sc.settling
  }

  /** What process does, in order. DeadCallback is the `dead` argument being called. */
  datatype Action =
    | Attempted(result: Result)
    | Waited(duration: nat)
    | DeadCallback(reached: bool)
    | Settled(how: Settlement)

  predicate Interrupted(sc: Script, i: nat) {
    sc.duringWait(i) && !sc.timerWins(i)
  }

  /** The attempts from `i` on: whether the last one succeeded, and what was done. */
  function RetryFrom(backoff: Backoff, sc: Script, i: nat): (bool, seq<Action>)
    requires i <= |backoff|
    decreases |backoff| - i
  {
    var r := sc.handler(i);
    if StopsRetrying(backoff, i, r.ok, sc.afterAttempt(i)) then (r.ok, [Attempted(r)])
    else if Interrupted(sc, i) then (false, [Attempted(r)])
    else
      var (ok, rest) := RetryFrom(backoff, sc, i + 1);
      (ok, [Attempted(r), Waited(backoff[i])] + rest)
  }

  /** The attempts stop at `last`, the first one that succeeds, runs out of schedule, or meets a
      cancelled context. */
  ghost predicate StopsAt(backoff: Backoff, sc: Script, i: nat, last: nat)
    requires i <= last <= |backoff|
  {
    && (StopsRetrying(backoff, last, sc.handler(last).ok, sc.afterAttempt(last)) || Interrupted(sc, last))
    && forall k | i <= k < last :: GoesOn(backoff, sc, k)
  }

  /** Attempt k failed and its wait was waited out. */
  predicate GoesOn(backoff: Backoff, sc: Script, k: nat) {
    !StopsRetrying(backoff, k, sc.handler(k).ok, sc.afterAttempt(k)) && !Interrupted(sc, k)
  }

  /** What n failed attempts with their waits leave in the journal. */
  function Passed(backoff: Backoff, sc: Script, n: nat): seq<Action>
    requires n <= |backoff|
  {
    if n == 0 then [] else Passed(backoff, sc, n - 1) + [Attempted(sc.handler(n - 1)), Waited(backoff[n - 1])]
  }

  /** The recursion and the loop tell the same story: all attempts but the last with their waits,
      then the last one. */
  lemma {:induction false} RetryTrace(backoff: Backoff, sc: Script, i: nat, last: nat)
    requires i <= last <= |backoff| && StopsAt(backoff, sc, i, last)
    ensures RetryFrom(backoff, sc, i).0 == sc.handler(last).ok
    ensures Passed(backoff, sc, i) + RetryFrom(backoff, sc, i).1
            == Passed(backoff, sc, last) + [Attempted(sc.handler(last))]
    decreases last - i
  {
    if i < last {
      assert GoesOn(backoff, sc, i);
      RetryTrace(backoff, sc, i + 1, last);
      var rest := RetryFrom(backoff, sc, i + 1).1;
      assert Passed(backoff, sc, i) + ([Attempted(sc.handler(i)), Waited(backoff[i])] + rest)
          == Passed(backoff, sc, i + 1) + rest;
    }
  }

  lemma RetryEnds(backoff: Backoff, sc: Script, last: nat)
    requires last <= |backoff| && StopsAt(backoff, sc, 0, last)
    ensures RetryFrom(backoff, sc, 0) == (sc.handler(last).ok, Passed(backoff, sc, last) + [Attempted(sc.handler(last))])
  {
    RetryTrace(backoff, sc, 0, last);
    assert [] + RetryFrom(backoff, sc, 0).1 == RetryFrom(backoff, sc, 0).1;
  }

  function SettleActions(sc: Script, ok: bool, hasDead: bool): seq<Action> {
    match Settle(ok, sc.settling)
    case DeadLetter => (if hasDead then [DeadCallback(sc.decodes)] else []) + [Settled(DeadLetter)]
    case how => [Settled(how)]
  }

  function ProcessActions(backoff: Backoff, sc: Script, hasDead: bool): seq<Action> {
    var (ok, attempts) := RetryFrom(backoff, sc, 0);
    attempts + SettleActions(sc, ok, hasDead)
  }

  lemma Regrouped<T>(a: seq<T>, b: seq<T>, c: seq<T>)
    ensures a + b + c == a + (b + c)
  {
  }

  class Consumer {
    const backoff: Backoff
    var journal: seq<Action>

    constructor (backoff: Backoff)
      ensures this.backoff == backoff && journal == []
    {
      this.backoff := backoff;
      journal := [];
    }

    method WithRetry(sc: Script) returns (ok: bool)
      modifies this
      ensures (ok, journal) == var (ok', done) := RetryFrom(backoff, sc, 0); (ok', old(journal) + done)
    {
      var attempt := 0;
      while true
        invariant 0 <= attempt <= |backoff| && journal == old(journal) + Passed(backoff, sc, attempt)
        invariant forall k | 0 <= k < attempt :: GoesOn(backoff, sc, k)
        decreases |backoff| - attempt
      {
        var r := sc.handler(attempt);
        journal := journal + [Attempted(r)];
        if r.ok || attempt >= |backoff| || sc.afterAttempt(attempt) {
          RetryEnds(backoff, sc, attempt);
          assert journal == old(journal) + (Passed(backoff, sc, attempt) + [Attempted(r)]);
          return r.ok;
        }
        if sc.duringWait(attempt) && !sc.timerWins(attempt) {
          RetryEnds(backoff, sc, attempt);
          assert journal == old(journal) + (Passed(backoff, sc, attempt) + [Attempted(r)]);
          return false;
        }
        journal := journal + [Waited(backoff[attempt])];
        attempt := attempt + 1;
        assert Passed(backoff, sc, attempt)
            == Passed(backoff, sc, attempt - 1) + [Attempted(r)] + [Waited(backoff[attempt - 1])];
      }
    }

    method Process(sc: Script, hasDead: bool)
      modifies this
      ensures journal == old(journal) + ProcessActions(backoff, sc, hasDead)
    {
      var ok := WithRetry(sc);
      if ok {
        journal := journal + [Settled(Ack)];
        return;
      }
      if sc.settling {
        journal := journal + [Settled(Requeue)];
        return;
      }
      if hasDead {
        journal := journal + [DeadCallback(sc.decodes)];
      }
      journal := journal + [Settled(DeadLetter)];
    }

    /** Runs over the select outcomes `turns`; None means the loop is still going when they
        are used up. */
    method Loop(turns: seq<Turn>, hasDead: bool) returns (end: Option<LoopEnd>)
      modifies this
      ensures end == LoopResult(turns)
      ensures end == Some(ReturnsNil) ==> exists i :: 0 <= i < |turns| && turns[i] == ChannelClosed(true)
      ensures end == Some(ReturnsClosedError) ==> exists i :: 0 <= i < |turns| && turns[i] == ChannelClosed(false)
      ensures end == Some(ReturnsCanceled) ==> exists i :: 0 <= i < |turns| && turns[i] == ContextDone
      ensures journal == old(journal) + LoopActions(backoff, Taken(turns), hasDead)
    {
      var i := 0;
      while i < |turns|
        invariant 0 <= i <= |turns| && forall k | 0 <= k < i :: turns[k].Delivered?
        invariant journal == old(journal) + LoopActions(backoff, Taken(turns[..i]), hasDead)
      {
        match turns[i]
        case ContextDone =>
          TakenStops(turns, i);
          LoopReturns(turns, i);
          return Some(ReturnsCanceled);
        case ChannelClosed(cancelled) =>
          TakenStops(turns, i);
          LoopReturns(turns, i);
          return Some(if cancelled then ReturnsNil else ReturnsClosedError);
        case Delivered(sc) =>
          Process(sc, hasDead);
          Regrouped(old(journal), LoopActions(backoff, Taken(turns[..i]), hasDead), ProcessActions(backoff, sc, hasDead));
          TakenStep(turns, i);
          LoopActionsSnoc(backoff, Taken(turns[..i]), sc, hasDead);
          i := i + 1;
      }
      TakenStops(turns, i);
      assert turns[..i] == turns;
      end := None;
    }
  }

  // ---------------------------------------------------------------------------------------
  // The loop
  // ---------------------------------------------------------------------------------------

  /** One select of the loop. `cancelled` is what ctx.Err() says after the channel closed. */
  datatype Turn = ContextDone | ChannelClosed(cancelled: bool) | Delivered(script: Script)

  datatype LoopEnd = ReturnsCanceled | ReturnsNil | ReturnsClosedError

  function LoopResult(turns: seq<Turn>): Option<LoopEnd> {
    if turns == [] then None
    else
      match turns[0]
      case ContextDone => Some(ReturnsCanceled)
      case ChannelClosed(cancelled) => Some(if cancelled then ReturnsNil else ReturnsClosedError)
      case Delivered(_) => LoopResult(turns[1..])
  }

  /** The loop goes on exactly as long as it gets deliveries; it returns nil exactly when the channel
      closed under a cancelled context, its own error when it closed under a live one, and the
      context's error when the context was done. */
  lemma {:induction false} LoopReturns(turns: seq<Turn>, i: nat)
    requires i < |turns| && !turns[i].Delivered? && forall k | 0 <= k < i :: turns[k].Delivered?
    ensures LoopResult(turns).Some?
    ensures LoopResult(turns) == Some(ReturnsNil) <==> turns[i] == ChannelClosed(true)
    ensures LoopResult(turns) == Some(ReturnsClosedError) <==> turns[i] == ChannelClosed(false)
    ensures LoopResult(turns) == Some(ReturnsCanceled) <==> turns[i] == ContextDone
  {
    if i > 0 {
      LoopReturns(turns[1..], i - 1);
    }
  }

  /** The deliveries the loop takes before it returns. */
  function Taken(turns: seq<Turn>): seq<Script> {
    if turns == [] || !turns[0].Delivered? then [] else [turns[0].script] + Taken(turns[1..])
  }

  lemma {:induction false} TakenStops(turns: seq<Turn>, i: nat)
    requires i <= |turns| && (forall k | 0 <= k < i :: turns[k].Delivered?)
    requires i < |turns| ==> !turns[i].Delivered?
    ensures Taken(turns) == Taken(turns[..i])
    ensures LoopResult(turns) == if i == |turns| then None else LoopResult([turns[i]])
  {
    if i > 0 {
      assert turns[..i][1..] == turns[1..][..i - 1];
      TakenStops(turns[1..], i - 1);
    }
  }

  lemma {:induction false} TakenStep(turns: seq<Turn>, i: nat)
    requires i < |turns| && forall k | 0 <= k <= i :: turns[k].Delivered?
    ensures Taken(turns[..i + 1]) == Taken(turns[..i]) + [turns[i].script]
  {
    if i > 0 {
      assert turns[..i + 1][1..] == turns[1..][..i] && turns[..i][1..] == turns[1..][..i - 1];
      TakenStep(turns[1..], i - 1);
    } else {
      assert turns[..1] == [turns[0]] && [turns[0]][1..] == [];
    }
  }

  function LoopActions(backoff: Backoff, taken: seq<Script>, hasDead: bool): seq<Action> {
    if taken == [] then []
    else ProcessActions(backoff, taken[0], hasDead) + LoopActions(backoff, taken[1..], hasDead)
  }

  lemma {:induction false} LoopActionsSnoc(backoff: Backoff, taken: seq<Script>, sc: Script, hasDead: bool)
    ensures LoopActions(backoff, taken + [sc], hasDead) ==
            LoopActions(backoff, taken, hasDead) + ProcessActions(backoff, sc, hasDead)
  {
    if taken == [] {
      assert ([sc])[1..] == [];
      assert taken + [sc] == [sc];
    } else {
      assert (taken + [sc])[1..] == taken[1..] + [sc];
      LoopActionsSnoc(backoff, taken[1..], sc, hasDead);
    }
  }

  // ---------------------------------------------------------------------------------------
  // Measures of a journal
  // ---------------------------------------------------------------------------------------

  /** What the actions of a journal weigh together. */
  function Total(js: seq<Action>, weight: Action -> nat): nat {
    if js == [] then 0 else weight(js[0]) + Total(js[1..], weight)
  }

  function Attempts(js: seq<Action>): nat {
    Total(js, (a: Action) => if a.Attempted? then 1 else 0)
  }

  function TotalWait(js: seq<Action>): nat {
    Total(js, (a: Action) => if a.Waited? then a.duration else 0)
  }

  function DeadCallbacks(js: seq<Action>): nat {
    Total(js, (a: Action) => if a.DeadCallback? then 1 else 0)
  }

  /** Processing observations with one status. */
  function Observations(js: seq<Action>, status: Processor.Observed): nat {
    Total(js, (a: Action) => if a.Attempted? && a.result.observed == Some(status) then 1 else 0)
  }

  /** The settlements issued, in order. */
  function Settlements(js: seq<Action>): seq<Settlement> {
    if js == [] then [] else (if js[0].Settled? then [js[0].how] else []) + Settlements(js[1..])
  }

  function AllObservations(js: seq<Action>): nat {
    Observations(js, Processor.ObservedOK) + Observations(js, Processor.ObservedError)
    + Observations(js, Processor.ObservedSkipped)
  }

  function Sum(s: seq<nat>): nat {
    if s == [] then 0 else s[0] + Sum(s[1..])
  }

  lemma {:induction false} TotalOfConcat(a: seq<Action>, b: seq<Action>, weight: Action -> nat)
    ensures Total(a + b, weight) == Total(a, weight) + Total(b, weight)
  {
    if a == [] {
      assert a + b == b;
    } else {
      assert (a + b)[0] == a[0] && (a + b)[1..] == a[1..] + b;
      TotalOfConcat(a[1..], b, weight);
    }
  }

  lemma {:induction false} SettlementsOfConcat(a: seq<Action>, b: seq<Action>)
    ensures Settlements(a + b) == Settlements(a) + Settlements(b)
  {
    if a == [] {
      assert a + b == b;
    } else {
      assert (a + b)[0] == a[0] && (a + b)[1..] == a[1..] + b;
      SettlementsOfConcat(a[1..], b);
    }
  }

  lemma MeasuresOfConcat(a: seq<Action>, b: seq<Action>)
    ensures Attempts(a + b) == Attempts(a) + Attempts(b)
    ensures TotalWait(a + b) == TotalWait(a) + TotalWait(b)
    ensures DeadCallbacks(a + b) == DeadCallbacks(a) + DeadCallbacks(b)
    ensures Settlements(a + b) == Settlements(a) + Settlements(b)
    ensures forall st :: Observations(a + b, st) == Observations(a, st) + Observations(b, st)
  {
    SettlementsOfConcat(a, b);
    forall weight: Action -> nat
      ensures Total(a + b, weight) == Total(a, weight) + Total(b, weight)
    {
      TotalOfConcat(a, b, weight);
    }
  }

  lemma MeasuresOfOne(a: Action)
    ensures Attempts([a]) == (if a.Attempted? then 1 else 0)
    ensures TotalWait([a]) == (if a.Waited? then a.duration else 0)
    ensures DeadCallbacks([a]) == (if a.DeadCallback? then 1 else 0)
    ensures Settlements([a]) == (if a.Settled? then [a.how] else [])
    ensures forall st :: Observations([a], st) == (if a.Attempted? && a.result.observed == Some(st) then 1 else 0)
  {
    assert [a][1..] == [];
    forall weight: Action -> nat
      ensures Total([a], weight) == weight(a)
    {
      TotalOfOne(a, weight);
    }
  }

  lemma TotalOfOne(a: Action, weight: Action -> nat)
    ensures Total([a], weight) == weight(a)
  {
    assert [a][1..] == [];
  }

  lemma MeasuresOfTwo(a: Action, b: Action)
    ensures var js := [a, b];
            && Attempts(js) == Attempts([a]) + Attempts([b])
            && TotalWait(js) == TotalWait([a]) + TotalWait([b])
            && DeadCallbacks(js) == DeadCallbacks([a]) + DeadCallbacks([b])
            && Settlements(js) == Settlements([a]) + Settlements([b])
            && forall st :: Observations(js, st) == Observations([a], st) + Observations([b], st)
  {
    assert [a, b] == [a] + [b];
    MeasuresOfConcat([a], [b]);
  }

  // ---------------------------------------------------------------------------------------
  // What one delivery amounts to
  // ---------------------------------------------------------------------------------------

  lemma {:induction false} RetryStops(backoff: Backoff, sc: Script, i: nat) returns (last: nat)
    requires i <= |backoff|
    ensures i <= last <= |backoff| && StopsAt(backoff, sc, i, last)
    ensures var (ok, js) := RetryFrom(backoff, sc, i);
            && ok == sc.handler(last).ok
            && Attempts(js) == last - i + 1
            && TotalWait(js) == Sum(backoff[i..last])
            && DeadCallbacks(js) == 0 && Settlements(js) == []
    decreases |backoff| - i
  {
    var r := sc.handler(i);
    if StopsRetrying(backoff, i, r.ok, sc.afterAttempt(i)) || Interrupted(sc, i) {
      last := i;
      MeasuresOfOne(Attempted(r));
      assert backoff[i..i] == [];
    } else {
      last := RetryStops(backoff, sc, i + 1);
      var head := [Attempted(r), Waited(backoff[i])];
      MeasuresOfOne(Attempted(r));
      MeasuresOfOne(Waited(backoff[i]));
      MeasuresOfTwo(Attempted(r), Waited(backoff[i]));
      MeasuresOfConcat(head, RetryFrom(backoff, sc, i + 1).1);
      assert backoff[i..last][1..] == backoff[i + 1..last];
    }
  }

  lemma SettleMeasures(sc: Script, ok: bool, hasDead: bool)
    ensures var js := SettleActions(sc, ok, hasDead);
            && Attempts(js) == 0 && TotalWait(js) == 0
            && Settlements(js) == [Settle(ok, sc.settling)]
            && js[|js| - 1] == Settled(Settle(ok, sc.settling))
            && DeadCallbacks(js) == (if hasDead && Settle(ok, sc.settling).DeadLetter? then 1 else 0)
            && (DeadCallbacks(js) == 1 ==> js == [DeadCallback(sc.decodes), Settled(DeadLetter)])
            && forall st :: Observations(js, st) == 0
  {
    var how := Settled(Settle(ok, sc.settling));
    MeasuresOfOne(how);
    if hasDead && how.how.DeadLetter? {
      MeasuresOfOne(DeadCallback(sc.decodes));
      MeasuresOfTwo(DeadCallback(sc.decodes), how);
      assert SettleActions(sc, ok, hasDead) == [DeadCallback(sc.decodes), how];
    } else {
      assert SettleActions(sc, ok, hasDead) == [how];
    }
  }

  /** In every case: one settlement, as the last action, after 1 to |backoff|+1 attempts; `dead`
      is called once, right before a dead-letter nack and never otherwise; and which settlement
      it is depends on the last attempt and the context alone. */
  lemma ProcessSettlesOnce(backoff: Backoff, sc: Script, hasDead: bool) returns (last: nat)
    ensures last <= |backoff| && StopsAt(backoff, sc, 0, last)
    ensures var js := ProcessActions(backoff, sc, hasDead);
            var how := Settle(sc.handler(last).ok, sc.settling);
            && Attempts(js) == last + 1
            && TotalWait(js) == Sum(backoff[..last])
            && Settlements(js) == [how] && js[|js| - 1] == Settled(how)
            && DeadCallbacks(js) == (if hasDead && how.DeadLetter? then 1 else 0)
            && (DeadCallbacks(js) == 1 ==> |js| >= 2 && js[|js| - 2] == DeadCallback(sc.decodes))
  {
    last := RetryStops(backoff, sc, 0);
    var (ok, js) := RetryFrom(backoff, sc, 0);
    SettleMeasures(sc, ok, hasDead);
    MeasuresOfConcat(js, SettleActions(sc, ok, hasDead));
    assert backoff[0..last] == backoff[..last];
  }

  /** A message is buried exactly when its whole schedule was used up by failures and the
      context is still live at the end. */
  lemma BuriedIff(backoff: Backoff, sc: Script, hasDead: bool)
    requires Monotone(sc)
    ensures Settlements(ProcessActions(backoff, sc, hasDead)) == [DeadLetter] <==>
            !sc.settling && forall k | 0 <= k <= |backoff| :: !sc.handler(k).ok
  {
    var last := ProcessSettlesOnce(backoff, sc, hasDead);
    if !sc.settling {
      assert !sc.duringWait(last) && !sc.afterAttempt(last);
      if last < |backoff| {
        assert sc.handler(last).ok;
      } else {
        forall k | 0 <= k < last
          ensures !sc.handler(k).ok
        {
          assert GoesOn(backoff, sc, k);
        }
      }
    }
  }

  /** A context that is cancelled after an attempt, or wins its wait, ends the attempts there; and a
      delivery that failed under a cancelled context goes back to its queue. */
  lemma CancellationEnds(backoff: Backoff, sc: Script, hasDead: bool, i: nat)
    requires i <= |backoff| && (sc.afterAttempt(i) || Interrupted(sc, i))
    ensures Attempts(ProcessActions(backoff, sc, hasDead)) <= i + 1
    ensures sc.settling && (forall k | 0 <= k <= i :: !sc.handler(k).ok) ==>
              Settlements(ProcessActions(backoff, sc, hasDead)) == [Requeue]
  {
    var last := ProcessSettlesOnce(backoff, sc, hasDead);
    assert !GoesOn(backoff, sc, i);
  }

  /** Without cancellation the handler is called min(first success, |backoff|) + 1 times, the
      waits between the calls are the schedule up to there, and the message is acked or buried. */
  lemma ProcessWithoutCancellation(backoff: Backoff, sc: Script, hasDead: bool, last: nat)
    requires NeverCancelled(sc)
    requires last <= |backoff| && (last < |backoff| ==> sc.handler(last).ok)
    requires forall k | 0 <= k < last :: !sc.handler(k).ok
    ensures var js := ProcessActions(backoff, sc, hasDead);
            && Attempts(js) == last + 1
            && TotalWait(js) == Sum(backoff[..last])
            && Settlements(js) == [if sc.handler(last).ok then Ack else DeadLetter]
  {
    var last' := ProcessSettlesOnce(backoff, sc, hasDead);
    assert forall k: nat :: !sc.afterAttempt(k) && !sc.duringWait(k);
    assert GoesOn(backoff, sc, last) <==> last < |backoff| && !sc.handler(last).ok;
    assert last' == last;
  }

  // ---------------------------------------------------------------------------------------
  // What a loop amounts to
  // ---------------------------------------------------------------------------------------

  lemma {:induction false} RetryObserves(backoff: Backoff, sc: Script, i: nat)
    requires Faithful(sc) && sc.decodes && i <= |backoff|
    ensures var js := RetryFrom(backoff, sc, i).1; Attempts(js) == AllObservations(js)
    decreases |backoff| - i
  {
    var r := sc.handler(i);
    MeasuresOfOne(Attempted(r));
    assert r.observed.Some?;
    assert r.observed.value.ObservedOK? || r.observed.value.ObservedError? || r.observed.value.ObservedSkipped?;
    if !StopsRetrying(backoff, i, r.ok, sc.afterAttempt(i)) && !Interrupted(sc, i) {
      RetryObserves(backoff, sc, i + 1);
      MeasuresOfOne(Waited(backoff[i]));
      MeasuresOfTwo(Attempted(r), Waited(backoff[i]));
      MeasuresOfConcat([Attempted(r), Waited(backoff[i])], RetryFrom(backoff, sc, i + 1).1);
    }
  }

  /** After n deliveries: n settlements, the i-th being that of the i-th delivery. */
  lemma {:induction false} LoopSettles(backoff: Backoff, taken: seq<Script>, hasDead: bool)
    ensures var ss := Settlements(LoopActions(backoff, taken, hasDead));
            && |ss| == |taken|
            && forall i | 0 <= i < |taken| :: [ss[i]] == Settlements(ProcessActions(backoff, taken[i], hasDead))
  {
    if taken != [] {
      var rest := taken[1..];
      LoopSettles(backoff, rest, hasDead);
      var head, tail := ProcessActions(backoff, taken[0], hasDead), LoopActions(backoff, rest, hasDead);
      MeasuresOfConcat(head, tail);
      var last := ProcessSettlesOnce(backoff, taken[0], hasDead);
      forall i | 0 < i < |taken|
        ensures [Settlements(head + tail)[i]] == Settlements(ProcessActions(backoff, taken[i], hasDead))
      {
        assert rest[i - 1] == taken[i];
      }
    }
  }

  lemma TimesSucc(n: nat, k: nat)
    ensures (n + 1) * k == n * k + k
  {
  }

  /** ... and between n and n*(|backoff|+1) attempts. */
  lemma {:induction false} LoopAttempts(backoff: Backoff, taken: seq<Script>, hasDead: bool)
    ensures |taken| <= Attempts(LoopActions(backoff, taken, hasDead)) <= |taken| * (|backoff| + 1)
  {
    if taken != [] {
      LoopAttempts(backoff, taken[1..], hasDead);
      MeasuresOfConcat(ProcessActions(backoff, taken[0], hasDead), LoopActions(backoff, taken[1..], hasDead));
      var last := ProcessSettlesOnce(backoff, taken[0], hasDead);
      TimesSucc(|taken| - 1, |backoff| + 1);
    }
  }

  /** For bodies that decode, every handler call is observed exactly once. */
  lemma {:induction false} LoopObserves(backoff: Backoff, taken: seq<Script>, hasDead: bool)
    requires forall i | 0 <= i < |taken| :: taken[i].decodes && Faithful(taken[i])
    ensures var js := LoopActions(backoff, taken, hasDead); Attempts(js) == AllObservations(js)
  {
    if taken != [] {
      LoopObserves(backoff, taken[1..], hasDead);
      RetryObserves(backoff, taken[0], 0);
      var (ok, js) := RetryFrom(backoff, taken[0], 0);
      SettleMeasures(taken[0], ok, hasDead);
      MeasuresOfConcat(js, SettleActions(taken[0], ok, hasDead));
      MeasuresOfConcat(ProcessActions(backoff, taken[0], hasDead), LoopActions(backoff, taken[1..], hasDead));
    }
  }
}
