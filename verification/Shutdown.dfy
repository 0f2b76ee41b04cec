/** The three goroutines of Run under every schedule: two loops, the closer, and the error group
    whose derived context is cancelled by the caller's context or by the first error. What a goroutine
    decides and when the group takes note of it are steps of their own. Both consume calls have
    succeeded. */
module Shutdown {
  import opened Wrappers
  import C = Consumer

  /** ErrDelivery is the loop's own "delivery channel closed"; ErrOther any other close error. */
  datatype Err = Canceled | ErrClosed | ErrDelivery | ErrOther

  /** A loop selects, processes a delivery, or has received from a closed channel. Then its function
      has decided what to return, and last the group has taken note of that. */
  datatype LoopPc = Selecting | Processing | SawClosed | LoopDecided(decision: Option<Err>) | LoopReturned

  datatype CloserPc = AwaitingDone | CloserDecided(answer: Option<Err>) | CloserReturned(result: Option<Err>)

  /** `closedEarly`: some delivery channel closed before the context was cancelled. */
  datatype State = State(
    cancelled: bool,
    closed: seq<bool>,
    loops: seq<LoopPc>,
    closer: CloserPc,
    firstErr: Option<Err>,
    closedEarly: bool)

  const INITIAL := State(false, [false, false], [Selecting, Selecting], AwaitingDone, None, false)

  datatype Event =
    | CancelContext
    | ChannelCloses(i: nat)
    | TakesDone(i: nat)
    | TakesDelivery(i: nat)
    | ProcessReturns(i: nat)
    | ReceivesClosed(i: nat)
    | ChecksContext(i: nat)
    | LoopRecords(i: nat)
    | Closes(closeErr: Option<Err>)
    | CloserRecords

  /** The group's context is done. */
  predicate Done(s: State) {
    s.cancelled || s.firstErr.Some?
  }

  /** The group keeps the first error only. */
  function Keep(s: State, err: Option<Err>): Option<Err> {
    if s.firstErr.Some? then s.firstErr else err
  }

  predicate Enabled(s: State, e: Event) {
    |s.loops| == 2 && |s.closed| == 2 &&
    match e
    case CancelContext => true
    case ChannelCloses(i) => i < 2
    case TakesDone(i) => i < 2 && s.loops[i].Selecting? && Done(s)
    case TakesDelivery(i) => i < 2 && s.loops[i].Selecting?
    case ProcessReturns(i) => i < 2 && s.loops[i].Processing?
    case ReceivesClosed(i) => i < 2 && s.loops[i].Selecting? && s.closed[i]
    case ChecksContext(i) => i < 2 && s.loops[i].SawClosed?
    case LoopRecords(i) => i < 2 && s.loops[i].LoopDecided?
    case CloserRecords => s.closer.CloserDecided?
    case Closes(err) => s.closer.AwaitingDone? && Done(s) && err != Some(Canceled) && err != Some(ErrDelivery)
  }

  /** What loop returns to the group. */
  function Returned(end: C.LoopEnd): Option<Err> {
    match end
    case ReturnsCanceled => Some(Canceled)
    case ReturnsNil => None
    case ReturnsClosedError => Some(ErrDelivery)
  }

  /** The answer of a loop that sees this select outcome: that of Consumer's loop. */
  function LoopAnswer(turn: C.Turn): Option<Err>
    requires !turn.Delivered?
  {
    Returned(C.LoopResult([turn]).value)
  }

  function Apply(s: State, e: Event): State
    requires Enabled(s, e)
  {
    match e
    case CancelContext => s.(cancelled := true)
    case ChannelCloses(i) => s.(closed := s.closed[i := true], closedEarly := s.closedEarly || !s.cancelled)
    case TakesDone(i) => s.(loops := s.loops[i := LoopDecided(LoopAnswer(C.ContextDone))])
    case TakesDelivery(i) => s.(loops := s.loops[i := Processing])
    case ProcessReturns(i) => s.(loops := s.loops[i := Selecting])
    case ReceivesClosed(i) => s.(loops := s.loops[i := SawClosed])
    case ChecksContext(i) => s.(loops := s.loops[i := LoopDecided(LoopAnswer(C.ChannelClosed(Done(s))))])
    case LoopRecords(i) => s.(loops := s.loops[i := LoopReturned], firstErr := Keep(s, s.loops[i].decision))
    case Closes(err) => s.(closer := CloserDecided(err))
    case CloserRecords => s.(closer := CloserReturned(s.closer.answer), firstErr := Keep(s, s.closer.answer))
  }

  ghost predicate Run(s: State, es: seq<Event>, s': State)
    decreases es
  {
    if es == [] then s' == s else Enabled(s, es[0]) && Run(Apply(s, es[0]), es[1..], s')
  }

  /** All three goroutines returned: g.Wait returns. */
  predicate Finished(s: State) {
    |s.loops| == 2 && s.loops[0].LoopReturned? && s.loops[1].LoopReturned? && s.closer.CloserReturned?
  }

  /** What Run answers: cancellation and a closed connection are no errors. */
  function RunResult(s: State): Option<Err> {
    match s.firstErr
    case Some(Canceled) => None
    case Some(ErrClosed) => None
    case err => err
  }

  /** What a loop decided has a reason: a done context, or a channel that closed too early. */
  predicate DecisionOk(s: State, pc: LoopPc) {
    match pc
    case LoopDecided(Some(err)) => if err.ErrDelivery? then s.closedEarly else err.Canceled? && Done(s)
    case LoopDecided(None) => Done(s)
    case LoopReturned => Done(s)
    case _ => true
  }

  /** A loop that saw its channel closed, or any loop's own error, points back at a channel that
      closed; without cancellation the first error is always a loop's own; and an error group
      that is done without cancellation has an error. */
  ghost predicate Inv(s: State) {
    && |s.loops| == 2 && |s.closed| == 2
    && (forall i | 0 <= i < 2 :: s.loops[i].SawClosed? ==> s.closed[i])
    && (forall i | 0 <= i < 2 :: s.closed[i] ==> s.closedEarly || s.cancelled)
    && (forall i | 0 <= i < 2 :: DecisionOk(s, s.loops[i]))
    && (s.firstErr == Some(ErrDelivery) ==> s.closedEarly)
    && (!s.cancelled ==> s.firstErr == None || s.firstErr == Some(ErrDelivery))
    && (s.closer.CloserDecided? ==> Done(s) && s.closer.answer != Some(Canceled) && s.closer.answer != Some(ErrDelivery))
    && (s.closer.CloserReturned? ==> Done(s))
    && (s.firstErr == Some(ErrOther) ==> s.closer == CloserReturned(Some(ErrOther)))
  }

  lemma InvStep(s: State, e: Event)
    requires Inv(s) && Enabled(s, e)
    ensures var s' := Apply(s, e); Inv(s') && (s.cancelled ==> s'.cancelled) && (s.closedEarly ==> s'.closedEarly)
  {
  }

  lemma {:induction false} InvRun(s: State, es: seq<Event>, s': State)
    requires Inv(s) && Run(s, es, s')
    ensures Inv(s')
    decreases es
  {
    if es != [] {
      InvStep(s, es[0]);
      InvRun(Apply(s, es[0]), es[1..], s');
    }
  }

  /** If no delivery channel closed before the context was cancelled, and conn.Close answers nil
      or ErrClosed, Run returns nil; the one other way to an error is conn.Close's own. */
  lemma CleanShutdownReturnsNil(es: seq<Event>, s: State)
    requires Run(INITIAL, es, s) && Finished(s) && !s.closedEarly
    requires s.closer.result == None || s.closer.result == Some(ErrClosed)
    ensures s.cancelled && RunResult(s) == None
  {
    InvRun(INITIAL, es, s);
  }

  /** If the context is never cancelled, Run never returns nil. */
  lemma UncancelledRunReportsError(es: seq<Event>, s: State)
    requires Run(INITIAL, es, s) && Finished(s) && !s.cancelled
    ensures RunResult(s) == Some(ErrDelivery)
  {
    InvRun(INITIAL, es, s);
  }

  /** An error from Run is a channel that closed before the cancellation, or a failed Close. */
  lemma ErrorsHaveACause(es: seq<Event>, s: State)
    requires Run(INITIAL, es, s) && Finished(s) && RunResult(s).Some?
    ensures s.closedEarly || s.closer == CloserReturned(Some(ErrOther))
  {
    InvRun(INITIAL, es, s);
  }

  // ---------------------------------------------------------------------------------------
  // Run comes to an end
  // ---------------------------------------------------------------------------------------

  /** A step of the goroutines themselves: no cancellation, no channel closing, no new delivery. */
  predicate OwnStep(e: Event) {
    !e.CancelContext? && !e.ChannelCloses? && !e.TakesDelivery?
  }

  ghost predicate OwnSteps(es: seq<Event>) {
    forall e | e in es :: OwnStep(e)
  }

  function LoopLeft(pc: LoopPc): nat {
    match pc
    case Processing => 4
    case Selecting => 3
    case SawClosed => 2
    case LoopDecided(_) => 1
    case LoopReturned => 0
  }

  function Left(s: State): nat
    requires |s.loops| == 2
  {
    LoopLeft(s.loops[0]) + LoopLeft(s.loops[1]) +
    (match s.closer case AwaitingDone => 2 case CloserDecided(_) => 1 case CloserReturned(_) => 0)
  }

  /** The next step of a loop on its way out. */
  function LoopStep(s: State, i: nat): Event
    requires i < 2 && |s.loops| == 2 && !s.loops[i].LoopReturned?
  {
    match s.loops[i]
    case Processing => ProcessReturns(i)
    case Selecting => if Done(s) then TakesDone(i) else ReceivesClosed(i)
    case SawClosed => ChecksContext(i)
    case LoopDecided(_) => LoopRecords(i)
  }

  function NextStep(s: State): Event
    requires |s.loops| == 2 && !Finished(s)
  {
    if !s.loops[0].LoopReturned? then LoopStep(s, 0)
    else if !s.loops[1].LoopReturned? then LoopStep(s, 1)
    else if s.closer.AwaitingDone? then Closes(None)
    else CloserRecords
  }

  /** Once the group's context is done, nothing keeps the goroutines from returning. */
  lemma {:induction false} DoneFinishes(s: State) returns (es: seq<Event>, s': State)
    requires Inv(s) && Done(s)
    ensures Run(s, es, s') && OwnSteps(es) && Finished(s') && s'.cancelled == s.cancelled
    decreases Left(s)
  {
    if Finished(s) {
      es, s' := [], s;
    } else {
      var e := NextStep(s);
      InvStep(s, e);
      es, s' := DoneFinishes(Apply(s, e));
      assert ([e] + es)[1..] == es;
      es := [e] + es;
    }
  }

  /** A loop whose channel closed comes to an end, which ends the group's context. */
  lemma {:induction false} ClosedBecomesDone(s: State, i: nat) returns (es: seq<Event>, s': State)
    requires Inv(s) && i < 2 && s.closed[i]
    ensures Run(s, es, s') && OwnSteps(es) && Inv(s') && Done(s') && s'.cancelled == s.cancelled
    decreases LoopLeft(s.loops[i])
  {
    if Done(s) {
      es, s' := [], s;
    } else {
      var e := LoopStep(s, i);
      InvStep(s, e);
      es, s' := ClosedBecomesDone(Apply(s, e), i);
      assert ([e] + es)[1..] == es;
      es := [e] + es;
    }
  }

  lemma {:induction false} RunConcat(s: State, es: seq<Event>, s': State, es': seq<Event>, s'': State)
    requires Run(s, es, s') && Run(s', es', s'')
    ensures Run(s, es + es', s'')
    decreases es
  {
    if es == [] {
      assert es + es' == es';
    } else {
      assert (es + es')[1..] == es[1..] + es';
      RunConcat(Apply(s, es[0]), es[1..], s', es', s'');
    }
  }

  /** From every reachable state in which the context is cancelled or a delivery channel is closed, the
      goroutines can all return by their own steps, so Run cannot hang; and when the connection was
      lost without a cancellation, it then reports that. */
  lemma RunCanFinish(es: seq<Event>, s: State) returns (es': seq<Event>, s': State)
    requires Run(INITIAL, es, s) && (s.cancelled || true in s.closed)
    ensures Run(s, es', s') && OwnSteps(es') && Finished(s')
    ensures !s.cancelled ==> RunResult(s') == Some(ErrDelivery)
  {
    InvRun(INITIAL, es, s);
    var es1, s1 := [], s;
    if !Done(s) {
      es1, s1 := ClosedBecomesDone(s, if s.closed[0] then 0 else 1);
    }
    var es2, s2 := DoneFinishes(s1);
    RunConcat(s, es1, s1, es2, s2);
    es', s' := es1 + es2, s2;
    RunConcat(INITIAL, es, s, es', s');
    if !s.cancelled {
      UncancelledRunReportsError(es + es', s');
    }
  }
}
