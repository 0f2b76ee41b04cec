/** The worker's upload queue with its real handler: retries, settlements, reports and observations
    of the consumer, driven by HandleUpload and UploadFailed over the stores. */
module UploadWorker {
  import opened Wrappers
  import opened Avatars
  import opened Calls
  import opened Consumer
  import opened Convergence
  import P = Processor

  /** A delivery: its body, None when it does not decode, and what the context and the timers do
      while it is processed. */
  datatype Delivery = Delivery(
    body: Option<UploadEvent>,
    afterAttempt: nat -> bool,
    duringWait: nat -> bool,
    timerWins: nat -> bool,
    settling: bool)

  /** The consumer's script for a delivery whose attempts gave `results`. */
  function ScriptOf(d: Delivery, results: seq<Result>): Script {
    Script(d.body.Some?,
           (i: nat) => if i < |results| then results[i] else Result(false, Unobserved(d)),
           d.afterAttempt, d.duringWait, d.timerWins, d.settling)
  }

  function Unobserved(d: Delivery): Option<P.Observed> {
    if d.body.Some? then Some(P.ObservedError) else None
  }

  // ---------------------------------------------------------------------------------------
  // Journals
  // ---------------------------------------------------------------------------------------

  /** What the attempts of a journal observed, in order. */
  function StatusesOf(js: seq<Action>): seq<P.Observed> {
    if js == [] then []
    else
      (if js[0].Attempted? && js[0].result.observed.Some? then [js[0].result.observed.value] else [])
      + StatusesOf(js[1..])
  }

  lemma {:induction false} StatusesOfConcat(a: seq<Action>, b: seq<Action>)
    ensures StatusesOf(a + b) == StatusesOf(a) + StatusesOf(b)
  {
    if a == [] {
      assert a + b == b;
    } else {
      assert (a + b)[1..] == a[1..] + b;
      StatusesOfConcat(a[1..], b);
    }
  }

  lemma StatusesOfOne(a: Action)
    ensures StatusesOf([a]) == if a.Attempted? && a.result.observed.Some? then [a.result.observed.value] else []
  {
    assert [a][1..] == [];
  }

  /** Counting statuses is counting observations. */
  lemma StatusesAreObservations(js: seq<Action>)
    ensures |StatusesOf(js)| == AllObservations(js)
    ensures forall status :: multiset(StatusesOf(js))[status] == Observations(js, status)
  {
    forall status
      ensures multiset(StatusesOf(js))[status] == Observations(js, status)
    {
      StatusIsObserved(js, status);
    }
    ThreeStatuses(StatusesOf(js));
  }

  lemma {:induction false} StatusIsObserved(js: seq<Action>, status: P.Observed)
    ensures multiset(StatusesOf(js))[status] == Observations(js, status)
  {
    if js != [] {
      StatusIsObserved(js[1..], status);
      StatusesOfOne(js[0]);
      StatusesOfConcat([js[0]], js[1..]);
      MeasuresOfOne(js[0]);
      MeasuresOfConcat([js[0]], js[1..]);
      assert [js[0]] + js[1..] == js;
    }
  }

  lemma {:induction false} ThreeStatuses(statuses: seq<P.Observed>)
    ensures var counts := multiset(statuses);
            |statuses| == counts[P.ObservedOK] + counts[P.ObservedError] + counts[P.ObservedSkipped]
  {
    if statuses != [] {
      ThreeStatuses(statuses[1..]);
      assert statuses == [statuses[0]] + statuses[1..];
      assert statuses[0].ObservedOK? || statuses[0].ObservedError? || statuses[0].ObservedSkipped?;
    }
  }

  lemma {:induction false} PassedDependsOn(backoff: Backoff, sc: Script, sc': Script, n: nat)
    requires n <= |backoff| && forall k | 0 <= k < n :: sc.handler(k) == sc'.handler(k)
    ensures Passed(backoff, sc, n) == Passed(backoff, sc', n)
    decreases n
  {
    if n > 0 {
      PassedDependsOn(backoff, sc, sc', n - 1);
    }
  }

  lemma {:induction false} AfterAttemptsSnoc(cfg: Config, ev: UploadEvent, w: World, tries: seq<seq<Call>>, last: seq<Call>)
    ensures AfterAttempts(cfg, ev, w, tries + [last]) ==
            P.UploadRun(cfg, ev, P.ReadRow, AfterAttempts(cfg, ev, w, tries), last).1
    decreases tries
  {
    if tries == [] {
      assert (tries + [last])[1..] == [];
    } else {
      assert (tries + [last])[1..] == tries[1..] + [last];
      AfterAttemptsSnoc(cfg, ev, P.UploadRun(cfg, ev, P.ReadRow, w, tries[0]).1, tries[1..], last);
    }
  }

  /** The stores after the attempts on a delivery. */
  ghost function Worked(cfg: Config, d: Delivery, w: World, tries: seq<seq<Call>>): World {
    if d.body.Some? then AfterAttempts(cfg, d.body.value, w, tries) else w
  }

  /** The calls of all attempts, in order. */
  function Flat(tries: seq<seq<Call>>): seq<Call> {
    if tries == [] then [] else Flat(tries[..|tries| - 1]) + tries[|tries| - 1]
  }

  lemma SnocAt<T>(s: seq<T>, x: T, i: nat)
    requires i <= |s|
    ensures (s + [x])[..i] == s[..i] && (s + [x])[i] == (if i < |s| then s[i] else x)
    ensures i == |s| ==> s[..i] == s
  {
  }

  lemma FlatSnoc(tries: seq<seq<Call>>, last: seq<Call>)
    ensures Flat(tries + [last]) == Flat(tries) + last
  {
    assert (tries + [last])[..|tries|] == tries;
  }

  // ---------------------------------------------------------------------------------------
  // Attempts
  // ---------------------------------------------------------------------------------------

  /** What is observed, what the stores hold, and how many calls the network has served. */
  datatype Told = Told(observed: seq<P.Observed>, w: World, used: nat)

  /** An attempt on the stores w that made exactly `calls`: its result is the end of the handler's
      machine. */
  ghost predicate EndsAs(cfg: Config, d: Delivery, w: World, r: Result, calls: seq<Call>) {
    match d.body
    case None => r == Result(false, None) && calls == []
    case Some(ev) =>
      var pc := P.UploadRun(cfg, ev, P.ReadRow, w, calls).0;
      P.UploadEnds(cfg, ev, P.ReadRow, w, calls) &&
      if r.ok then r.observed.Some? && pc == P.Returned(r.observed.value)
      else pc == P.Errored && r.observed == Some(P.ObservedError)
  }

  /** One attempt leads from `before` to `told`. */
  ghost predicate OneAttempt(cfg: Config, fate: nat -> Call, d: Delivery, before: Told, r: Result, calls: seq<Call>, told: Told) {
    && EndsAs(cfg, d, before.w, r, calls) && Follows(fate, before.used, calls)
    && told.observed == before.observed + StatusesOf([Attempted(r)])
    && told.w == (if d.body.None? then before.w else P.UploadRun(cfg, d.body.value, P.ReadRow, before.w, calls).1)
    && told.used == before.used + |calls|
  }

  /** Each attempt started from what the ones before it left. */
  ghost predicate AllEnd(cfg: Config, d: Delivery, w: World, results: seq<Result>, tries: seq<seq<Call>>) {
    && |tries| == |results|
    && forall i | 0 <= i < |results| :: EndsAs(cfg, d, Worked(cfg, d, w, tries[..i]), results[i], tries[i])
  }

  /** These attempts, with `done` in the journal, lead from `start` to `told`. */
  ghost predicate Tells(cfg: Config, fate: nat -> Call, d: Delivery, start: Told, results: seq<Result>, tries: seq<seq<Call>>,
                        done: seq<Action>, told: Told) {
    && AllEnd(cfg, d, start.w, results, tries) && Follows(fate, start.used, Flat(tries))
    && told.observed == start.observed + StatusesOf(done)
    && told.w == Worked(cfg, d, start.w, tries)
    && told.used == start.used + |Flat(tries)|
  }

  lemma AllEndSnoc(cfg: Config, d: Delivery, w: World, results: seq<Result>, tries: seq<seq<Call>>, r: Result, calls: seq<Call>)
    requires AllEnd(cfg, d, w, results, tries) && EndsAs(cfg, d, Worked(cfg, d, w, tries), r, calls)
    ensures AllEnd(cfg, d, w, results + [r], tries + [calls])
  {
    var results', tries' := results + [r], tries + [calls];
    forall i | 0 <= i < |results'|
      ensures EndsAs(cfg, d, Worked(cfg, d, w, tries'[..i]), results'[i], tries'[i])
    {
      SnocAt(tries, calls, i);
      if i < |results| {
        assert EndsAs(cfg, d, Worked(cfg, d, w, tries[..i]), results[i], tries[i]);
      }
    }
  }

  lemma OneMoreTells(cfg: Config, fate: nat -> Call, d: Delivery, start: Told, results: seq<Result>, tries: seq<seq<Call>>,
                     done: seq<Action>, before: Told, r: Result, calls: seq<Call>, told: Told)
    requires Tells(cfg, fate, d, start, results, tries, done, before) && OneAttempt(cfg, fate, d, before, r, calls, told)
    ensures Tells(cfg, fate, d, start, results + [r], tries + [calls], done + [Attempted(r)], told)
  {
    if d.body.Some? {
      AfterAttemptsSnoc(cfg, d.body.value, start.w, tries, calls);
    }
    AllEndSnoc(cfg, d, start.w, results, tries, r, calls);
    FlatSnoc(tries, calls);
    FollowsConcat(fate, start.used, Flat(tries), calls);
    StatusesOfConcat(done, [Attempted(r)]);
    Regrouped(start.observed, StatusesOf(done), StatusesOf([Attempted(r)]));
  }

  lemma WaitTells(cfg: Config, fate: nat -> Call, d: Delivery, start: Told, results: seq<Result>, tries: seq<seq<Call>>,
                  done: seq<Action>, told: Told, wait: nat)
    requires Tells(cfg, fate, d, start, results, tries, done, told)
    ensures Tells(cfg, fate, d, start, results, tries, done + [Waited(wait)], told)
  {
    StatusesOfConcat(done, [Waited(wait)]);
    StatusesOfOne(Waited(wait));
  }

  lemma SameBefore(d: Delivery, results: seq<Result>, r: Result, k: nat)
    requires k < |results|
    ensures ScriptOf(d, results + [r]).handler(k) == ScriptOf(d, results).handler(k) == results[k]
  {
  }

  /** The attempts before this one went on, and are not touched by its result. */
  lemma ResultAdded(backoff: Backoff, d: Delivery, results: seq<Result>, r: Result)
    requires |results| <= |backoff| && forall k | 0 <= k < |results| :: GoesOn(backoff, ScriptOf(d, results), k)
    ensures var sc := ScriptOf(d, results + [r]);
            && sc.handler(|results|) == r
            && Passed(backoff, sc, |results|) == Passed(backoff, ScriptOf(d, results), |results|)
            && forall k | 0 <= k < |results| :: GoesOn(backoff, sc, k)
  {
    var sc, sc' := ScriptOf(d, results), ScriptOf(d, results + [r]);
    forall k | 0 <= k < |results|
      ensures sc'.handler(k) == sc.handler(k) && GoesOn(backoff, sc', k)
    {
      SameBefore(d, results, r, k);
      assert GoesOn(backoff, sc, k);
    }
    PassedDependsOn(backoff, sc, sc', |results|);
  }

  /** Between two attempts: `results` all failed and were waited out, and `done` says so. */
  ghost predicate Going(backoff: Backoff, d: Delivery, results: seq<Result>, done: seq<Action>) {
    && |results| <= |backoff| && done == Passed(backoff, ScriptOf(d, results), |results|)
    && forall k | 0 <= k < |results| :: GoesOn(backoff, ScriptOf(d, results), k)
  }

  /** The attempts of a whole withRetry. */
  ghost predicate Finishes(backoff: Backoff, d: Delivery, results: seq<Result>) {
    0 < |results| <= |backoff| + 1 && StopsAt(backoff, ScriptOf(d, results), 0, |results| - 1)
  }

  /** withRetry returns after attempt n. */
  predicate Stops(backoff: Backoff, d: Delivery, n: nat, r: Result) {
    StopsRetrying(backoff, n, r.ok, d.afterAttempt(n)) || (d.duringWait(n) && !d.timerWins(n))
  }

  /** The last attempt: withRetry returns its result. */
  lemma LastAttempt(backoff: Backoff, d: Delivery, results: seq<Result>, done: seq<Action>, r: Result)
    requires Going(backoff, d, results, done) && Stops(backoff, d, |results|, r)
    ensures Finishes(backoff, d, results + [r])
    ensures RetryFrom(backoff, ScriptOf(d, results + [r]), 0) == (r.ok, done + [Attempted(r)])
  {
    ResultAdded(backoff, d, results, r);
    RetryEnds(backoff, ScriptOf(d, results + [r]), |results|);
  }

  /** Any other attempt: its wait is waited out. */
  lemma AttemptPasses(backoff: Backoff, d: Delivery, results: seq<Result>, done: seq<Action>, r: Result)
    requires Going(backoff, d, results, done) && !Stops(backoff, d, |results|, r)
    ensures |results| < |backoff|
    ensures Going(backoff, d, results + [r], done + [Attempted(r)] + [Waited(backoff[|results|])])
  {
    ResultAdded(backoff, d, results, r);
    assert done + [Attempted(r)] + [Waited(backoff[|results|])] == done + [Attempted(r), Waited(backoff[|results|])];
    assert GoesOn(backoff, ScriptOf(d, results + [r]), |results|);
  }

  /** The event's work is done: the stores are what a single clean attempt makes of them. */
  ghost predicate ReachesTarget(cfg: Config, ev: UploadEvent, start: Told, told: Told) {
    ev.s3Key.Original? ==> SameButTouched(told.w, Target(cfg, ev, start.w))
  }

  /** If the last attempt succeeds, the event's work is done. */
  lemma SuccessReachesTarget(cfg: Config, d: Delivery, w: World, results: seq<Result>, tries: seq<seq<Call>>)
    requires AllEnd(cfg, d, w, results, tries) && results != [] && results[|results| - 1].ok
    ensures d.body.Some? &&
            (d.body.value.s3Key.Original? ==> SameButTouched(Worked(cfg, d, w, tries), Target(cfg, d.body.value, w)))
  {
    var n := |results| - 1;
    assert EndsAs(cfg, d, Worked(cfg, d, w, tries[..n]), results[n], tries[n]);
    assert tries == tries[..n] + [tries[n]];
    AfterAttemptsSnoc(cfg, d.body.value, w, tries[..n], tries[n]);
    if d.body.value.s3Key.Original? {
      AttemptsReachTarget(cfg, d.body.value, w, tries[..n], tries[n]);
    }
  }

  // ---------------------------------------------------------------------------------------
  // Deliveries
  // ---------------------------------------------------------------------------------------

  /** What processing one delivery did: the results and calls of its attempts, and the call of its
      report, if it was buried. */
  datatype Work = Work(results: seq<Result>, tries: seq<seq<Call>>, report: seq<Call>)

  function Final(k: Work): Result
    requires k.results != []
  {
    k.results[|k.results| - 1]
  }

  /** `k` is a way process can go from `start` when the network decides as `fate`. */
  ghost predicate Delivers(backoff: Backoff, cfg: Config, fate: nat -> Call, d: Delivery, start: Told, k: Work) {
    && Finishes(backoff, d, k.results) && AllEnd(cfg, d, start.w, k.results, k.tries)
    && |k.report| == (if d.body.Some? && Settle(Final(k).ok, d.settling).DeadLetter? then 1 else 0)
    && Follows(fate, start.used, Flat(k.tries) + k.report)
  }

  /** What it leads to. */
  ghost function After(backoff: Backoff, cfg: Config, d: Delivery, start: Told, k: Work): Told {
    var w := Worked(cfg, d, start.w, k.tries);
    Told(start.observed + StatusesOf(ProcessActions(backoff, ScriptOf(d, k.results), true)),
         if d.body.Some? && k.report != [] then P.ReportEffect(d.body.value, w, k.report[0]) else w,
         start.used + |Flat(k.tries)| + |k.report|)
  }

  /** Settling observes nothing. */
  lemma ProcessTells(backoff: Backoff, sc: Script)
    ensures StatusesOf(ProcessActions(backoff, sc, true)) == StatusesOf(RetryFrom(backoff, sc, 0).1)
  {
    var (ok, attempts) := RetryFrom(backoff, sc, 0);
    var settling := SettleActions(sc, ok, true);
    StatusesOfConcat(attempts, settling);
    SettleMeasures(sc, ok, true);
    StatusesAreObservations(settling);
  }

  /** Attempts that finished, and then the report if one is due, deliver. */
  lemma WorkDelivers(backoff: Backoff, cfg: Config, fate: nat -> Call, d: Delivery, start: Told, k: Work, attempted: Told)
    requires Finishes(backoff, d, k.results)
    requires Tells(cfg, fate, d, start, k.results, k.tries, RetryFrom(backoff, ScriptOf(d, k.results), 0).1, attempted)
    requires |k.report| == (if d.body.Some? && Settle(Final(k).ok, d.settling).DeadLetter? then 1 else 0)
    requires Follows(fate, attempted.used, k.report)
    ensures Delivers(backoff, cfg, fate, d, start, k)
    ensures After(backoff, cfg, d, start, k)
            == Told(attempted.observed,
                    if k.report != [] then P.ReportEffect(d.body.value, attempted.w, k.report[0]) else attempted.w,
                    attempted.used + |k.report|)
  {
    FollowsConcat(fate, start.used, Flat(k.tries), k.report);
    ProcessTells(backoff, ScriptOf(d, k.results));
  }

  /** The journal of a delivery: its attempts, then how it is settled. */
  lemma JournalSettled(backoff: Backoff, d: Delivery, results: seq<Result>, before: seq<Action>)
    requires Finishes(backoff, d, results)
    ensures var sc := ScriptOf(d, results);
            before + RetryFrom(backoff, sc, 0).1 + SettleActions(ScriptOf(d, []), results[|results| - 1].ok, true)
            == before + ProcessActions(backoff, sc, true)
  {
    var sc := ScriptOf(d, results);
    RetryEnds(backoff, sc, |results| - 1);
    Regrouped(before, RetryFrom(backoff, sc, 0).1, SettleActions(sc, results[|results| - 1].ok, true));
  }

  /** Every attempt of a delivery but the last ended in an error, and was observed as one. */
  lemma EarlierAttemptsFailed(backoff: Backoff, cfg: Config, fate: nat -> Call, d: Delivery, start: Told, k: Work, i: nat)
    requires Delivers(backoff, cfg, fate, d, start, k) && d.body.Some? && i < |k.results| - 1
    ensures k.results[i] == Result(false, Some(P.ObservedError))
    ensures P.UploadRun(cfg, d.body.value, P.ReadRow, Worked(cfg, d, start.w, k.tries[..i]), k.tries[i]).0 == P.Errored
  {
    var sc := ScriptOf(d, k.results);
    assert GoesOn(backoff, sc, i) && sc.handler(i) == k.results[i];
    assert EndsAs(cfg, d, Worked(cfg, d, start.w, k.tries[..i]), k.results[i], k.tries[i]);
  }

  /** A delivery is acked exactly when the handler's last run returned nil. */
  lemma AckIffReturned(backoff: Backoff, cfg: Config, fate: nat -> Call, d: Delivery, start: Told, k: Work)
    requires Delivers(backoff, cfg, fate, d, start, k) && d.body.Some?
    ensures var n := |k.results| - 1;
            Settlements(ProcessActions(backoff, ScriptOf(d, k.results), true)) == [Ack] <==>
            P.UploadRun(cfg, d.body.value, P.ReadRow, Worked(cfg, d, start.w, k.tries[..n]), k.tries[n]).0.Returned?
  {
    var n, sc := |k.results| - 1, ScriptOf(d, k.results);
    assert EndsAs(cfg, d, Worked(cfg, d, start.w, k.tries[..n]), k.results[n], k.tries[n]);
    SettledAs(backoff, d, k.results);
  }

  lemma SettledAs(backoff: Backoff, d: Delivery, results: seq<Result>)
    requires Finishes(backoff, d, results)
    ensures Settlements(ProcessActions(backoff, ScriptOf(d, results), true))
            == [Settle(results[|results| - 1].ok, d.settling)]
  {
    var n, sc := |results| - 1, ScriptOf(d, results);
    RetryEnds(backoff, sc, n);
    SettleMeasures(sc, results[n].ok, true);
    RetryMeasures(backoff, sc);
    MeasuresOfConcat(RetryFrom(backoff, sc, 0).1, SettleActions(sc, results[n].ok, true));
  }

  lemma RetryMeasures(backoff: Backoff, sc: Script)
    ensures Settlements(RetryFrom(backoff, sc, 0).1) == []
  {
    var last := RetryStops(backoff, sc, 0);
  }

  /** An acked delivery observes errors and then one status, which tells what its last attempt found:
      skipped by the guard, every size made, or a file that does not decode. */
  lemma AckedStatusTells(backoff: Backoff, cfg: Config, fate: nat -> Call, d: Delivery, start: Told, k: Work)
    requires Delivers(backoff, cfg, fate, d, start, k) && Final(k).ok && d.body.value.s3Key.Original?
    ensures var ev := d.body.value; var w := Worked(cfg, d, start.w, k.tries[..|k.tries| - 1]);
            Final(k).observed == Some(
              if Skips(w, ev.avatarID) then P.ObservedSkipped
              else if ev.s3Key in w.objects && FirstBad(cfg, w.objects[ev.s3Key], 0) == |cfg.sizes| then P.ObservedOK
              else P.ObservedError)
  {
    var n := |k.results| - 1;
    var w := Worked(cfg, d, start.w, k.tries[..n]);
    assert EndsAs(cfg, d, w, k.results[n], k.tries[n]);
    ObservationTells(cfg, d.body.value, w, k.tries[n]);
  }

  // ---------------------------------------------------------------------------------------
  // Arrivals
  // ---------------------------------------------------------------------------------------

  /** What one select of the loop sees. */
  datatype Arrival = ContextIsDone | ChannelIsClosed(cancelled: bool) | Arrives(delivery: Delivery)

  /** The turn it is for the consumer's loop. */
  function TurnOf(a: Arrival): Turn
    requires !a.Arrives?
  {
    match a
    case ContextIsDone => ContextDone
    case ChannelIsClosed(cancelled) => ChannelClosed(cancelled)
  }

  ghost predicate AllArrive(arrivals: seq<Arrival>, works: seq<Work>) {
    |works| <= |arrivals| && forall i | 0 <= i < |works| :: arrivals[i].Arrives?
  }

  /** The deliveries one after the other. */
  ghost function AfterAll(backoff: Backoff, cfg: Config, arrivals: seq<Arrival>, start: Told, works: seq<Work>): Told
    requires AllArrive(arrivals, works)
    decreases works
  {
    if works == [] then start
    else
      var n := |works| - 1;
      After(backoff, cfg, arrivals[n].delivery, AfterAll(backoff, cfg, arrivals, start, works[..n]), works[n])
  }

  /** Each delivery is processed from what the ones before it left. */
  ghost predicate Serves(backoff: Backoff, cfg: Config, fate: nat -> Call, arrivals: seq<Arrival>, start: Told, works: seq<Work>) {
    && AllArrive(arrivals, works)
    && forall i | 0 <= i < |works| ::
         Delivers(backoff, cfg, fate, arrivals[i].delivery, AfterAll(backoff, cfg, arrivals, start, works[..i]), works[i])
  }

  ghost function Scripts(arrivals: seq<Arrival>, works: seq<Work>): seq<Script>
    requires AllArrive(arrivals, works)
  {
    seq(|works|, i requires 0 <= i < |works| => ScriptOf(arrivals[i].delivery, works[i].results))
  }

  lemma AfterAllSnoc(backoff: Backoff, cfg: Config, arrivals: seq<Arrival>, start: Told, works: seq<Work>, k: Work)
    requires AllArrive(arrivals, works) && |works| < |arrivals| && arrivals[|works|].Arrives?
    ensures AllArrive(arrivals, works + [k])
    ensures AfterAll(backoff, cfg, arrivals, start, works + [k])
            == After(backoff, cfg, arrivals[|works|].delivery, AfterAll(backoff, cfg, arrivals, start, works), k)
  {
    assert (works + [k])[..|works|] == works;
  }

  lemma ServesSnoc(backoff: Backoff, cfg: Config, fate: nat -> Call, arrivals: seq<Arrival>, start: Told, works: seq<Work>, k: Work)
    requires Serves(backoff, cfg, fate, arrivals, start, works) && |works| < |arrivals| && arrivals[|works|].Arrives?
    requires Delivers(backoff, cfg, fate, arrivals[|works|].delivery, AfterAll(backoff, cfg, arrivals, start, works), k)
    ensures Serves(backoff, cfg, fate, arrivals, start, works + [k])
  {
    AfterAllSnoc(backoff, cfg, arrivals, start, works, k);
    forall i | 0 <= i < |works + [k]|
      ensures Delivers(backoff, cfg, fate, arrivals[i].delivery, AfterAll(backoff, cfg, arrivals, start, (works + [k])[..i]),
                       (works + [k])[i])
    {
      SnocAt(works, k, i);
    }
  }

  lemma ScriptsSnoc(backoff: Backoff, arrivals: seq<Arrival>, works: seq<Work>, k: Work)
    requires AllArrive(arrivals, works + [k])
    ensures var sc := ScriptOf(arrivals[|works|].delivery, k.results);
            AllArrive(arrivals, works) &&
            LoopActions(backoff, Scripts(arrivals, works + [k]), true)
            == LoopActions(backoff, Scripts(arrivals, works), true) + ProcessActions(backoff, sc, true)
  {
    forall i | 0 <= i < |works|
      ensures arrivals[i].Arrives?
    {
      assert (works + [k])[i] == works[i];
    }
    var sc := ScriptOf(arrivals[|works|].delivery, k.results);
    assert Scripts(arrivals, works + [k]) == Scripts(arrivals, works) + [sc];
    LoopActionsSnoc(backoff, Scripts(arrivals, works), sc, true);
  }

  /** The observations recorded are those of the journal. */
  lemma {:induction false} AfterAllObserved(backoff: Backoff, cfg: Config, arrivals: seq<Arrival>, start: Told, works: seq<Work>)
    requires AllArrive(arrivals, works)
    ensures AfterAll(backoff, cfg, arrivals, start, works).observed
            == start.observed + StatusesOf(LoopActions(backoff, Scripts(arrivals, works), true))
    decreases works
  {
    if works != [] {
      var n := |works| - 1;
      assert works[..n] + [works[n]] == works;
      AfterAllObserved(backoff, cfg, arrivals, start, works[..n]);
      ScriptsSnoc(backoff, arrivals, works[..n], works[n]);
      var js := LoopActions(backoff, Scripts(arrivals, works[..n]), true);
      var more := ProcessActions(backoff, ScriptOf(arrivals[n].delivery, works[n].results), true);
      StatusesOfConcat(js, more);
      Regrouped(start.observed, StatusesOf(js), StatusesOf(more));
    }
  }

  /** The results of a delivery's attempts are what a handler can give: the hypothesis of the consumer's
      counting. */
  lemma DeliversIsFaithful(backoff: Backoff, cfg: Config, fate: nat -> Call, d: Delivery, start: Told, k: Work)
    requires Delivers(backoff, cfg, fate, d, start, k)
    ensures Faithful(ScriptOf(d, k.results))
  {
    var sc := ScriptOf(d, k.results);
    forall i: nat
      ensures if sc.decodes then sc.handler(i).observed.Some? else sc.handler(i) == Result(false, None)
    {
      assert sc.handler(i) == if i < |k.results| then k.results[i] else Result(false, Unobserved(d));
      if i < |k.results| {
        assert EndsAs(cfg, d, Worked(cfg, d, start.w, k.tries[..i]), k.results[i], k.tries[i]);
      }
    }
  }

  /** When all bodies decode, every handler call is observed once, and there are between one and
      |backoff| + 1 of them for each delivery. */
  lemma ServedAccounts(backoff: Backoff, cfg: Config, fate: nat -> Call, arrivals: seq<Arrival>, start: Told, works: seq<Work>)
    requires Serves(backoff, cfg, fate, arrivals, start, works)
    requires forall i | 0 <= i < |works| :: arrivals[i].delivery.body.Some?
    ensures var calls := |AfterAll(backoff, cfg, arrivals, start, works).observed| - |start.observed|;
            && calls == Attempts(LoopActions(backoff, Scripts(arrivals, works), true))
            && |works| <= calls <= |works| * (|backoff| + 1)
  {
    var taken := Scripts(arrivals, works);
    var js := LoopActions(backoff, taken, true);
    AfterAllObserved(backoff, cfg, arrivals, start, works);
    StatusesAreObservations(js);
    LoopAttempts(backoff, taken, true);
    forall i | 0 <= i < |taken|
      ensures taken[i].decodes && Faithful(taken[i])
    {
      DeliversIsFaithful(backoff, cfg, fate, arrivals[i].delivery, AfterAll(backoff, cfg, arrivals, start, works[..i]), works[i]);
    }
    LoopObserves(backoff, taken, true);
  }

  // ---------------------------------------------------------------------------------------
  // The loop over the upload queue
  // ---------------------------------------------------------------------------------------

  class UploadLoop {
    const backoff: Backoff
    const proc: P.Processor
    var journal: seq<Action>

    constructor (backoff: Backoff, proc: P.Processor)
      ensures this.backoff == backoff && this.proc == proc && journal == []
    {
      this.backoff := backoff;
      this.proc := proc;
      journal := [];
    }

    ghost predicate Valid()
      reads proc.repo
    {
      proc.Valid()
    }

    ghost function Now(): Told
      reads proc, proc.repo, proc.files, proc.net
    {
      Told(proc.observed, proc.Stores(), proc.net.used)
    }

    /** One attempt: the body is decoded and handed to HandleUpload. */
    method Attempt(d: Delivery) returns (r: Result, ghost calls: seq<Call>)
      requires Valid()
      modifies proc, proc.repo, proc.files, proc.net
      ensures Valid() && OneAttempt(proc.cfg, proc.net.fate, d, old(Now()), r, calls, Now())
    {
      match d.body
      case None =>
        r, calls := Result(false, None), [];
        StatusesOfOne(Attempted(r));
      case Some(ev) =>
        var ok;
        ok, calls := proc.HandleUpload(ev);
        r := Result(ok, Some(proc.observed[|proc.observed| - 1]));
        StatusesOfOne(Attempted(r));
    }

    /** The next attempt of a delivery, noted in the journal. */
    method Next(d: Delivery, ghost start: Told, ghost results: seq<Result>, ghost tries: seq<seq<Call>>, ghost done: seq<Action>)
      returns (r: Result, ghost calls: seq<Call>)
      requires Valid() && Tells(proc.cfg, proc.net.fate, d, start, results, tries, done, Now())
      modifies this, proc, proc.repo, proc.files, proc.net
      ensures Valid() && journal == old(journal) + [Attempted(r)]
      ensures Tells(proc.cfg, proc.net.fate, d, start, results + [r], tries + [calls], done + [Attempted(r)], Now())
    {
      ghost var before := Now();
      r, calls := Attempt(d);
      OneMoreTells(proc.cfg, proc.net.fate, d, start, results, tries, done, before, r, calls, Now());
      journal := journal + [Attempted(r)];
    }

    /** The wait between two attempts, noted in the journal. */
    method Pause(d: Delivery, wait: nat, ghost start: Told, ghost results: seq<Result>, ghost tries: seq<seq<Call>>,
                 ghost done: seq<Action>)
      requires Valid() && Tells(proc.cfg, proc.net.fate, d, start, results, tries, done, Now())
      modifies this`journal
      ensures Valid() && Now() == old(Now()) && journal == old(journal) + [Waited(wait)]
      ensures Tells(proc.cfg, proc.net.fate, d, start, results, tries, done + [Waited(wait)], Now())
    {
      journal := journal + [Waited(wait)];
      WaitTells(proc.cfg, proc.net.fate, d, start, results, tries, done, Now(), wait);
    }

    /** withRetry around the real handler: the attempts it made on the network, each ending as the
        handler's machine ends, up to the one that stops it. After a success the event's work is
        done. */
    method WithRetry(d: Delivery) returns (ok: bool, ghost results: seq<Result>, ghost tries: seq<seq<Call>>)
      requires Valid()
      modifies this, proc, proc.repo, proc.files, proc.net
      ensures Valid() && Finishes(backoff, d, results) && ok == results[|results| - 1].ok
      ensures (ok, journal) ==
              var (ok', done) := RetryFrom(backoff, ScriptOf(d, results), 0); (ok', old(journal) + done)
      ensures Tells(proc.cfg, proc.net.fate, d, old(Now()), results, tries, RetryFrom(backoff, ScriptOf(d, results), 0).1, Now())
      ensures ok ==> d.body.Some? && ReachesTarget(proc.cfg, d.body.value, old(Now()), Now())
    {
      ghost var start, done := Now(), [];
      results, tries := [], [];
      var attempt := 0;
      while true
        invariant attempt == |results| && Valid() && journal == old(journal) + done
        invariant Going(backoff, d, results, done)
        invariant Tells(proc.cfg, proc.net.fate, d, start, results, tries, done, Now())
        decreases |backoff| - attempt
      {
        var r, calls := Next(d, start, results, tries, done);
        Regrouped(old(journal), done, [Attempted(r)]);
        if r.ok || attempt >= |backoff| || d.afterAttempt(attempt) {
          LastAttempt(backoff, d, results, done, r);
          if r.ok {
            SuccessReachesTarget(proc.cfg, d, start.w, results + [r], tries + [calls]);
          }
          return r.ok, results + [r], tries + [calls];
        }
        if d.duringWait(attempt) && !d.timerWins(attempt) {
          LastAttempt(backoff, d, results, done, r);
          return false, results + [r], tries + [calls];
        }
        AttemptPasses(backoff, d, results, done, r);
        results, tries, done := results + [r], tries + [calls], done + [Attempted(r)];
        Pause(d, backoff[attempt], start, results, tries, done);
        Regrouped(old(journal), done, [Waited(backoff[attempt])]);
        done := done + [Waited(backoff[attempt])];
        attempt := attempt + 1;
      }
    }

    /** The end of process: ack, requeue, or report and dead-letter. */
    method Conclude(d: Delivery, ok: bool) returns (ghost report: seq<Call>)
      requires Valid()
      modifies this, proc.repo, proc.net
      ensures Valid() && proc.observed == old(proc.observed) && proc.net.Made(old(proc.net.used), report)
      ensures |report| == if d.body.Some? && Settle(ok, d.settling).DeadLetter? then 1 else 0
      ensures proc.Stores() == if report == [] then old(proc.Stores())
                               else P.ReportEffect(d.body.value, old(proc.Stores()), report[0])
      ensures journal == old(journal) + SettleActions(ScriptOf(d, []), ok, true)
    {
      report := [];
      if ok {
        journal := journal + [Settled(Ack)];
        return;
      }
      if d.settling {
        journal := journal + [Settled(Requeue)];
        return;
      }
      if d.body.Some? {
        ghost var c := proc.ReportUploadFailed(d.body.value);
        report := [c];
      }
      Regrouped(journal, [DeadCallback(d.body.Some?)], [Settled(DeadLetter)]);
      journal := journal + [DeadCallback(d.body.Some?)];
      journal := journal + [Settled(DeadLetter)];
    }

    /** process around the real handler. The stores, the observations and the network are where its
        work leads; an ack means the event's work is done. */
    method Process(d: Delivery) returns (ok: bool, ghost k: Work)
      requires Valid()
      modifies this, proc, proc.repo, proc.files, proc.net
      ensures Valid() && Delivers(backoff, proc.cfg, proc.net.fate, d, old(Now()), k) && ok == Final(k).ok
      ensures journal == old(journal) + ProcessActions(backoff, ScriptOf(d, k.results), true)
      ensures Now() == After(backoff, proc.cfg, d, old(Now()), k)
      ensures ok ==> d.body.Some? && ReachesTarget(proc.cfg, d.body.value, old(Now()), Now())
    {
      ghost var start, before := Now(), journal;
      ghost var results, tries;
      ok, results, tries := WithRetry(d);
      ghost var attempted := Now();
      ghost var report := Conclude(d, ok);
      k := Work(results, tries, report);
      JournalSettled(backoff, d, results, before);
      WorkDelivers(backoff, proc.cfg, proc.net.fate, d, start, k, attempted);
      assert Now() == After(backoff, proc.cfg, d, start, k);
    }

    /** loop over what its select sees, until the context is done or the channel closed. */
    method Loop(arrivals: seq<Arrival>) returns (end: Option<LoopEnd>, ghost works: seq<Work>)
      requires Valid()
      modifies this, proc, proc.repo, proc.files, proc.net
      ensures Valid() && Serves(backoff, proc.cfg, proc.net.fate, arrivals, old(Now()), works)
      ensures Now() == AfterAll(backoff, proc.cfg, arrivals, old(Now()), works)
      ensures if |works| == |arrivals| then end == None
              else !arrivals[|works|].Arrives? && end == LoopResult([TurnOf(arrivals[|works|])])
      ensures end == Some(ReturnsNil) <==> |works| < |arrivals| && arrivals[|works|] == ChannelIsClosed(true)
      ensures end == Some(ReturnsClosedError) <==> |works| < |arrivals| && arrivals[|works|] == ChannelIsClosed(false)
      ensures journal == old(journal) + LoopActions(backoff, Scripts(arrivals, works), true)
    {
      ghost var start := Now();
      works := [];
      var i := 0;
      while i < |arrivals| && arrivals[i].Arrives?
        invariant 0 <= i <= |arrivals| && i == |works| && Valid()
        invariant Serves(backoff, proc.cfg, proc.net.fate, arrivals, start, works)
        invariant Now() == AfterAll(backoff, proc.cfg, arrivals, start, works)
        invariant journal == old(journal) + LoopActions(backoff, Scripts(arrivals, works), true)
      {
        var ok, k := Process(arrivals[i].delivery);
        ServesSnoc(backoff, proc.cfg, proc.net.fate, arrivals, start, works, k);
        AfterAllSnoc(backoff, proc.cfg, arrivals, start, works, k);
        ScriptsSnoc(backoff, arrivals, works, k);
        Regrouped(old(journal), LoopActions(backoff, Scripts(arrivals, works), true),
                  ProcessActions(backoff, ScriptOf(arrivals[i].delivery, k.results), true));
        works := works + [k];
        i := i + 1;
      }
      if i == |arrivals| {
        return None, works;
      }
      match arrivals[i]
      case ContextIsDone => end := Some(ReturnsCanceled);
      case ChannelIsClosed(cancelled) => end := Some(if cancelled then ReturnsNil else ReturnsClosedError);
    }
  }
}
