/** When deliveries happen: the breaker against the attempt log, and retries against next_retry_at. */
module Pacing {
  import opened Prelude
  import opened Domain
  import opened Lifecycle
  import Backoff
  import CB = CircuitBreaker

  // The breaker is the tail of the attempt log --------------------------------------------------------

  /** The attempt log as the breaker sees it. */
  function Outcomes(attempts: seq<Attempt>): (ops: seq<CB.Op>)
    ensures |ops| == |attempts|
  {
    seq(|attempts|, i requires 0 <= i < |attempts| => Outcome(attempts[i]))
  }

  function Outcome(row: Attempt): CB.Op {
    if row.reply.Success() then CB.Success(row.endpoint, Unix(row.createdAt))
    else CB.Failure(row.endpoint, Unix(row.createdAt))
  }

  /** Failed deliveries to an endpoint since its last successful one. */
  function FailedRun(attempts: seq<Attempt>, ep: string): nat { CB.TrailingFailures(Outcomes(attempts), ep) }

  /** The Unix second the latest failed delivery to an endpoint was recorded in. */
  function LatestFailure(attempts: seq<Attempt>, ep: string): Option<int> {
    CB.LatestFailure(Outcomes(attempts), ep)
  }

  lemma RowAppended(attempts: seq<Attempt>, row: Attempt, ep: string)
    ensures FailedRun(attempts + [row], ep) ==
            if row.endpoint != ep then FailedRun(attempts, ep)
            else if row.reply.Success() then 0 else FailedRun(attempts, ep) + 1
    ensures LatestFailure(attempts + [row], ep) ==
            if row.endpoint == ep && !row.reply.Success() then Some(Unix(row.createdAt))
            else LatestFailure(attempts, ep)
  {
    var ops := Outcomes(attempts + [row]);
    assert ops[..|attempts|] == Outcomes(attempts);
  }

  lemma UnixMonotone(a: int, b: int)
    requires a <= b
    ensures Unix(a) <= Unix(b)
  {
  }

  ghost predicate BreakerAgrees(c: CB.Config, s: State, ep: string) {
    CB.Consistent(c, s.breaker, ep, FailedRun(s.attempts, ep), LatestFailure(s.attempts, ep), Unix(s.now))
  }

  /** The attempt row and the breaker's keys are stored after each delivery; anything else may fail. */
  predicate OutcomeStored(a: Action) {
    a.Dispatch? ==> a.env.attemptStored && a.env.breakerFaults == CB.NO_FAULTS
  }

  lemma DeliveryKeepsAgreement(c: CB.Config, s: State, id: string, env: Env, ep: string)
    requires BreakerAgrees(c, s, ep) && env.attemptStored && env.breakerFaults == CB.NO_FAULTS
    requires Judge(c, s, id, env) == Deliver
    ensures BreakerAgrees(c, Process(c, s, id, env), ep)
  {
    var e := s.events[id];
    var done := s.now + env.took;
    var run, last := FailedRun(s.attempts, ep), LatestFailure(s.attempts, ep);
    var before, after := Unix(s.now), Unix(done);
    UnixMonotone(s.now, done);
    var allowed := CB.AfterAllow(c, s.breaker, e.endpoint, before, env.setLost);
    var row := Attempt(id, e.endpoint, e.attemptCount + 1, env.reply, done);
    CB.AllowKeeps(c, s.breaker, e.endpoint, before, env.setLost, ep, run, last, before);
    RowAppended(s.attempts, row, ep);
    DeliveryShape(c, s, id, env);
    assert Process(c, s, id, env).attempts == s.attempts + [row] && Process(c, s, id, env).now == done;
    CB.FaultlessOutcome(c, allowed, e.endpoint, after, env.reply.Success());
    if env.reply.Success() {
      CB.SuccessKeeps(c, allowed, e.endpoint, ep, run, last, after);
    } else {
      CB.FailureKeeps(c, allowed, e.endpoint, after, ep, run, last, before);
    }
  }

  lemma StepKeepsAgreement(c: CB.Config, s: State, a: Action, ep: string)
    requires BreakerAgrees(c, s, ep) && OutcomeStored(a)
    ensures BreakerAgrees(c, Apply(c, s, a), ep)
  {
    match a {
      case Dispatch(id, env) =>
        if Judge(c, s, id, env) == Deliver {
          DeliveryKeepsAgreement(c, s, id, env, ep);
        } else if Judge(c, s, id, env) != Skip && !env.breakerReadFails {
          CB.AllowKeeps(c, s.breaker, s.events[id].endpoint, Unix(s.now), env.setLost, ep,
                        FailedRun(s.attempts, ep), LatestFailure(s.attempts, ep), Unix(s.now));
        }
      case Tick(ns) => UnixMonotone(s.now, s.now + ns);
      case _ =>
    }
  }

  lemma {:induction false} RunKeepsAgreement(c: CB.Config, r: Run, k: nat, ep: string)
    requires LegalFromStart(c, r) && k < |r.states|
    requires forall i :: 0 <= i < |r.actions| ==> OutcomeStored(r.actions[i])
    ensures BreakerAgrees(c, r.states[k], ep)
  {
    if k > 0 {
      RunKeepsAgreement(c, r, k - 1, ep);
      StepKeepsAgreement(c, r.states[k - 1], r.actions[k - 1], ep);
    }
  }

  /** In every reachable state an endpoint's breaker is open or half-open exactly when the deliveries since
      its last success, as the attempt log has them, reach the threshold: whatever the clock did, whichever
      probes were let through, and although half-open failures are not counted. */
  lemma BreakerIsTheAttemptLog(c: CB.Config, r: Run, k: nat, ep: string)
    requires LegalFromStart(c, r) && k < |r.states|
    requires forall i :: 0 <= i < |r.actions| ==> OutcomeStored(r.actions[i])
    ensures CB.Tripped(r.states[k].breaker, ep) <==> FailedRun(r.states[k].attempts, ep) >= Max(1, c.threshold)
  {
    RunKeepsAgreement(c, r, k, ep);
  }

  /** While an endpoint keeps failing, a message for it gets past the breaker exactly when more than the
      timeout has gone by, in Unix seconds, since its latest failure was recorded. */
  lemma FailingEndpointIsSpaced(c: CB.Config, r: Run, k: nat, id: string, env: Env)
    requires LegalFromStart(c, r) && k < |r.states|
    requires forall i :: 0 <= i < |r.actions| ==> OutcomeStored(r.actions[i])
    requires Judge(c, r.states[k], id, env) != Skip && !env.breakerReadFails
    requires FailedRun(r.states[k].attempts, r.states[k].events[id].endpoint) >= CB.TripLength(c)
    ensures var s := r.states[k];
            var last := LatestFailure(s.attempts, s.events[id].endpoint);
            && last.Some?
            && (Judge(c, s, id, env) != Refuse <==> Unix(s.now) - last.value > c.timeout)
  {
    var s := r.states[k];
    var ep := s.events[id].endpoint;
    RunKeepsAgreement(c, r, k, ep);
    CB.DecisionFromHistory(c, s.breaker, ep, FailedRun(s.attempts, ep), LatestFailure(s.attempts, ep),
                           Unix(s.now), Unix(s.now));
  }

  /** And an endpoint whose failed run is short is never refused. */
  lemma HealthyEndpointIsNeverRefused(c: CB.Config, r: Run, k: nat, id: string, env: Env)
    requires LegalFromStart(c, r) && k < |r.states|
    requires forall i :: 0 <= i < |r.actions| ==> OutcomeStored(r.actions[i])
    requires Judge(c, r.states[k], id, env) == Refuse && !env.breakerReadFails
    ensures FailedRun(r.states[k].attempts, r.states[k].events[id].endpoint) >= CB.TripLength(c)
  {
    var s := r.states[k];
    RunKeepsAgreement(c, r, k, s.events[id].endpoint);
    RefusedMeansTripped(c, s, id, env);
  }

  lemma RefusedMeansTripped(c: CB.Config, s: State, id: string, env: Env)
    requires Judge(c, s, id, env) == Refuse && !env.breakerReadFails
    requires BreakerAgrees(c, s, s.events[id].endpoint)
    ensures FailedRun(s.attempts, s.events[id].endpoint) >= CB.TripLength(c)
  {
    assert CB.Tripped(s.breaker, s.events[id].endpoint);
  }

  // Retries wait for their time --------------------------------------------------------------------

  /** Messages are consumed exactly once: every one is committed, none comes again, and what the scheduler
      publishes it marks. Anything else may fail. */
  predicate ExactlyOnce(a: Action) {
    match a
    case Dispatch(_, env) => env.committed
    case Schedule(_, _, published, stored) => published <= stored
    case Redeliver(_) => false
    case _ => true
  }

  /** At most one message per event; none while it waits for a retry or is resolved; and a message that is
      out only once the event's time has come. */
  ghost predicate OneMessage(s: State, id: string) {
    && s.topic[id] <= 1
    && (s.topic[id] == 1 ==> id in s.events && (s.events[id].status == Pending || s.events[id].status == Queued))
    && (s.topic[id] == 1 && s.events[id].nextRetryAt.Some? ==> s.events[id].nextRetryAt.value <= s.now)
  }

  lemma DispatchKeepsOneMessage(c: CB.Config, s: State, id: string, env: Env, x: string)
    requires OneMessage(s, x) && id in s.topic && ExactlyOnce(Dispatch(id, env))
    ensures OneMessage(Process(c, s, id, env), x)
  {
    var s' := Process(c, s, id, env);
    if x == id {
      assert s'.topic[x] == 0;
    } else {
      assert s'.topic[x] == s.topic[x];
    }
  }

  lemma ScheduleKeepsOneMessage(s: State, limit: nat, batch: seq<string>, published: set<string>, stored: set<string>, x: string)
    requires OneMessage(s, x) && EarliestDue(s.events, s.now, limit, batch) && published <= stored
    ensures OneMessage(Requeue(s, batch, published, stored), x)
  {
    if x in batch {
      assert x in DueIds(s.events, s.now);
    }
  }

  lemma StepKeepsOneMessage(c: CB.Config, s: State, a: Action, x: string)
    requires OneMessage(s, x) && Enabled(s, a) && ExactlyOnce(a)
    ensures OneMessage(Apply(c, s, a), x)
  {
    match a {
      case Dispatch(id, env) => DispatchKeepsOneMessage(c, s, id, env, x);
      case Schedule(limit, batch, published, stored) => ScheduleKeepsOneMessage(s, limit, batch, published, stored, x);
      case _ =>
    }
  }

  lemma {:induction false} RunKeepsOneMessage(c: CB.Config, r: Run, k: nat, x: string)
    requires LegalFromStart(c, r) && k < |r.states|
    requires forall i :: 0 <= i < |r.actions| ==> ExactlyOnce(r.actions[i])
    ensures OneMessage(r.states[k], x)
  {
    if k > 0 {
      RunKeepsOneMessage(c, r, k - 1, x);
      StepKeepsOneMessage(c, r.states[k - 1], r.actions[k - 1], x);
    }
  }

  /** Over whole runs, no delivery of an event starts before the retry time its last attempt stored; and an
      event waiting for a retry, or resolved, has no message out at all. */
  lemma BackoffIsRespected(c: CB.Config, r: Run, k: nat, id: string, env: Env)
    requires LegalFromStart(c, r) && k < |r.states|
    requires forall i :: 0 <= i < |r.actions| ==> ExactlyOnce(r.actions[i])
    ensures var s := r.states[k];
            && (Enabled(s, Dispatch(id, env)) && Judge(c, s, id, env) == Deliver && s.events[id].nextRetryAt.Some?
                ==> s.events[id].nextRetryAt.value <= s.now)
            && (id in s.events && (s.events[id].Resolved() || s.events[id].status == Retrying) ==> id !in s.topic)
            && s.topic[id] <= 1
  {
    RunKeepsOneMessage(c, r, k, id);
  }

  /** The time a failed delivery stores lies in the window of its attempt, which the exponential law gives. */
  lemma RetryTimeIsInTheWindow(c: CB.Config, s: State, id: string, env: Env)
    requires Judge(c, s, id, env) == Deliver && !env.reply.Success() && env.statusStored
    requires 0 <= s.events[id].attemptCount && !Exhausts(s.events[id], env)
    ensures var e, e' := s.events[id], Process(c, s, id, env).events[id];
            var done := s.now + env.took;
            && e' == e.(status := Retrying, attemptCount := e.attemptCount + 1, nextRetryAt := e'.nextRetryAt)
            && e'.nextRetryAt.Some?
            && done <= e'.nextRetryAt.value
                 < done + Min(env.retryBase * 1_000_000 * Backoff.Pow2(e'.attemptCount), 3_600_000_000_000)
  {
    Backoff.DelayIsCeiling(s.events[id].attemptCount + 1, env.retryBase);
  }

  /** A message of the event is out, and its delivery would be made before the stored retry time. */
  predicate Early(c: CB.Config, s: State, id: string, env: Env) {
    && id in s.topic && Judge(c, s, id, env) == Deliver
    && s.events[id].nextRetryAt.Some? && s.now < s.events[id].nextRetryAt.value
  }

  /** In any state: an early delivery can be made if and only if a message of an unresolved event is out before
      the event's time and the breaker passes it. Nothing else holds it back. */
  lemma EarlyIff(c: CB.Config, s: State, id: string)
    ensures (exists env :: Early(c, s, id, env))
            <==> (id in s.topic && id in s.events && !s.events[id].Resolved()
                  && s.events[id].nextRetryAt.Some? && s.now < s.events[id].nextRetryAt.value
                  && CB.Passes(c, s.breaker, s.events[id].endpoint, Unix(s.now)))
  {
    if id in s.topic && id in s.events && !s.events[id].Resolved()
       && s.events[id].nextRetryAt.Some? && s.now < s.events[id].nextRetryAt.value
       && CB.Passes(c, s.breaker, s.events[id].endpoint, Unix(s.now)) {
      assert Early(c, s, id, Failing(0, true));
    }
  }

  // Each part of exactly-once is needed ---------------------------------------------------------------

  /** A failed delivery that Redis forgets, with this random draw. */
  function Failing(draw: nat, committed: bool): Env {
    Env(false, true, false, false, Active, Reply(500, None), 0, DEFAULT_RETRY_BASE, draw, true,
        CB.Faults(true, true, true, true), true, true, committed)
  }

  datatype Slip =
    | Uncommitted  // the commit of a consumed message is lost
    | Repeated     // a message comes again
    | Unmarked     // the scheduler publishes an event without marking it queued

  predicate Slips(slip: Slip, a: Action) {
    match slip
    case Uncommitted => a.Dispatch? && !a.env.committed
    case Repeated => a.Redeliver?
    case Unmarked => a.Schedule? && !(a.publishedIds <= a.storedIds)
  }

  /** An event of endpoint "p" with no attempt yet, or with one failed and the retry due at `at`. */
  function Row(status: Status, tries: int32, at: Option<int>): Event {
    NewEvent("t", "p", "e", "b", "s").(status := status, attemptCount := tries, nextRetryAt := at)
  }

  function Held(row: Event, messages: nat, tries: seq<Attempt>): State {
    State(0, map["id" := row], multiset{}["id" := messages], tries, [], CB.NO_KEYS)
  }

  function Try(n: int): Attempt { Attempt("id", "p", n, Reply(500, None), 0) }

  lemma FirstDelay(draw: nat)
    requires draw <= 1
    ensures Backoff.Drawn(1, DEFAULT_RETRY_BASE, draw) == Backoff.Drawn(2, DEFAULT_RETRY_BASE, draw) == draw
  {
    Backoff.DelayIsCeiling(1, DEFAULT_RETRY_BASE);
    Backoff.DelayIsCeiling(2, DEFAULT_RETRY_BASE);
    assert Backoff.Pow2(2) == 4 && Backoff.Pow2(1) == 2;
  }

  lemma FailHeld(c: CB.Config, row: Event, messages: nat, tries: seq<Attempt>, draw: nat, committed: bool)
    requires row == Row(Queued, row.attemptCount, row.nextRetryAt) && 0 <= row.attemptCount <= 1
    requires messages >= 1 && draw <= 1
    ensures var n: int32 := row.attemptCount + 1;
            Process(c, Held(row, messages, tries), "id", Failing(draw, committed)) ==
            Held(Row(Retrying, n, Some(draw)), if committed then messages - 1 else messages, tries + [Try(n)])
  {
    FirstDelay(draw);
    var s, env := Held(row, messages, tries), Failing(draw, committed);
    DeliveryShape(c, s, "id", env);
    assert map["id" := row]["id" := Answered(row, env, 0)] == map["id" := Answered(row, env, 0)];
    assert multiset{}["id" := messages] - multiset{"id"} == multiset{}["id" := messages - 1];
  }

  lemma RequeueHeld(row: Event, messages: nat, tries: seq<Attempt>, marked: bool)
    requires row.status == Retrying && row.nextRetryAt == Some(0)
    ensures EarliestDue(map["id" := row], 0, 1, ["id"])
    ensures Requeue(Held(row, messages, tries), ["id"], {"id"}, if marked then {"id"} else {}) ==
            Held(if marked then row.(status := Queued) else row, messages + 1, tries)
  {
    var s := Held(row, messages, tries);
    assert DueIds(s.events, 0) == {"id"};
    assert (set id | id in ["id"] && id in {"id"}) == {"id"};
    assert multiset{}["id" := messages] + multiset{"id"} == multiset{}["id" := messages + 1];
  }

  /** A legal run to s in which at most step i, if there is such a step, breaks exactly-once, by that slip. */
  ghost predicate Gets(c: CB.Config, r: Run, s: State, slip: Slip, i: nat) {
    && LegalFromStart(c, r) && Last(r) == s
    && (forall j :: 0 <= j < |r.actions| && j != i ==> ExactlyOnce(r.actions[j]))
    && (i < |r.actions| ==> Slips(slip, r.actions[i]))
  }

  lemma GetsFurther(c: CB.Config, r: Run, s: State, slip: Slip, i: nat, a: Action) returns (r': Run)
    requires Gets(c, r, s, slip, i) && Enabled(s, a)
    requires if i == |r.actions| then Slips(slip, a) else ExactlyOnce(a)
    ensures Gets(c, r', Apply(c, s, a), slip, i) && |r'.actions| == |r.actions| + 1
  {
    ExtendIsLegal(c, r, a);
    r' := Extend(c, r, a);
    forall j | 0 <= j < |r'.actions| && j != i
      ensures ExactlyOnce(r'.actions[j])
    {
      if j < |r.actions| {
        assert r'.actions[j] == r.actions[j];
      }
    }
  }

  lemma CreateHeld(c: CB.Config, slip: Slip, i: nat) returns (r: Run)
    requires i >= 1
    ensures Gets(c, r, Held(Row(Queued, 0, None), 1, []), slip, i) && |r.actions| == 1
  {
    var a := Create("id", "t", "p", "e", "b", "s", true, true);
    r := GetsFurther(c, Run([START], []), START, slip, i, a);
    assert map[]["id" := Row(Queued, 0, None)] == map["id" := Row(Queued, 0, None)];
  }

  lemma CreateAndFail(c: CB.Config, draw: nat, slip: Slip, i: nat) returns (r: Run)
    requires draw <= 1 && i >= 2
    ensures Gets(c, r, Held(Row(Retrying, 1, Some(draw)), 0, [Try(1)]), slip, i) && |r.actions| == 2
  {
    r := CreateHeld(c, slip, i);
    FailHeld(c, Row(Queued, 0, None), 1, [], draw, true);
    r := GetsFurther(c, r, Held(Row(Queued, 0, None), 1, []), slip, i, Dispatch("id", Failing(draw, true)));
  }

  lemma UncommittedGetsHeld(c: CB.Config) returns (r: Run)
    ensures Gets(c, r, Held(Row(Retrying, 1, Some(1)), 1, [Try(1)]), Uncommitted, 1) && |r.actions| == 2
  {
    r := CreateHeld(c, Uncommitted, 1);
    FailHeld(c, Row(Queued, 0, None), 1, [], 1, false);
    r := GetsFurther(c, r, Held(Row(Queued, 0, None), 1, []), Uncommitted, 1, Dispatch("id", Failing(1, false)));
  }

  lemma RepeatedGetsHeld(c: CB.Config) returns (r: Run)
    ensures Gets(c, r, Held(Row(Retrying, 1, Some(1)), 1, [Try(1)]), Repeated, 2) && |r.actions| == 3
  {
    r := CreateAndFail(c, 1, Repeated, 2);
    r := GetsFurther(c, r, Held(Row(Retrying, 1, Some(1)), 0, [Try(1)]), Repeated, 2, Redeliver("id"));
    assert multiset{}["id" := 0] + multiset{"id"} == multiset{}["id" := 1];
  }

  lemma UnmarkedGetsHeld(c: CB.Config) returns (r: Run)
    ensures Gets(c, r, Held(Row(Retrying, 2, Some(1)), 1, [Try(1)] + [Try(2)]), Unmarked, 2) && |r.actions| == 5
  {
    r := CreateAndFail(c, 0, Unmarked, 2);
    var row := Row(Retrying, 1, Some(0));
    RequeueHeld(row, 0, [Try(1)], false);
    r := GetsFurther(c, r, Held(row, 0, [Try(1)]), Unmarked, 2, Schedule(1, ["id"], {"id"}, {}));
    RequeueHeld(row, 1, [Try(1)], true);
    r := GetsFurther(c, r, Held(row, 1, [Try(1)]), Unmarked, 2, Schedule(1, ["id"], {"id"}, {"id"}));
    var queued := Row(Queued, 1, Some(0));
    FailHeld(c, queued, 2, [Try(1)], 1, true);
    r := GetsFurther(c, r, Held(queued, 2, [Try(1)]), Unmarked, 2, Dispatch("id", Failing(1, true)));
  }

  lemma HeldIsEarly(c: CB.Config, n: int32, tries: seq<Attempt>)
    ensures Early(c, Held(Row(Retrying, n, Some(1)), 1, tries), "id", Failing(0, true))
  {
  }

  /** Each part of exactly-once is needed, under every breaker setting: a run from the start with one slip, of
      whichever kind, gets to an early delivery. */
  lemma OneSlipIsEnough(c: CB.Config, slip: Slip) returns (r: Run, i: nat)
    ensures LegalFromStart(c, r) && i < |r.actions| && Slips(slip, r.actions[i])
    ensures forall j :: 0 <= j < |r.actions| && j != i ==> ExactlyOnce(r.actions[j])
    ensures exists env :: Early(c, Last(r), "id", env)
  {
    match slip {
      case Uncommitted =>
        r := UncommittedGetsHeld(c);
        i := 1;
        HeldIsEarly(c, 1, [Try(1)]);
      case Repeated =>
        r := RepeatedGetsHeld(c);
        i := 2;
        HeldIsEarly(c, 1, [Try(1)]);
      case Unmarked =>
        r := UnmarkedGetsHeld(c);
        i := 2;
        HeldIsEarly(c, 2, [Try(1)] + [Try(2)]);
    }
  }
}
