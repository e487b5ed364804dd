/** internal/repository/redis/circuit_breaker.go: a breaker per endpoint over three Redis keys.
    Times are Unix seconds. */
module CircuitBreaker {
  import opened Prelude

  datatype Phase = Closed | Open | HalfOpen

  /** failureThreshold and timeout (whole seconds) of the repository. */
  datatype Config = Config(threshold: int, timeout: int)

  /** The keys cb:<endpoint>:state, cb:<endpoint>:failures and cb:<endpoint>:last_failure. */
  datatype Keys = Keys(state: map<string, Phase>, failures: map<string, int>, lastFailure: map<string, int>)

  const NO_KEYS := Keys(map[], map[], map[])

  function Count(k: Keys, ep: string): int {
    if ep in k.failures then k.failures[ep] else 0
  }

  predicate Tripped(k: Keys, ep: string) {
    ep in k.state && k.state[ep] != Closed
  }

  /** Whether a request at `unix` passes. A missing last_failure key reads as 0. */
  predicate Passes(c: Config, k: Keys, ep: string, unix: int) {
    !Tripped(k, ep) || k.state[ep] == HalfOpen
    || unix - (if ep in k.lastFailure then k.lastFailure[ep] else 0) > c.timeout
  }

  /** The keys after Allow. The write that moves an open breaker to half-open may be lost unnoticed. */
  function AfterAllow(c: Config, k: Keys, ep: string, unix: int, setLost: bool): Keys {
    if Tripped(k, ep) && Passes(c, k, ep, unix) && !setLost
    then k.(state := k.state[ep := HalfOpen])
    else k
  }

  function AfterSuccess(k: Keys, ep: string): Keys {
    k.(state := k.state[ep := Closed], failures := k.failures - {ep})
  }

  function Trip(k: Keys, ep: string, unix: int): Keys {
    k.(state := k.state[ep := Open], lastFailure := k.lastFailure[ep := unix])
  }

  /** A half-open failure re-opens without touching the counter; any other failure counts. */
  function AfterFailure(c: Config, k: Keys, ep: string, unix: int): Keys {
    if ep in k.state && k.state[ep] == HalfOpen then Trip(k, ep, unix)
    else
      var counted := k.(failures := k.failures[ep := Count(k, ep) + 1]);
      if Count(k, ep) + 1 >= c.threshold then Trip(counted, ep, unix) else counted
  }

  /** Which commands of recording an outcome fail: closing after a success; reading the state, counting and
      tripping after a failure. */
  datatype Faults = Faults(close: bool, stateRead: bool, count: bool, trip: bool)

  const NO_FAULTS := Faults(false, false, false, false)

  /** The keys after a delivery came back. A state that cannot be read passes for one that is not half-open. */
  function AfterOutcome(c: Config, k: Keys, ep: string, unix: int, success: bool, f: Faults): Keys {
    if success then if f.close then k else AfterSuccess(k, ep)
    else if !f.stateRead && ep in k.state && k.state[ep] == HalfOpen then if f.trip then k else Trip(k, ep, unix)
    else if f.count then k
    else
      var counted := k.(failures := k.failures[ep := Count(k, ep) + 1]);
      if Count(k, ep) + 1 >= c.threshold && !f.trip then Trip(counted, ep, unix) else counted
  }

  /** What is left of a failure when commands fail: counted but not tripped, or nothing at all; and a half-open
      breaker whose state cannot be read is counted as if it were not half-open. */
  lemma FaultyFailure(c: Config, k: Keys, ep: string, unix: int, f: Faults)
    ensures var halfOpen := ep in k.state && k.state[ep] == HalfOpen;
            var k' := AfterOutcome(c, k, ep, unix, false, f);
            && (halfOpen && !f.stateRead && f.trip ==> k' == k)
            && ((!halfOpen || f.stateRead) && f.count ==> k' == k)
            && ((!halfOpen || f.stateRead) && !f.count ==>
                  && k'.failures == k.failures[ep := (if ep in k.failures then k.failures[ep] else 0) + 1]
                  && (k'.state == k.state[ep := Open] && k'.lastFailure == k.lastFailure[ep := unix]
                      <== !f.trip && k'.failures[ep] >= c.threshold)
                  && (k'.state == k.state && k'.lastFailure == k.lastFailure
                      <== f.trip || k'.failures[ep] < c.threshold))
  {
  }

  /** With nothing failing, that is the success or the failure step. */
  lemma FaultlessOutcome(c: Config, k: Keys, ep: string, unix: int, success: bool)
    ensures AfterOutcome(c, k, ep, unix, success, NO_FAULTS) ==
            if success then AfterSuccess(k, ep) else AfterFailure(c, k, ep, unix)
  {
  }

  class CircuitBreakerRepo {
    const config: Config
    var state: map<string, Phase>
    var failures: map<string, int>
    var lastFailure: map<string, int>

    function Stored(): Keys
      reads this
    {
      Keys(state, failures, lastFailure)
    }

    constructor (config: Config)
      ensures this.config == config && Stored() == NO_KEYS
    {
      this.config := config;
      state, failures, lastFailure := map[], map[], map[];
    }

    /** None stands for an error from Redis, which every caller turns into a refusal. */
    method Allow(ep: string, unix: int, stateReadFails: bool, lastReadFails: bool, setLost: bool)
        returns (allowed: Option<bool>)
      modifies this`state
      ensures allowed == None <==>
        stateReadFails || (lastReadFails && ep in old(state) && old(state)[ep] == Open)
      ensures allowed == None ==> Stored() == old(Stored())
      ensures allowed.Some? ==>
        && allowed.value == Passes(config, old(Stored()), ep, unix)
        && Stored() == AfterAllow(config, old(Stored()), ep, unix, setLost)
      ensures ep in old(state) && old(state)[ep] == Open && allowed.Some? ==>
        && allowed.value == (unix - (if ep in lastFailure then lastFailure[ep] else 0) > config.timeout)
        && state == if allowed.value && !setLost then old(state)[ep := HalfOpen] else old(state)
      ensures !(ep in old(state) && old(state)[ep] == Open) ==>
        state == old(state) && (allowed.Some? ==> allowed.value)
    {
      if stateReadFails {
        return None;
      }
      if ep !in state || state[ep] == Closed {
        return Some(true);
      }
      if state[ep] == HalfOpen {
        assert state[ep := HalfOpen] == state;
        return Some(true);
      }
      if lastReadFails {
        return None;
      }
      var last := if ep in lastFailure then lastFailure[ep] else 0;
      if unix - last > config.timeout {
        if !setLost {
          state := state[ep := HalfOpen];
        }
        return Some(true);
      }
      return Some(false);
    }

    method RecordSuccess(ep: string, fails: bool) returns (ok: bool)
      modifies this`state, this`failures
      ensures ok == !fails
      ensures Stored() == if fails then old(Stored()) else AfterSuccess(old(Stored()), ep)
    {
      if fails {
        return false;
      }
      state := state[ep := Closed];
      failures := failures - {ep};
      return true;
    }

    method RecordFailure(ep: string, unix: int, f: Faults) returns (ok: bool)
      modifies this
      ensures Stored() == AfterOutcome(config, old(Stored()), ep, unix, false, f)
      ensures var k, halfOpen := old(Stored()), !f.stateRead && ep in old(state) && old(state)[ep] == HalfOpen;
              var trips := halfOpen || (!f.count && Count(k, ep) + 1 >= config.threshold);
              ok <==> (halfOpen || !f.count) && (trips ==> !f.trip)
      ensures f == NO_FAULTS ==> Stored() == AfterFailure(config, old(Stored()), ep, unix)
    {
      if !f.stateRead && ep in state && state[ep] == HalfOpen {
        if f.trip {
          return false;
        }
        state := state[ep := Open];
        lastFailure := lastFailure[ep := unix];
        return true;
      }
      if f.count {
        return false;
      }
      var count := if ep in failures then failures[ep] + 1 else 1;
      failures := failures[ep := count];
      if count >= config.threshold {
        if f.trip {
          return false;
        }
        state := state[ep := Open];
        lastFailure := lastFailure[ep := unix];
      }
      return true;
    }
  }

  // What the keys say about history -----------------------------------------------------------------

  /** The run of failures that trips the breaker; a threshold below one acts as one. */
  function TripLength(c: Config): int { Max(1, c.threshold) }

  /** The keys of `ep` agree with `run` failures since its last success, the latest at `last`. */
  ghost predicate Consistent(c: Config, k: Keys, ep: string, run: nat, last: Option<int>, unix: int) {
    && (Tripped(k, ep) <==> run >= TripLength(c))
    && (!Tripped(k, ep) ==> Count(k, ep) == run)
    && (Tripped(k, ep) ==>
         && Count(k, ep) + 1 >= c.threshold
         && ep in k.lastFailure && last == Some(k.lastFailure[ep])
         && (k.state[ep] == HalfOpen ==> unix - k.lastFailure[ep] > c.timeout))
  }

  lemma AllowKeeps(c: Config, k: Keys, ep: string, unix: int, setLost: bool,
                   ep': string, run: nat, last: Option<int>, before: int)
    requires Consistent(c, k, ep', run, last, before) && before <= unix
    ensures Consistent(c, AfterAllow(c, k, ep, unix, setLost), ep', run, last, unix)
  {
  }

  lemma SuccessKeeps(c: Config, k: Keys, ep: string, ep': string, run: nat, last: Option<int>, unix: int)
    requires Consistent(c, k, ep', run, last, unix)
    ensures Consistent(c, AfterSuccess(k, ep), ep', if ep' == ep then 0 else run, last, unix)
  {
  }

  lemma FailureKeeps(c: Config, k: Keys, ep: string, unix: int, ep': string, run: nat, last: Option<int>, before: int)
    requires Consistent(c, k, ep', run, last, before) && before <= unix
    ensures Consistent(c, AfterFailure(c, k, ep, unix), ep',
                       if ep' == ep then run + 1 else run, if ep' == ep then Some(unix) else last, unix)
  {
  }

  /** The admission decision read off history alone. */
  lemma DecisionFromHistory(c: Config, k: Keys, ep: string, run: nat, last: Option<int>, before: int, unix: int)
    requires Consistent(c, k, ep, run, last, before) && before <= unix
    ensures Passes(c, k, ep, unix) <==>
            (run < TripLength(c) || (last.Some? && unix - last.value > c.timeout))
  {
  }

  // Whole runs ------------------------------------------------------------------------------------

  datatype Op =
    | Admission(ep: string, unix: int, setLost: bool)
    | Success(ep: string, unix: int)
    | Failure(ep: string, unix: int)

  function Replay(c: Config, ops: seq<Op>): Keys {
    if ops == [] then NO_KEYS
    else
      var k := Replay(c, ops[..|ops| - 1]);
      match ops[|ops| - 1]
      case Admission(ep, unix, setLost) => AfterAllow(c, k, ep, unix, setLost)
      case Success(ep, _) => AfterSuccess(k, ep)
      case Failure(ep, unix) => AfterFailure(c, k, ep, unix)
  }

  /** Failures of `ep` since its last success. */
  function TrailingFailures(ops: seq<Op>, ep: string): nat {
    if ops == [] then 0
    else
      var op := ops[|ops| - 1];
      if op == Success(ep, op.unix) then 0
      else TrailingFailures(ops[..|ops| - 1], ep) + if op == Failure(ep, op.unix) then 1 else 0
  }

  function LatestFailure(ops: seq<Op>, ep: string): Option<int> {
    if ops == [] then None
    else
      var op := ops[|ops| - 1];
      if op == Failure(ep, op.unix) then Some(op.unix) else LatestFailure(ops[..|ops| - 1], ep)
  }

  ghost predicate ClockNeverRunsBack(ops: seq<Op>) {
    forall i, j :: 0 <= i < j < |ops| ==> ops[i].unix <= ops[j].unix
  }

  lemma {:induction false} ReplayConsistent(c: Config, ops: seq<Op>, ep: string, unix: int)
    requires ClockNeverRunsBack(ops) && forall i :: 0 <= i < |ops| ==> ops[i].unix <= unix
    ensures Consistent(c, Replay(c, ops), ep, TrailingFailures(ops, ep), LatestFailure(ops, ep), unix)
    decreases |ops|
  {
    if ops != [] {
      var front := ops[..|ops| - 1];
      var op := ops[|ops| - 1];
      ReplayConsistent(c, front, ep, op.unix);
      var k := Replay(c, front);
      var run, last := TrailingFailures(front, ep), LatestFailure(front, ep);
      match op {
        case Admission(e, u, setLost) => AllowKeeps(c, k, e, u, setLost, ep, run, last, u);
        case Success(e, u) => SuccessKeeps(c, k, e, ep, run, last, u);
        case Failure(e, u) => FailureKeeps(c, k, e, u, ep, run, last, u);
      }
    }
  }

  /** Over any interleaving of admissions and outcomes of any endpoints: the breaker is open or half-open
      exactly when the trailing run of failures has reached the threshold. */
  lemma TrippedIffTrailingRun(c: Config, ops: seq<Op>, ep: string)
    requires ClockNeverRunsBack(ops)
    ensures Tripped(Replay(c, ops), ep) <==> TrailingFailures(ops, ep) >= Max(1, c.threshold)
  {
    if ops != [] {
      ReplayConsistent(c, ops, ep, ops[|ops| - 1].unix);
    }
  }

  /** And a request passes exactly when that run is short or the latest failure is more than the timeout
      ago, however many half-open probes came in between. */
  lemma AdmissionIsAFunctionOfHistory(c: Config, ops: seq<Op>, ep: string, unix: int)
    requires ClockNeverRunsBack(ops) && forall i :: 0 <= i < |ops| ==> ops[i].unix <= unix
    ensures Passes(c, Replay(c, ops), ep, unix) <==>
            || TrailingFailures(ops, ep) < Max(1, c.threshold)
            || (LatestFailure(ops, ep).Some? && unix - LatestFailure(ops, ep).value > c.timeout)
  {
    ReplayConsistent(c, ops, ep, unix);
    DecisionFromHistory(c, Replay(c, ops), ep, TrailingFailures(ops, ep), LatestFailure(ops, ep), unix, unix);
  }

  /** Half-open is not a single probe: once one request has passed, a second at the same instant does. */
  lemma HalfOpenAdmitsEveryone(c: Config, k: Keys, ep: string, unix: int, later: int)
    requires Tripped(k, ep) && Passes(c, k, ep, unix)
    ensures Passes(c, AfterAllow(c, k, ep, unix, false), ep, later)
  {
  }
}
