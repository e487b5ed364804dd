/** internal/repository/redis/rate_limiter.go: a sliding window over one sorted set per tenant, trimmed on
    every check and given a fresh expiry on every add. Times are Unix milliseconds. */
module RateLimiter {
  import opened Prelude

  const WINDOW := 60_000
  const TTL := 70_000
  const SLACK := TTL - WINDOW

  /** The sorted set rl:<tenant>: the scores of its members, and when Redis drops the whole key. An empty
      set and a missing key are the same thing. */
  datatype Key = Key(scores: seq<nat>, expires: int)

  const NO_KEY := Key([], 0)

  function Live(k: Key, server: int): seq<nat> {
    if server >= k.expires then [] else k.scores
  }

  /** The scores above `lo`. */
  function Keep(scores: seq<nat>, lo: int): (kept: seq<nat>)
    ensures |kept| == Above(scores, lo)
  {
    if scores == [] then []
    else Keep(scores[..|scores| - 1], lo) + if scores[|scores| - 1] > lo then [scores[|scores| - 1]] else []
  }

  function Above(scores: seq<nat>, lo: int): nat {
    if scores == [] then 0
    else Above(scores[..|scores| - 1], lo) + if scores[|scores| - 1] > lo then 1 else 0
  }

  /** First pipeline: drop scores 0..now-WINDOW, then count. */
  function AfterCheck(k: Key, now: nat, server: int): Key {
    Key(Keep(Live(k, server), now - WINDOW), k.expires)
  }

  /** Second pipeline: add a fresh member scored with the caller's clock reading, and renew the expiry. */
  function AfterAdd(k: Key, now: nat, server: int): Key {
    Key(Live(k, server) + [now], server + TTL)
  }

  /** How a pipeline ended: run and answered, never run, or run with its answer lost. */
  datatype Exec = Answered | NotRun | AnswerLost

  class RateLimiterRepo {
    var keys: map<string, Key>

    function KeyOf(tenant: string): Key
      reads this
    {
      if tenant in keys then keys[tenant] else NO_KEY
    }

    constructor ()
      ensures keys == map[]
    {
      keys := map[];
    }

    /** None is the error return: the request is not admitted, though its score may have been added. */
    method Allow(tenant: string, limit: int, now: nat, checkAt: int, check: Exec, addAt: int, add: Exec)
        returns (allowed: Option<bool>)
      modifies this
      ensures forall t :: t != tenant ==> KeyOf(t) == old(KeyOf(t))
      ensures var checked := if check == NotRun then old(KeyOf(tenant)) else AfterCheck(old(KeyOf(tenant)), now, checkAt);
              var admitted := check == Answered && |checked.scores| < limit;
              && KeyOf(tenant) == (if admitted && add != NotRun then AfterAdd(checked, now, addAt) else checked)
              && allowed == if check != Answered || (admitted && add != Answered) then None else Some(admitted)
      ensures forall log, lastNow, lastServer :: Agrees(old(KeyOf(tenant)), log, lastNow, lastServer) ==>
        DecidesByLog(log, lastNow, lastServer, limit, now, checkAt, check, addAt, add, allowed, KeyOf(tenant))
    {
      ghost var k := KeyOf(tenant);
      forall log, lastNow, lastServer | Agrees(k, log, lastNow, lastServer)
        ensures var checked := AfterCheck(k, now, checkAt);
                var admitted := |checked.scores| < limit;
                DecidesByLog(log, lastNow, lastServer, limit, now, checkAt, Answered, addAt, Answered, Some(admitted),
                             if admitted then AfterAdd(checked, now, addAt) else checked)
      {
        RequestDecidesByLog(k, log, lastNow, lastServer, limit, now, checkAt, addAt);
      }
      if check != NotRun {
        keys := keys[tenant := AfterCheck(KeyOf(tenant), now, checkAt)];
      }
      if check != Answered {
        return None;
      }
      var card := |KeyOf(tenant).scores|;
      if card >= limit {
        return Some(false);
      }
      if add != NotRun {
        keys := keys[tenant := AfterAdd(KeyOf(tenant), now, addAt)];
      }
      if add != Answered {
        return None;
      }
      return Some(true);
    }
  }

  // Counting --------------------------------------------------------------------------------------

  /** How many scores lie in (lo, hi]. */
  function Between(scores: seq<nat>, lo: int, hi: int): nat {
    if scores == [] then 0
    else Between(scores[..|scores| - 1], lo, hi) + if lo < scores[|scores| - 1] <= hi then 1 else 0
  }

  lemma AppendCounts(s: seq<nat>, x: nat, lo: int, hi: int)
    ensures Above(s + [x], lo) == Above(s, lo) + if x > lo then 1 else 0
    ensures Between(s + [x], lo, hi) == Between(s, lo, hi) + if lo < x <= hi then 1 else 0
  {
    assert (s + [x])[..|s|] == s;
  }

  lemma {:induction false} ConcatCounts(a: seq<nat>, b: seq<nat>, lo: int, hi: int)
    ensures Between(a + b, lo, hi) == Between(a, lo, hi) + Between(b, lo, hi)
  {
    if b == [] {
      assert a + b == a;
    } else {
      var front := b[..|b| - 1];
      assert a + b == (a + front) + [b[|b| - 1]];
      assert b == front + [b[|b| - 1]];
      AppendCounts(a + front, b[|b| - 1], lo, hi);
      ConcatCounts(a, front, lo, hi);
    }
  }

  function Without(s: seq<nat>, i: nat): seq<nat>
    requires i < |s|
  {
    s[..i] + s[i + 1..]
  }

  lemma RemoveCounts(s: seq<nat>, i: nat, lo: int, hi: int)
    requires i < |s|
    ensures Between(s, lo, hi) == Between(Without(s, i), lo, hi) + if lo < s[i] <= hi then 1 else 0
  {
    assert s == s[..i] + [s[i]] + s[i + 1..];
    ConcatCounts(s[..i] + [s[i]], s[i + 1..], lo, hi);
    AppendCounts(s[..i], s[i], lo, hi);
    ConcatCounts(s[..i], s[i + 1..], lo, hi);
  }

  lemma {:induction false} BetweenBounds(s: seq<nat>, lo: int, hi: int, lo': int)
    requires lo' <= lo
    ensures Between(s, lo, hi) <= Above(s, lo') && Between(s, lo, hi) <= |s|
  {
    if s != [] { BetweenBounds(s[..|s| - 1], lo, hi, lo'); }
  }

  lemma {:induction false} KeepAbove(s: seq<nat>, cut: int, lo: int)
    requires cut <= lo
    ensures Above(Keep(s, cut), lo) == Above(s, lo)
  {
    if s != [] {
      var front := Keep(s[..|s| - 1], cut);
      KeepAbove(s[..|s| - 1], cut, lo);
      AppendCounts(front, s[|s| - 1], lo, lo);
      assert front + [] == front;
    }
  }

  lemma {:induction false} NoneAbove(s: seq<nat>, lo: int)
    requires forall i :: 0 <= i < |s| ==> s[i] <= lo
    ensures Above(s, lo) == 0
  {
    if s != [] { NoneAbove(s[..|s| - 1], lo); }
  }

  // The two pipelines as separate steps of many callers --------------------------------------------

  /** One tenant's key, the callers that passed the check and have not added yet, and every score ever
      added; the last clock reading that was checked and the last instant Redis ran a pipeline. */
  datatype State = State(key: Key, inFlight: seq<nat>, log: seq<nat>, lastNow: nat, lastServer: int)

  const START := State(NO_KEY, [], [], 0, 0)

  datatype Step =
    | Check(now: nat, server: int, limit: int)
    | Add(caller: nat, server: int)
    | Abandon(caller: nat)

  predicate Admits(s: State, st: Step)
    requires st.Check?
  {
    |AfterCheck(s.key, st.now, st.server).scores| < st.limit
  }

  /** What a deployment keeps to: tenants' limits, how many callers may be between their two pipelines, how
      many milliseconds a clock reading may take to reach Redis, and how far it may be overtaken by a later one. */
  datatype Setup = Setup(limit: nat, callers: nat, late: int, overtaken: nat)

  /** No check is later than the margin between expiry and window, and none is overtaken. Without any lateness
      none can be. */
  predicate WellTimed(m: Setup) { m.late <= SLACK && (m.late <= 0 || m.overtaken <= 0) }

  /** The most that is ever admitted in a window. */
  function Bound(m: Setup): int { Max(0, m.limit + m.callers - 1) }

  predicate Enabled(s: State, st: Step, m: Setup) {
    match st
    case Check(now, server, limit) =>
      && s.lastNow - m.overtaken <= now <= server <= now + m.late && s.lastServer <= server && limit <= m.limit
      && (Admits(s, st) ==> |s.inFlight| < m.callers)
    case Add(caller, server) => caller < |s.inFlight| && s.lastServer <= server
    case Abandon(caller) => caller < |s.inFlight|
  }

  function Apply(s: State, st: Step): State
    requires st.Add? || st.Abandon? ==> st.caller < |s.inFlight|
  {
    match st
    case Check(now, server, limit) =>
      State(AfterCheck(s.key, now, server), if Admits(s, st) then s.inFlight + [now] else s.inFlight,
            s.log, now, server)
    case Add(caller, server) =>
      State(AfterAdd(s.key, s.inFlight[caller], server), Without(s.inFlight, caller),
            s.log + [s.inFlight[caller]], s.lastNow, server)
    case Abandon(caller) => s.(inFlight := Without(s.inFlight, caller))
  }

  ghost predicate Reaches(steps: seq<Step>, m: Setup, s: State)
  {
    if steps == [] then s == START
    else
      var last := steps[|steps| - 1];
      exists p: State :: Reaches(steps[..|steps| - 1], m, p) && Enabled(p, last, m) && s == Apply(p, last)
  }

  /** Admissions in the window ending at t, those still in flight included. */
  function Admitted(s: State, t: int): nat {
    Between(s.log, t - WINDOW, t) + Between(s.inFlight, t - WINDOW, t)
  }

  function Horizon(s: State): int { Max(s.lastNow - WINDOW, s.lastServer - TTL) }

  /** The key agrees with the log everywhere above the horizon, which no later check looks below. */
  ghost predicate Faithful(s: State) {
    && s.lastNow <= s.lastServer
    && (forall i :: 0 <= i < |s.log| ==> s.log[i] <= s.lastNow && s.log[i] + TTL <= s.key.expires)
    && (forall i :: 0 <= i < |s.inFlight| ==> s.inFlight[i] <= s.lastNow)
    && (forall lo :: lo >= Horizon(s) ==> Above(s.key.scores, lo) == Above(s.log, lo))
  }

  ghost predicate Bounded(s: State, m: Setup) {
    |s.inFlight| <= m.callers && forall t :: Admitted(s, t) <= Bound(m)
  }

  /** Expiry never loses anything above the horizon at that instant. */
  lemma LiveIsFaithful(s: State, server: int, lo: int)
    requires Faithful(s) && s.lastServer <= server && lo >= Max(Horizon(s), server - TTL)
    ensures Above(Live(s.key, server), lo) == Above(s.log, lo)
  {
    if server >= s.key.expires {
      NoneAbove(s.log, lo);
    }
  }

  /** The trimmed, expiring set counts exactly what an untrimmed log would. */
  lemma CheckCountsTheLog(s: State, now: nat, server: int)
    requires Faithful(s) && s.lastNow <= now <= server <= now + SLACK && s.lastServer <= server
    ensures |AfterCheck(s.key, now, server).scores| == Above(s.log, now - WINDOW)
  {
    LiveIsFaithful(s, server, now - WINDOW);
  }

  lemma CheckKeepsFaithful(s: State, st: Step, m: Setup)
    requires WellTimed(m) && Faithful(s) && Enabled(s, st, m) && st.Check?
    ensures Faithful(Apply(s, st))
  {
    var s' := Apply(s, st);
    forall lo | lo >= Horizon(s')
      ensures Above(s'.key.scores, lo) == Above(s'.log, lo)
    {
      KeepAbove(Live(s.key, st.server), st.now - WINDOW, lo);
      LiveIsFaithful(s, st.server, lo);
    }
  }

  lemma AddKeepsFaithful(s: State, st: Step, m: Setup)
    requires WellTimed(m) && Faithful(s) && Enabled(s, st, m) && st.Add?
    ensures Faithful(Apply(s, st))
  {
    var s' := Apply(s, st);
    var score := s.inFlight[st.caller];
    forall lo | lo >= Horizon(s')
      ensures Above(s'.key.scores, lo) == Above(s'.log, lo)
    {
      LiveIsFaithful(s, st.server, lo);
      AppendCounts(Live(s.key, st.server), score, lo, lo);
      AppendCounts(s.log, score, lo, lo);
    }
  }

  lemma StepKeepsFaithful(s: State, st: Step, m: Setup)
    requires WellTimed(m) && Faithful(s) && Enabled(s, st, m)
    ensures Faithful(Apply(s, st))
  {
    match st {
      case Check(_, _, _) => CheckKeepsFaithful(s, st, m);
      case Add(_, _) => AddKeepsFaithful(s, st, m);
      case Abandon(_) =>
    }
  }

  /** An admitted check finds room: fewer scores than the limit reach into its window, and
      fewer callers than allowed wait. */
  lemma CheckKeepsWindow(s: State, st: Step, m: Setup, t: int)
    requires WellTimed(m) && Faithful(s) && |s.inFlight| <= m.callers && Enabled(s, st, m) && st.Check?
    requires Admitted(s, t) <= Bound(m)
    ensures Admitted(Apply(s, st), t) <= Bound(m)
  {
    if Admits(s, st) {
      var waiting := s.inFlight + [st.now];
      AppendCounts(s.inFlight, st.now, t - WINDOW, t);
      if st.now <= t {
        CheckCountsTheLog(s, st.now, st.server);
        BetweenBounds(s.log, t - WINDOW, t, st.now - WINDOW);
        BetweenBounds(waiting, t - WINDOW, t, t - WINDOW);
      }
    }
  }

  lemma MoveKeepsWindow(s: State, st: Step, t: int)
    requires (st.Add? || st.Abandon?) && st.caller < |s.inFlight|
    ensures Admitted(Apply(s, st), t) <= Admitted(s, t)
  {
    RemoveCounts(s.inFlight, st.caller, t - WINDOW, t);
    AppendCounts(s.log, s.inFlight[st.caller], t - WINDOW, t);
  }

  lemma StepKeepsBounded(s: State, st: Step, m: Setup)
    requires WellTimed(m) && Faithful(s) && Bounded(s, m) && Enabled(s, st, m)
    ensures Bounded(Apply(s, st), m)
  {
    forall t
      ensures Admitted(Apply(s, st), t) <= Bound(m)
    {
      assert Admitted(s, t) <= Bound(m);
      if st.Check? {
        CheckKeepsWindow(s, st, m, t);
      } else {
        MoveKeepsWindow(s, st, t);
      }
    }
  }

  lemma {:induction false} ReachableInvariant(steps: seq<Step>, m: Setup, s: State)
    requires WellTimed(m) && Reaches(steps, m, s)
    ensures Faithful(s) && Bounded(s, m)
    decreases |steps|
  {
    if steps != [] {
      var last := steps[|steps| - 1];
      var p :| Reaches(steps[..|steps| - 1], m, p) && Enabled(p, last, m) && s == Apply(p, last);
      ReachableInvariant(steps[..|steps| - 1], m, p);
      StepKeepsFaithful(p, last, m);
      StepKeepsBounded(p, last, m);
    }
  }

  /** However the pipelines of at most P overlapping callers interleave, every window of 60 seconds, ending
      at any instant, holds at most L + P - 1 admissions. With one caller at a time that is exactly L. */
  lemma WindowBound(steps: seq<Step>, m: Setup, s: State, t: int)
    requires m.late <= 10_000 && (m.late <= 0 || m.overtaken <= 0) && m.callers >= 1 && Reaches(steps, m, s)
    ensures Between(s.log, t - 60_000, t) + Between(s.inFlight, t - 60_000, t) <= m.limit + m.callers - 1
    ensures m.callers == 1 ==> Between(s.log, t - 60_000, t) + Between(s.inFlight, t - 60_000, t) <= m.limit
  {
    ReachableInvariant(steps, m, s);
    assert Admitted(s, t) <= Bound(m);
  }

  /** In every reachable state, and so also between another caller's pipelines, a check decides exactly as
      the append-only log filtered to its window. */
  lemma CheckDecidesAsTheLog(steps: seq<Step>, m: Setup, s: State, st: Step)
    requires WellTimed(m) && Reaches(steps, m, s) && st.Check? && Enabled(s, st, m)
    ensures Admits(s, st) <==> Above(s.log, st.now - 60_000) < st.limit
  {
    ReachableInvariant(steps, m, s);
    FaithfulCheckDecides(s, st);
  }

  lemma FaithfulCheckDecides(s: State, st: Step)
    requires Faithful(s) && st.Check? && s.lastNow <= st.now <= st.server <= st.now + SLACK && s.lastServer <= st.server
    ensures Admits(s, st) <==> Above(s.log, st.now - WINDOW) < st.limit
  {
    CheckCountsTheLog(s, st.now, st.server);
  }

  // The bound is attained, and holds for well-timed setups only ---------------------------------------

  function Copies(n: nat, x: nat): (c: seq<nat>)
    ensures |c| == n && forall i :: 0 <= i < n ==> c[i] == x
  {
    seq(n, _ => x)
  }

  lemma {:induction false} CopiesCount(n: nat, x: nat, lo: int, hi: int)
    ensures Keep(Copies(n, x), lo) == if lo < x then Copies(n, x) else []
    ensures Between(Copies(n, x), lo, hi) == if lo < x <= hi then n else 0
    ensures Copies(n + 1, x) == Copies(n, x) + [x]
  {
    if n > 0 {
      CopiesCount(n - 1, x, lo, hi);
      assert Copies(n, x)[..n - 1] == Copies(n - 1, x);
    }
  }

  /** `added` scores in the log and `waiting` callers in flight, all at instant 0. */
  function Pile(added: nat, waiting: nat): State {
    State(Key(Copies(added, 0), if added == 0 then 0 else TTL), Copies(waiting, 0), Copies(added, 0), 0, 0)
  }

  lemma Extend(steps: seq<Step>, m: Setup, p: State, st: Step)
    requires Reaches(steps, m, p) && Enabled(p, st, m)
    ensures Reaches(steps + [st], m, Apply(p, st))
  {
    var longer := steps + [st];
    assert longer[..|longer| - 1] == steps && longer[|longer| - 1] == st;
  }

  lemma PileCheck(added: nat, waiting: nat, m: Setup)
    requires added < m.limit && waiting < m.callers && m.late >= 0
    ensures Enabled(Pile(added, waiting), Check(0, 0, m.limit), m)
    ensures Apply(Pile(added, waiting), Check(0, 0, m.limit)) == Pile(added, waiting + 1)
  {
    CopiesCount(added, 0, -WINDOW, 0);
    CopiesCount(waiting, 0, -WINDOW, 0);
  }

  lemma PileAdd(added: nat, waiting: nat, m: Setup)
    requires waiting > 0
    ensures Enabled(Pile(added, waiting), Add(waiting - 1, 0), m)
    ensures Apply(Pile(added, waiting), Add(waiting - 1, 0)) == Pile(added + 1, waiting - 1)
  {
    CopiesCount(added, 0, -WINDOW, 0);
    assert Without(Copies(waiting, 0), waiting - 1) == Copies(waiting - 1, 0);
  }

  lemma {:induction false} ReachPile(added: nat, waiting: nat, m: Setup) returns (steps: seq<Step>)
    requires m.callers >= 1 && m.late >= 0 && waiting <= m.callers
    requires if waiting > 0 then added < m.limit else added <= m.limit
    ensures Reaches(steps, m, Pile(added, waiting))
    decreases added, waiting
  {
    if waiting > 0 {
      steps := ReachPile(added, waiting - 1, m);
      PileCheck(added, waiting - 1, m);
      Extend(steps, m, Pile(added, waiting - 1), Check(0, 0, m.limit));
      steps := steps + [Check(0, 0, m.limit)];
    } else if added > 0 {
      steps := ReachPile(added - 1, 1, m);
      PileAdd(added - 1, 1, m);
      Extend(steps, m, Pile(added - 1, 1), Add(0, 0));
      steps := steps + [Add(0, 0)];
    } else {
      steps := [];
      assert Pile(0, 0) == START;
    }
  }

  /** For every limit and every degree of overlap, and with every clock exact, some run really admits L + P - 1
      in one window. */
  lemma BoundIsAttained(L: nat, P: nat) returns (steps: seq<Step>, s: State)
    requires L >= 1 && P >= 1
    ensures Reaches(steps, Setup(L, P, 0, 0), s)
    ensures Between(s.log, -60_000, 0) + Between(s.inFlight, -60_000, 0) == L + P - 1
  {
    steps := ReachPile(L - 1, P, Setup(L, P, 0, 0));
    s := Pile(L - 1, P);
    CopiesCount(L - 1, 0, -WINDOW, 0);
    CopiesCount(P, 0, -WINDOW, 0);
  }

  /** The last millisecond of the window that began at 0. */
  const LAST := WINDOW - 1

  /** L admissions were made at 0, the set has lost them all, and `waiting` callers with a clock reading of
      LAST have passed since. */
  function Emptied(L: nat, waiting: nat, server: nat): State {
    State(Key([], TTL), Copies(waiting, LAST), Copies(L, 0), LAST, server)
  }

  /** 10001 ms after its reading a check finds the key expired. */
  lemma LateCheckFindsNothing(m: Setup) returns (steps: seq<Step>)
    requires m.limit >= 1 && m.callers >= 1 && m.late > SLACK
    ensures Reaches(steps, m, Emptied(m.limit, 1, TTL))
  {
    steps := ReachPile(m.limit, 0, m);
    var late := Check(LAST, TTL, m.limit);
    Extend(steps, m, Pile(m.limit, 0), late);
    assert Copies(0, 0) + [LAST] == Copies(1, LAST);
    assert Apply(Pile(m.limit, 0), late) == Emptied(m.limit, 1, TTL);
    steps := steps + [late];
  }

  /** L admissions were made at 0, and a check at the end of their window has pruned them. */
  function Pruned(L: nat, waiting: seq<nat>): State { State(Key([], TTL), waiting, Copies(L, 0), WINDOW, WINDOW) }

  lemma PruneAndOvertake(L: nat)
    requires L >= 1
    ensures Apply(Pile(L, 0), Check(WINDOW, WINDOW, L)) == Pruned(L, [WINDOW])
    ensures Apply(Pruned(L, [WINDOW]), Abandon(0)) == Pruned(L, [])
    ensures Apply(Pruned(L, []), Check(LAST, WINDOW, L)) == Emptied(L, 1, WINDOW)
  {
    CopiesCount(L, 0, 0, 0);
    assert Copies(0, 0) + [WINDOW] == [WINDOW];
    assert Without([WINDOW], 0) == [];
    assert [] + [LAST] == Copies(1, LAST);
  }

  /** A check overtaken by a reading one millisecond later finds the set pruned past its own window. */
  lemma OvertakenCheckFindsNothing(m: Setup) returns (steps: seq<Step>)
    requires m.limit >= 1 && m.callers >= 1 && m.late >= 1 && m.overtaken >= 1
    ensures Reaches(steps, m, Emptied(m.limit, 1, WINDOW))
  {
    steps := ReachPile(m.limit, 0, m);
    var first, overtaken := Check(WINDOW, WINDOW, m.limit), Check(LAST, WINDOW, m.limit);
    PruneAndOvertake(m.limit);
    Extend(steps, m, Pile(m.limit, 0), first);
    Extend(steps + [first], m, Pruned(m.limit, [WINDOW]), Abandon(0));
    Extend(steps + [first] + [Abandon(0)], m, Pruned(m.limit, []), overtaken);
    steps := steps + [first] + [Abandon(0)] + [overtaken];
  }

  /** From then on every caller allowed gets in. */
  lemma {:induction false} EmptiedFills(m: Setup, waiting: nat, server: nat, begun: seq<Step>) returns (steps: seq<Step>)
    requires m.limit >= 1 && 1 <= waiting <= m.callers && LAST <= server <= LAST + m.late
    requires Reaches(begun, m, Emptied(m.limit, 1, server))
    ensures Reaches(steps, m, Emptied(m.limit, waiting, server))
  {
    if waiting == 1 {
      steps := begun;
    } else {
      steps := EmptiedFills(m, waiting - 1, server, begun);
      var check := Check(LAST, server, m.limit);
      Extend(steps, m, Emptied(m.limit, waiting - 1, server), check);
      CopiesCount(waiting - 1, LAST, 0, 0);
      assert Apply(Emptied(m.limit, waiting - 1, server), check) == Emptied(m.limit, waiting, server);
      steps := steps + [check];
    }
  }

  lemma IllTimedBreaksTheBound(m: Setup) returns (steps: seq<Step>, s: State)
    requires m.limit >= 1 && m.callers >= 1 && !WellTimed(m)
    ensures Reaches(steps, m, s) && Admitted(s, LAST) == m.limit + m.callers
  {
    var server := if m.late > SLACK then TTL else WINDOW;
    if m.late > SLACK {
      steps := LateCheckFindsNothing(m);
    } else {
      steps := OvertakenCheckFindsNothing(m);
    }
    steps := EmptiedFills(m, m.callers, server, steps);
    s := Emptied(m.limit, m.callers, server);
    CopiesCount(m.limit, 0, -1, LAST);
    CopiesCount(m.callers, LAST, -1, LAST);
  }

  /** At most L + P - 1 admissions, those still in flight included, in the minute that ends at t. */
  predicate AtMost(s: State, t: int, m: Setup) {
    Between(s.log, t - 60_000, t) + Between(s.inFlight, t - 60_000, t) <= m.limit + m.callers - 1
  }

  /** The two timing conditions are exact. For every limit and degree of overlap, the bound L + P - 1 holds in
      all runs if and only if no check reaches Redis more than ten seconds late, and none that is late at all
      is overtaken by a later reading: one millisecond more of either and L + P get in. */
  lemma BoundHoldsIffWellTimed(m: Setup)
    requires m.limit >= 1 && m.callers >= 1
    ensures (forall steps, s, t :: Reaches(steps, m, s) ==> AtMost(s, t, m))
            <==> m.late <= 10_000 && (m.late <= 0 || m.overtaken <= 0)
  {
    if WellTimed(m) {
      forall steps, s, t | Reaches(steps, m, s)
        ensures AtMost(s, t, m)
      {
        WindowBound(steps, m, s, t);
      }
    } else {
      var steps, s := IllTimedBreaksTheBound(m);
      assert Reaches(steps, m, s) && !AtMost(s, LAST, m);
    }
  }

  /** The key agrees with the log of all admissions, as of the last clock reading and the last pipeline. */
  ghost predicate Agrees(k: Key, log: seq<nat>, lastNow: nat, lastServer: int) {
    Faithful(State(k, [], log, lastNow, lastServer))
  }

  /** A request on time whose pipelines are answered is admitted if and only if the log has fewer than `limit`
      admissions in the 60000 ms up to its clock reading; and the key it leaves agrees with the log again. */
  ghost predicate DecidesByLog(log: seq<nat>, lastNow: nat, lastServer: int, limit: int, now: nat, checkAt: int,
                               check: Exec, addAt: int, add: Exec, allowed: Option<bool>, key: Key) {
    lastNow <= now <= checkAt <= now + 10_000 && lastServer <= checkAt <= addAt && check == add == Answered ==>
      && allowed == Some(Between(log, now - 60_000, now) < limit)
      && Agrees(key, if allowed.value then log + [now] else log, now, if allowed.value then addAt else checkAt)
  }

  lemma {:induction false} AboveIsBetween(scores: seq<nat>, lo: int, hi: int)
    requires forall i :: 0 <= i < |scores| ==> scores[i] <= hi
    ensures Above(scores, lo) == Between(scores, lo, hi)
  {
    if scores != [] { AboveIsBetween(scores[..|scores| - 1], lo, hi); }
  }

  lemma RequestDecidesByLog(k: Key, log: seq<nat>, lastNow: nat, lastServer: int, limit: int, now: nat, checkAt: int, addAt: int)
    requires Agrees(k, log, lastNow, lastServer)
    ensures var checked := AfterCheck(k, now, checkAt);
            var admitted := |checked.scores| < limit;
            DecidesByLog(log, lastNow, lastServer, limit, now, checkAt, Answered, addAt, Answered, Some(admitted),
                         if admitted then AfterAdd(checked, now, addAt) else checked)
  {
    if lastNow <= now <= checkAt <= now + 10_000 && lastServer <= checkAt <= addAt {
      var s := State(k, [], log, lastNow, lastServer);
      CheckCountsTheLog(s, now, checkAt);
      AboveIsBetween(log, now - WINDOW, now);
      var st, m := Check(now, checkAt, limit), Setup(Max(0, limit), 1, SLACK, 0);
      CheckKeepsFaithful(s, st, m);
      if Admits(s, st) {
        var s1 := Apply(s, st);
        assert s1.inFlight == [now] && Without([now], 0) == [];
        AddKeepsFaithful(s1, Add(0, addAt), m);
      }
    }
  }

  // Whole requests --------------------------------------------------------------------------------

  /** One Allow whose two pipelines run together at `server`. */
  datatype Request = Request(now: nat, server: int, limit: int)

  ghost predicate Timely(reqs: seq<Request>) {
    && (forall i :: 0 <= i < |reqs| ==> reqs[i].now <= reqs[i].server <= reqs[i].now + 10_000)
    && (forall i, j :: 0 <= i < j < |reqs| ==> reqs[i].now <= reqs[j].now && reqs[i].server <= reqs[j].server)
  }

  function KeyRun(reqs: seq<Request>): (Key, seq<bool>) {
    if reqs == [] then (NO_KEY, [])
    else
      var (k, answers) := KeyRun(reqs[..|reqs| - 1]);
      var r := reqs[|reqs| - 1];
      var checked := AfterCheck(k, r.now, r.server);
      if |checked.scores| < r.limit then (AfterAdd(checked, r.now, r.server), answers + [true])
      else (checked, answers + [false])
  }

  /** The reference: remember every admission for ever and look at the last minute. */
  function LogRun(reqs: seq<Request>): (seq<nat>, seq<bool>) {
    if reqs == [] then ([], [])
    else
      var (log, answers) := LogRun(reqs[..|reqs| - 1]);
      var r := reqs[|reqs| - 1];
      if Above(log, r.now - 60_000) < r.limit then (log + [r.now], answers + [true])
      else (log, answers + [false])
  }

  lemma {:induction false} RunsAgree(reqs: seq<Request>)
    requires Timely(reqs)
    ensures KeyRun(reqs).1 == LogRun(reqs).1
    ensures var r := if reqs == [] then Request(0, 0, 0) else reqs[|reqs| - 1];
            Faithful(State(KeyRun(reqs).0, [], LogRun(reqs).0, r.now, r.server))
    decreases |reqs|
  {
    if reqs != [] {
      var front := reqs[..|reqs| - 1];
      RunsAgree(front);
      var before := if front == [] then Request(0, 0, 0) else front[|front| - 1];
      RequestAgrees(State(KeyRun(front).0, [], LogRun(front).0, before.now, before.server), reqs[|reqs| - 1]);
    }
  }

  /** One request against an agreeing key and log. */
  lemma RequestAgrees(s: State, r: Request)
    requires Faithful(s) && s.inFlight == []
    requires s.lastNow <= r.now <= r.server <= r.now + SLACK && s.lastServer <= r.server
    ensures var checked := AfterCheck(s.key, r.now, r.server);
            && (|checked.scores| < r.limit <==> Above(s.log, r.now - WINDOW) < r.limit)
            && Faithful(if |checked.scores| < r.limit
                        then State(AfterAdd(checked, r.now, r.server), [], s.log + [r.now], r.now, r.server)
                        else State(checked, [], s.log, r.now, r.server))
  {
    CheckCountsTheLog(s, r.now, r.server);
    var st, m := Check(r.now, r.server, r.limit), Setup(Max(0, r.limit), 1, SLACK, 0);
    CheckKeepsFaithful(s, st, m);
    if Admits(s, st) {
      var s1 := Apply(s, st);
      assert s1.inFlight == [r.now];
      AddKeepsFaithful(s1, Add(0, r.server), m);
      assert Without([r.now], 0) == [];
    }
  }

  /** Pruning and expiry never change an answer: request by request the trimmed set decides as the log. */
  lemma TrimmedSetDecidesAsLog(reqs: seq<Request>)
    requires Timely(reqs)
    ensures KeyRun(reqs).1 == LogRun(reqs).1
  {
    RunsAgree(reqs);
  }
}
