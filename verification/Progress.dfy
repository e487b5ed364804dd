/** No event is forgotten, except where the code forgets it; and every event comes to an end. */
module Progress {
  import opened Prelude
  import opened Domain
  import opened Lifecycle
  import CB = CircuitBreaker
  import Scheduling

  // No event is lost --------------------------------------------------------------------------------

  /** The event is resolved, waits for the scheduler, or has a message that will bring it up. */
  predicate Safe(s: State, id: string) {
    id in s.events ==> s.events[id].Resolved() || s.events[id].status == Retrying || id in s.topic
  }

  /** The complete list of the ways an event is forgotten: Create could not publish it (and no stray
      message names it); or its only message
      was consumed while it was neither resolved nor retrying, and the row could not be read, the lock was
      refused, the breaker refused or could not be read, the endpoint could not be read, or the new status
      was not stored. */
  predicate Forgets(c: CB.Config, s: State, a: Action, id: string) {
    match a
    case Create(x, _, _, _, _, _, published, _) => x == id && !published && id !in s.topic
    case Dispatch(x, env) =>
      && x == id && id in s.events && s.events[id].status != Retrying && !s.events[id].Resolved()
      && env.committed && s.topic[id] == 1
      && (env.readFails || !env.locked
          || Judge(c, s, id, env) == Refuse || Judge(c, s, id, env) == Abort || !env.statusStored)
    case _ => false
  }

  lemma DispatchForgets(c: CB.Config, s: State, x: string, env: Env, id: string)
    requires Safe(s, id) && x in s.topic
    ensures Safe(Process(c, s, x, env), id) <==> !Forgets(c, s, Dispatch(x, env), id)
  {
    var s' := Process(c, s, x, env);
    assert s'.topic[id] == if x == id && env.committed then s.topic[id] - 1 else s.topic[id];
  }

  /** From any state whatever, a step leaves a safe event safe exactly when it is not on that list. */
  lemma LostExactlyWhenListed(c: CB.Config, s: State, a: Action, id: string)
    requires Safe(s, id) && Enabled(s, a)
    ensures Safe(Apply(c, s, a), id) <==> !Forgets(c, s, a, id)
  {
    match a {
      case Dispatch(x, env) => DispatchForgets(c, s, x, env, id);
      case Schedule(limit, batch, published, stored) =>
        if id in batch {
          assert id in DueIds(s.events, s.now);
        }
      case _ =>
    }
  }

  /** So over a whole run that never takes a listed step, every stored event stays safe. */
  lemma {:induction false} NothingIsLost(c: CB.Config, r: Run, k: nat, id: string)
    requires LegalFromStart(c, r) && k < |r.states|
    requires forall i {:trigger r.actions[i]} :: 0 <= i < |r.actions| ==> !Forgets(c, r.states[i], r.actions[i], id)
    ensures Safe(r.states[k], id)
  {
    if k > 0 {
      NothingIsLost(c, r, k - 1, id);
      LostExactlyWhenListed(c, r.states[k - 1], r.actions[k - 1], id);
    }
  }

  // Every effective step is progress -------------------------------------------------------------------

  /** Steps an event has before it at most. */
  function Rank(e: Event): int {
    if e.Resolved() then 0
    else 2 * (e.maxAttempts - e.attemptCount) + if e.status == Queued then 1 else 2
  }

  predicate WithinBudget(e: Event) { 0 <= e.attemptCount < e.maxAttempts }

  /** Whichever writes fail: a step either leaves an event's row as it is or lowers its rank. */
  lemma EffectLowersRank(c: CB.Config, s: State, a: Action, id: string)
    requires Enabled(s, a) && id in s.events && WithinBudget(s.events[id])
    ensures id in Apply(c, s, a).events && WithinBudget(Apply(c, s, a).events[id])
    ensures var e, e' := s.events[id], Apply(c, s, a).events[id];
            0 <= Rank(e') && (e' != e ==> Rank(e') < Rank(e))
  {
    if a.Schedule? && id in a.batch {
      assert id in DueIds(s.events, s.now);
    }
  }

  /** How often an event's row changed up to state k of a run. */
  function Changes(states: seq<State>, k: nat, id: string): nat
    requires k < |states|
  {
    if k == 0 then 0
    else
      var before, after := states[k - 1].events, states[k].events;
      Changes(states, k - 1, id) + if id in before && id in after && before[id] != after[id] then 1 else 0
  }

  /** However long a run, with every kind of failure and repetition, it changes an event's row at most as
      often as its rank: twelve times from creation. */
  lemma {:induction false} ChangesAreBounded(c: CB.Config, r: Run, k: nat, id: string)
    requires Legal(c, r) && k < |r.states|
    requires id in r.states[0].events && WithinBudget(r.states[0].events[id])
    ensures id in r.states[k].events && WithinBudget(r.states[k].events[id])
    ensures Changes(r.states, k, id) + Rank(r.states[k].events[id]) <= Rank(r.states[0].events[id])
    ensures Changes(r.states, k, id) <= Rank(r.states[0].events[id])
  {
    if k > 0 {
      ChangesAreBounded(c, r, k - 1, id);
      EffectLowersRank(c, r.states[k - 1], r.actions[k - 1], id);
    }
  }

  // The queue drains -----------------------------------------------------------------------------------

  function TotalRank(events: Events, ids: seq<string>): int {
    if ids == [] then 0
    else TotalRank(events, ids[1..]) + if ids[0] in events then Rank(events[ids[0]]) else 0
  }

  ghost predicate Drained(s: State) {
    forall id :: id in s.events ==> s.events[id].Resolved()
  }

  /** What a delivery may meet in any state: lookup, reply, the time it takes, the tenant's retry base and the
      random draw. Nothing is assumed of any of them. */
  type Oracle = (State, string) -> (Target, Reply, nat, RetryBase, nat)

  /** No store failure; the lock is free; all else as the oracle likes, except that lookups do answer. */
  function Answer(o: Oracle, s: State, id: string): Env {
    var (target, reply, took, base, draw) := o(s, id);
    Env(false, true, false, false, if target == Unreadable then Inactive else target, reply, took,
        base, draw, true, CB.NO_FAULTS, true, true, true)
  }

  lemma {:induction false} TotalRankFalls(events: Events, events': Events, ids: seq<string>, moved: string)
    requires events.Keys == events'.Keys
    requires forall id :: id in events ==> events[id] == events'[id] || Rank(events'[id]) < Rank(events[id])
    ensures TotalRank(events', ids) <= TotalRank(events, ids)
    ensures moved in ids && moved in events && events'[moved] != events[moved] ==>
            TotalRank(events', ids) < TotalRank(events, ids)
  {
    if ids != [] {
      TotalRankFalls(events, events', ids[1..], moved);
    }
  }

  lemma {:induction false} TotalRankNatural(events: Events, ids: seq<string>)
    requires forall id :: id in events ==> WithinBudget(events[id])
    ensures TotalRank(events, ids) >= 0
  {
    if ids != [] { TotalRankNatural(events, ids[1..]); }
  }

  ghost predicate Healthy(s: State) {
    forall id :: id in s.events ==> WithinBudget(s.events[id]) && Safe(s, id)
                                    && (s.events[id].status == Retrying ==> s.events[id].nextRetryAt.Some?)
  }

  /** Some wait lets the breaker of an endpoint admit. */
  lemma WaitForBreaker(c: CB.Config, s: State, ep: string) returns (ns: nat)
    ensures CB.Passes(c, s.breaker, ep, Unix(s.now + ns))
  {
    var last := if ep in s.breaker.lastFailure then s.breaker.lastFailure[ep] else 0;
    ns := Max(0, (last + c.timeout + 1) * SECOND - s.now);
    assert s.now + ns >= (last + c.timeout + 1) * SECOND;
    assert Unix(s.now + ns) >= last + c.timeout + 1;
  }

  lemma DispatchStepProgress(c: CB.Config, s: State, id: string, o: Oracle)
    requires Healthy(s) && id in s.topic
    requires id in s.events ==> CB.Passes(c, s.breaker, s.events[id].endpoint, Unix(s.now))
    ensures var s' := Process(c, s, id, Answer(o, s, id));
            && Healthy(s') && s'.events.Keys == s.events.Keys
            && (forall x :: x in s.events && x != id ==> s'.events[x] == s.events[x])
            && (id in s.events && !s.events[id].Resolved() ==> Rank(s'.events[id]) < Rank(s.events[id]))
            && (id in s.events && s.events[id].Resolved() ==> s'.events[id] == s.events[id])
            && |s'.topic| < |s.topic|
  {
    var env := Answer(o, s, id);
    var s' := Process(c, s, id, env);
    if id in s.events && !s.events[id].Resolved() {
      assert Judge(c, s, id, env) == Deliver || Judge(c, s, id, env).Bury?;
      EffectLowersRank(c, s, Dispatch(id, env), id);
    }
    forall x | x in s'.events
      ensures WithinBudget(s'.events[x]) && Safe(s', x)
              && (s'.events[x].status == Retrying ==> s'.events[x].nextRetryAt.Some?)
    {
      EffectLowersRank(c, s, Dispatch(id, env), x);
      DispatchForgets(c, s, id, env, x);
    }
  }

  /** What the driver below may do: wait, let the scheduler requeue a full batch, or deliver one message the
      breaker admits, meeting what the oracle says. */
  ghost predicate Cooperative(c: CB.Config, o: Oracle, limit: nat, s: State, a: Action) {
    match a
    case Tick(_) => true
    case Schedule(l, batch, published, stored) =>
      l == limit && (forall id :: id in batch ==> id in published && id in stored)
    case Dispatch(id, env) =>
      env == Answer(o, s, id) && (id in s.events ==> CB.Passes(c, s.breaker, s.events[id].endpoint, Unix(s.now)))
    case _ => false
  }

  ghost predicate Plan(c: CB.Config, o: Oracle, limit: nat, r: Run) {
    && Legal(c, r)
    && forall i {:trigger r.actions[i]} :: 0 <= i < |r.actions| ==> Cooperative(c, o, limit, r.states[i], r.actions[i])
  }

  lemma PlanOneMore(c: CB.Config, o: Oracle, limit: nat, r: Run, a: Action)
    requires Plan(c, o, limit, r) && Enabled(Last(r), a) && Cooperative(c, o, limit, Last(r), a)
    ensures Plan(c, o, limit, Extend(c, r, a))
    ensures Last(Extend(c, r, a)) == Apply(c, Last(r), a) && Extend(c, r, a).states[0] == r.states[0]
  {
    ExtendIsLegal(c, r, a);
    var r' := Extend(c, r, a);
    forall i | 0 <= i < |r'.actions|
      ensures Cooperative(c, o, limit, r'.states[i], r'.actions[i])
    {
      if i < |r.actions| {
        assert r'.actions[i] == r.actions[i];
      }
    }
  }

  lemma ScheduleStepProgress(s: State, limit: nat, batch: seq<string>)
    requires Healthy(s) && EarliestDue(s.events, s.now, limit, batch) && batch != []
    ensures var all := set id | id in batch;
            var s' := Requeue(s, batch, all, all);
            && Healthy(s') && s'.events.Keys == s.events.Keys && batch[0] in s.events
            && (forall x :: x in s.events ==> s'.events[x] == s.events[x] || Rank(s'.events[x]) < Rank(s.events[x]))
            && s'.events[batch[0]] != s.events[batch[0]]
  {
    var all := set id | id in batch;
    var s' := Requeue(s, batch, all, all);
    assert batch[0] in DueIds(s.events, s.now);
    forall x | x in s'.events
      ensures WithinBudget(s'.events[x]) && Safe(s', x)
              && (s'.events[x].status == Retrying ==> s'.events[x].nextRetryAt.Some?)
      ensures s'.events[x] == s.events[x] || Rank(s'.events[x]) < Rank(s.events[x])
    {
      var a := Schedule(limit, batch, all, all);
      var c := CB.Config(0, 0);
      assert s' == Apply(c, s, a);
      EffectLowersRank(c, s, a, x);
      LostExactlyWhenListed(c, s, a, x);
    }
  }

  /** The driver's run so far, with nothing lost and no event added. */
  ghost predicate Underway(c: CB.Config, o: Oracle, limit: nat, r: Run) {
    Plan(c, o, limit, r) && Healthy(Last(r)) && Last(r).events.Keys == r.states[0].events.Keys
  }

  lemma WaitIsHealthy(s: State, ns: nat)
    requires Healthy(s)
    ensures Healthy(s.(now := s.now + ns))
  {
    assert forall id :: id in s.events ==> Safe(s, id);
  }

  lemma WaitAWhile(c: CB.Config, o: Oracle, limit: nat, r: Run, ns: nat) returns (r': Run)
    requires Underway(c, o, limit, r)
    ensures Underway(c, o, limit, r') && r'.states[0] == r.states[0] && Last(r') == Last(r).(now := Last(r).now + ns)
  {
    PlanOneMore(c, o, limit, r, Tick(ns));
    r' := Extend(c, r, Tick(ns));
    WaitIsHealthy(Last(r), ns);
  }

  lemma DispatchLowers(c: CB.Config, s: State, id: string, o: Oracle, ids: seq<string>)
    requires Healthy(s) && id in s.topic && forall x :: x in s.events ==> x in ids
    requires id in s.events ==> CB.Passes(c, s.breaker, s.events[id].endpoint, Unix(s.now))
    ensures var s' := Process(c, s, id, Answer(o, s, id));
            && Healthy(s') && s'.events.Keys == s.events.Keys
            && (TotalRank(s'.events, ids) < TotalRank(s.events, ids)
                || (s'.events == s.events && |s'.topic| < |s.topic|))
  {
    var s' := Process(c, s, id, Answer(o, s, id));
    DispatchStepProgress(c, s, id, o);
    TotalRankFalls(s.events, s'.events, ids, id);
    if s'.events != s.events {
      assert id in s.events && s'.events[id] != s.events[id];
    }
  }

  /** Deliver some message: an event moves, or a useless message is gone. */
  lemma DrainMessage(c: CB.Config, o: Oracle, limit: nat, r: Run, ids: seq<string>) returns (r': Run)
    requires Underway(c, o, limit, r) && Last(r).topic != multiset{}
    requires forall id :: id in Last(r).events ==> id in ids
    ensures Underway(c, o, limit, r') && r'.states[0] == r.states[0]
    ensures TotalRank(Last(r').events, ids) < TotalRank(Last(r).events, ids)
            || (Last(r').events == Last(r).events && |Last(r').topic| < |Last(r).topic|)
  {
    var s := Last(r);
    var id :| id in s.topic;
    var ns: nat := 0;
    if id in s.events {
      ns := WaitForBreaker(c, s, s.events[id].endpoint);
    }
    var w := WaitAWhile(c, o, limit, r, ns);
    var t := Last(w);
    var a := Dispatch(id, Answer(o, t, id));
    DispatchLowers(c, t, id, o, ids);
    PlanOneMore(c, o, limit, w, a);
    r' := Extend(c, w, a);
  }

  lemma ScheduleLowers(s: State, limit: nat, batch: seq<string>, ids: seq<string>)
    requires Healthy(s) && EarliestDue(s.events, s.now, limit, batch) && batch != []
    requires forall x :: x in s.events ==> x in ids
    ensures var all := set id | id in batch;
            var s' := Requeue(s, batch, all, all);
            Healthy(s') && s'.events.Keys == s.events.Keys && TotalRank(s'.events, ids) < TotalRank(s.events, ids)
  {
    var all := set id | id in batch;
    var s' := Requeue(s, batch, all, all);
    ScheduleStepProgress(s, limit, batch);
    TotalRankFalls(s.events, s'.events, ids, batch[0]);
  }

  /** With no message out, every unresolved event waits for the scheduler: let it requeue a batch. */
  lemma DrainBacklog(c: CB.Config, o: Oracle, limit: nat, r: Run, ids: seq<string>) returns (r': Run)
    requires Underway(c, o, limit, r) && Last(r).topic == multiset{} && !Drained(Last(r)) && limit >= 1
    requires forall id :: id in Last(r).events ==> id in ids
    ensures Underway(c, o, limit, r') && r'.states[0] == r.states[0]
    ensures TotalRank(Last(r').events, ids) < TotalRank(Last(r).events, ids)
  {
    var s := Last(r);
    var id :| id in s.events && !s.events[id].Resolved();
    assert Safe(s, id);
    var ns: nat := Max(0, s.events[id].nextRetryAt.value - s.now);
    var w := WaitAWhile(c, o, limit, r, ns);
    var t := Last(w);
    assert id in DueIds(t.events, t.now);
    var batch := Scheduling.EarliestDueExists(t.events, t.now, limit);
    var all := set x | x in batch;
    ScheduleLowers(t, limit, batch, ids);
    PlanOneMore(c, o, limit, w, Schedule(limit, batch, all, all));
    r' := Extend(c, w, Schedule(limit, batch, all, all));
  }

  lemma DrainListed(c: CB.Config, o: Oracle, limit: nat, from: State, ids: seq<string>) returns (r: Run)
    requires Healthy(from) && limit >= 1 && forall id :: id in from.events ==> id in ids
    ensures Underway(c, o, limit, r) && r.states[0] == from && Drained(Last(r))
  {
    r := Run([from], []);
    TotalRankNatural(from.events, ids);
    while !Drained(Last(r))
      invariant Underway(c, o, limit, r) && r.states[0] == from
      invariant TotalRank(Last(r).events, ids) >= 0
      decreases TotalRank(Last(r).events, ids), |Last(r).topic|
    {
      if Last(r).topic != multiset{} {
        r := DrainMessage(c, o, limit, r, ids);
      } else {
        r := DrainBacklog(c, o, limit, r, ids);
      }
      TotalRankNatural(Last(r).events, ids);
    }
  }

  lemma {:induction false} Listing(ids: set<string>) returns (list: seq<string>)
    ensures Distinct(list) && forall id :: id in ids <==> id in list
    decreases |ids|
  {
    if ids == {} {
      list := [];
    } else {
      var id :| id in ids;
      list := Listing(ids - {id});
      list := [id] + list;
    }
  }

  /** From any state in which no event has been lost, and whatever replies, delays, retry bases and draws the
      deliveries meet from then on, waiting, requeueing and delivering can bring every event to an end, with no
      message ever redelivered. */
  lemma EverythingDrains(c: CB.Config, o: Oracle, limit: nat, from: State) returns (r: Run)
    requires Healthy(from) && limit >= 1
    ensures Plan(c, o, limit, r) && r.states[0] == from
    ensures Last(r).events.Keys == from.events.Keys && Drained(Last(r))
  {
    var ids := Listing(from.events.Keys);
    r := DrainListed(c, o, limit, from, ids);
  }

  ghost predicate Budgeted(s: State) {
    forall id :: id in s.events ==>
      WithinBudget(s.events[id]) && (s.events[id].status == Retrying ==> s.events[id].nextRetryAt.Some?)
  }

  lemma StepKeepsBudgets(c: CB.Config, s: State, a: Action)
    requires Budgeted(s) && Enabled(s, a)
    ensures Budgeted(Apply(c, s, a))
  {
    var s' := Apply(c, s, a);
    forall id | id in s'.events
      ensures WithinBudget(s'.events[id]) && (s'.events[id].status == Retrying ==> s'.events[id].nextRetryAt.Some?)
    {
      if id in s.events {
        EffectLowersRank(c, s, a, id);
      }
    }
  }

  lemma {:induction false} RunKeepsBudgets(c: CB.Config, r: Run, k: nat)
    requires LegalFromStart(c, r) && k < |r.states|
    ensures Budgeted(r.states[k])
  {
    if k > 0 {
      RunKeepsBudgets(c, r, k - 1);
      StepKeepsBudgets(c, r.states[k - 1], r.actions[k - 1]);
    }
  }

  lemma UnforgettingRunIsHealthy(c: CB.Config, past: Run)
    requires LegalFromStart(c, past)
    requires forall i, id :: 0 <= i < |past.actions| ==> !Forgets(c, past.states[i], past.actions[i], id)
    ensures Healthy(Last(past))
  {
    RunKeepsBudgets(c, past, |past.actions|);
    forall id | id in Last(past).events
      ensures Safe(Last(past), id)
    {
      NothingIsLost(c, past, |past.actions|, id);
    }
  }

  /** So the queue of every run that took no forgetting step, whatever else failed in it, can be drained. */
  lemma UnforgettingRunsDrain(c: CB.Config, o: Oracle, limit: nat, past: Run) returns (rest: Run)
    requires LegalFromStart(c, past) && limit >= 1
    requires forall i, id :: 0 <= i < |past.actions| ==> !Forgets(c, past.states[i], past.actions[i], id)
    ensures Plan(c, o, limit, rest) && rest.states[0] == Last(past) && Drained(Last(rest))
  {
    UnforgettingRunIsHealthy(c, past);
    rest := EverythingDrains(c, o, limit, Last(past));
  }
}
