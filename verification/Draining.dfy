/** However the fleet and the scheduler choose: steps that do their work use up a measure, so the work before
    any state is bounded and every fair run drains. */
module Draining {
  import opened Domain
  import opened Lifecycle
  import opened Progress
  import CB = CircuitBreaker
  import Scheduling

  /** A step that does its work: time passes; the scheduler marks what it published; or a message is consumed
      that names nothing open, or whose event the breaker admits, the lookup answers and the status write
      settles. Which message, whose event, what reply and how many publishes fail is left open. */
  predicate Works(c: CB.Config, s: State, a: Action) {
    match a
    case Tick(_) => true
    case Schedule(_, batch, published, stored) => Published(batch, published) <= stored
    case Dispatch(id, env) =>
      env.committed &&
      (id in s.events && !s.events[id].Resolved() ==>
         env.statusStored && (Judge(c, s, id, env).Bury? || Judge(c, s, id, env) == Deliver))
    case _ => false
  }

  /** The messages a step consumes or publishes. */
  function Cost(a: Action): nat {
    match a
    case Dispatch(_, _) => 1
    case Schedule(_, batch, published, _) => |Published(batch, published)|
    case _ => 0
  }

  ghost predicate Lists(ids: seq<string>, events: Events) {
    Distinct(ids) && forall id :: id in ids <==> id in events
  }

  function Measure(s: State, ids: seq<string>): int {
    2 * TotalRank(s.events, ids) + |s.topic|
  }

  lemma CommonWithFirst(ids: seq<string>, moved: set<string>)
    requires Distinct(ids) && ids != []
    ensures |moved * Scheduling.Ids(ids)| == |moved * Scheduling.Ids(ids[1..])| + if ids[0] in moved then 1 else 0
  {
    var first, rest := ids[0], Scheduling.Ids(ids[1..]);
    assert first !in ids[1..];
    assert Scheduling.Ids(ids) == rest + {first};
    if first in moved {
      assert moved * (rest + {first}) == (moved * rest) + {first};
    } else {
      assert moved * (rest + {first}) == moved * rest;
    }
  }

  lemma {:induction false} TotalRankDrops(events: Events, events': Events, ids: seq<string>, moved: set<string>)
    requires Distinct(ids) && events.Keys == events'.Keys && moved <= events.Keys
    requires forall id :: id in events ==> Rank(events'[id]) <= Rank(events[id]) - if id in moved then 1 else 0
    ensures TotalRank(events', ids) + |moved * Scheduling.Ids(ids)| <= TotalRank(events, ids)
  {
    if ids != [] {
      TotalRankDrops(events, events', ids[1..], moved);
      CommonWithFirst(ids, moved);
    }
  }

  /** Requeueing lowers the rank of what it published by one and of nothing else. */
  lemma RequeueMoves(s: State, limit: nat, batch: seq<string>, published: set<string>, stored: set<string>)
    requires EarliestDue(s.events, s.now, limit, batch) && Published(batch, published) <= stored
    ensures var s', moved := Requeue(s, batch, published, stored), Published(batch, published);
            && moved <= s.events.Keys == s'.events.Keys
            && forall id :: id in s.events ==>
                 Rank(s'.events[id]) == Rank(s.events[id]) - if id in moved then 1 else 0
  {
    forall id | id in batch
      ensures id in s.events && s.events[id].status == Retrying
    {
      assert id in DueIds(s.events, s.now);
    }
  }

  lemma ScheduleLowersMeasure(c: CB.Config, s: State, a: Action, ids: seq<string>)
    requires Budgeted(s) && Lists(ids, s.events) && Enabled(s, a) && Works(c, s, a) && a.Schedule?
    ensures Measure(Apply(c, s, a), ids) + Cost(a) <= Measure(s, ids)
  {
    var s', moved := Apply(c, s, a), Published(a.batch, a.publishedIds);
    RequeueMoves(s, a.limit, a.batch, a.publishedIds, a.storedIds);
    TotalRankDrops(s.events, s'.events, ids, moved);
    assert moved * Scheduling.Ids(ids) == moved;
    assert s'.topic == s.topic + multiset(moved);
  }

  lemma DispatchLowersMeasure(c: CB.Config, s: State, a: Action, ids: seq<string>)
    requires Budgeted(s) && Lists(ids, s.events) && Enabled(s, a) && Works(c, s, a) && a.Dispatch?
    ensures Measure(Apply(c, s, a), ids) + Cost(a) <= Measure(s, ids)
  {
    var s' := Apply(c, s, a);
    forall id | id in s.events
      ensures Rank(s'.events[id]) <= Rank(s.events[id])
    {
      EffectLowersRank(c, s, a, id);
    }
    TotalRankDrops(s.events, s'.events, ids, {});
  }

  /** The steps of the driver in Progress are of this kind. */
  lemma CooperationWorks(c: CB.Config, o: Oracle, limit: nat, s: State, a: Action)
    requires Cooperative(c, o, limit, s, a)
    ensures Works(c, s, a)
  {
  }

  /** Every working step lowers the measure by at least the messages it handles, whatever it finds and however
      its endpoint replies. */
  lemma WorkLowersMeasure(c: CB.Config, s: State, a: Action, ids: seq<string>)
    requires Healthy(s) && Lists(ids, s.events) && Enabled(s, a) && Works(c, s, a)
    ensures Healthy(Apply(c, s, a)) && Apply(c, s, a).events.Keys == s.events.Keys
    ensures Measure(Apply(c, s, a), ids) + Cost(a) <= Measure(s, ids)
  {
    StepKeepsBudgets(c, s, a);
    forall id
      ensures Safe(Apply(c, s, a), id)
    {
      assert Safe(s, id);
      LostExactlyWhenListed(c, s, a, id);
    }
    match a {
      case Schedule(_, _, _, _) => ScheduleLowersMeasure(c, s, a, ids);
      case Dispatch(_, _) => DispatchLowersMeasure(c, s, a, ids);
      case Tick(_) =>
    }
  }

  ghost predicate WorkingRun(c: CB.Config, r: Run) {
    && Legal(c, r)
    && forall i {:trigger r.actions[i]} :: 0 <= i < |r.actions| ==> Works(c, r.states[i], r.actions[i])
  }

  /** The messages the first k steps consumed or published. */
  function Work(actions: seq<Action>, k: nat): nat
    requires k <= |actions|
  {
    if k == 0 then 0 else Work(actions, k - 1) + Cost(actions[k - 1])
  }

  /** Over every run of working steps from a state with no event lost, in whatever order and whatever endpoints
      reply: no event is lost, and the deliveries made and events requeued stay within the measure. */
  lemma {:induction false} WorkIsBounded(c: CB.Config, r: Run, k: nat, ids: seq<string>)
    requires WorkingRun(c, r) && k < |r.states| && Healthy(r.states[0]) && Lists(ids, r.states[0].events)
    ensures Healthy(r.states[k]) && r.states[k].events.Keys == r.states[0].events.Keys
    ensures Work(r.actions, k) + Measure(r.states[k], ids) <= Measure(r.states[0], ids)
    ensures Work(r.actions, k) <= Measure(r.states[0], ids)
  {
    if k > 0 {
      WorkIsBounded(c, r, k - 1, ids);
      assert Works(c, r.states[k - 1], r.actions[k - 1]);
      WorkLowersMeasure(c, r.states[k - 1], r.actions[k - 1], ids);
    }
    TotalRankNatural(r.states[k].events, ids);
  }

  /** The driver's runs in Progress are of this kind, so its work is bounded the same way. */
  lemma DriversWorkIsBounded(c: CB.Config, o: Oracle, limit: nat, r: Run, ids: seq<string>)
    requires Plan(c, o, limit, r) && Healthy(r.states[0]) && Lists(ids, r.states[0].events)
    ensures Work(r.actions, |r.actions|) <= Measure(r.states[0], ids)
  {
    forall i | 0 <= i < |r.actions|
      ensures Works(c, r.states[i], r.actions[i])
    {
      CooperationWorks(c, o, limit, r.states[i], r.actions[i]);
    }
    WorkIsBounded(c, r, |r.actions|, ids);
  }

  /** When no message is out and nothing waits for a retry there is no work left, and then only: with no event
      lost, every one is resolved. */
  lemma IdleMeansDrained(s: State)
    requires Healthy(s) && s.topic == multiset{}
    ensures (forall id :: id in s.events ==> s.events[id].status != Retrying) <==> Drained(s)
  {
    forall id | id in s.events && s.events[id].status != Retrying
      ensures s.events[id].Resolved()
    {
      assert Safe(s, id);
    }
  }

  // Fair runs -----------------------------------------------------------------------------------------

  /** Step i of a run without end. */
  ghost predicate StepAt(c: CB.Config, states: nat -> State, actions: nat -> Action, i: nat) {
    && Enabled(states(i), actions(i)) && Works(c, states(i), actions(i))
    && states(i + 1) == Apply(c, states(i), actions(i))
  }

  ghost predicate Endless(c: CB.Config, states: nat -> State, actions: nat -> Action) {
    forall i: nat :: StepAt(c, states, actions, i)
  }

  /** The clock passes the instant. */
  ghost predicate ClockPasses(states: nat -> State, at: int) {
    exists i: nat :: states(i).now >= at
  }

  /** If messages are out at i, some message is fetched then or later. */
  ghost predicate FetchComes(states: nat -> State, actions: nat -> Action, i: nat) {
    states(i).topic != multiset{} ==> exists j: nat :: i <= j && actions(j).Dispatch?
  }

  predicate DueAt(s: State, id: string) { id in DueIds(s.events, s.now) }

  /** If the event is due at i, it is not for ever. */
  ghost predicate DueEnds(states: nat -> State, i: nat, id: string) {
    DueAt(states(i), id) ==> exists j: nat :: i <= j && !DueAt(states(j), id)
  }

  /** A run without end in which the clock runs, fetching goes on while messages are out, and no event stays due. */
  ghost predicate Fair(c: CB.Config, states: nat -> State, actions: nat -> Action) {
    && Endless(c, states, actions)
    && (forall at :: ClockPasses(states, at))
    && (forall i: nat :: FetchComes(states, actions, i))
    && (forall i: nat, id :: DueEnds(states, i, id))
  }

  lemma StepLowers(c: CB.Config, states: nat -> State, actions: nat -> Action, ids: seq<string>, i: nat)
    requires StepAt(c, states, actions, i) && Healthy(states(i)) && Lists(ids, states(i).events)
    ensures Healthy(states(i + 1)) && Lists(ids, states(i + 1).events)
    ensures Measure(states(i + 1), ids) + Cost(actions(i)) <= Measure(states(i), ids)
  {
    WorkLowersMeasure(c, states(i), actions(i), ids);
  }

  lemma {:induction false} MeasureNeverRises(c: CB.Config, states: nat -> State, actions: nat -> Action,
                                             ids: seq<string>, i: nat, k: nat)
    requires Endless(c, states, actions) && Healthy(states(i)) && Lists(ids, states(i).events) && i <= k
    ensures Healthy(states(k)) && Lists(ids, states(k).events)
    ensures Measure(states(k), ids) <= Measure(states(i), ids)
    decreases k
  {
    if i < k {
      MeasureNeverRises(c, states, actions, ids, i, k - 1);
      assert StepAt(c, states, actions, k - 1);
      StepLowers(c, states, actions, ids, k - 1);
    }
  }

  /** A step that handles no message leaves every row alone. */
  lemma IdleStep(c: CB.Config, s: State, a: Action)
    requires Works(c, s, a) && Cost(a) == 0
    ensures Apply(c, s, a).events == s.events && Apply(c, s, a).now >= s.now
  {
    if a.Schedule? {
      assert Published(a.batch, a.publishedIds) == {};
      assert forall id :: !(id in a.batch && id in a.publishedIds) by {
        assert forall id :: id in a.batch && id in a.publishedIds ==> id in Published(a.batch, a.publishedIds);
      }
    }
  }

  lemma {:induction false} ClockNeverRunsBack(c: CB.Config, states: nat -> State, actions: nat -> Action, i: nat, k: nat)
    requires Endless(c, states, actions) && i <= k
    ensures states(i).now <= states(k).now
    decreases k
  {
    if i < k {
      ClockNeverRunsBack(c, states, actions, i, k - 1);
      assert StepAt(c, states, actions, k - 1);
    }
  }

  /** Between two instants either some message was handled or no row changed. */
  lemma {:induction false} WorkOrStill(c: CB.Config, states: nat -> State, actions: nat -> Action, i: nat, k: nat)
      returns (j: nat)
    requires Endless(c, states, actions) && i <= k
    ensures (i <= j && Cost(actions(j)) >= 1) || states(k).events == states(i).events
    decreases k
  {
    j := 0;
    if i < k {
      j := WorkOrStill(c, states, actions, i, k - 1);
      assert StepAt(c, states, actions, k - 1);
      if Cost(actions(k - 1)) >= 1 {
        j := k - 1;
      } else {
        IdleStep(c, states(k - 1), actions(k - 1));
      }
    }
  }

  /** An event that waits for its retry comes due, and then work is done. */
  lemma WaitingBringsWork(c: CB.Config, states: nat -> State, actions: nat -> Action, i: nat, id: string) returns (j: nat)
    requires Fair(c, states, actions)
    requires id in states(i).events && states(i).events[id].status == Retrying && states(i).events[id].nextRetryAt.Some?
    ensures i <= j && Cost(actions(j)) >= 1
  {
    var e := states(i).events[id];
    assert ClockPasses(states, e.nextRetryAt.value);
    var at: nat :| states(at).now >= e.nextRetryAt.value;
    var due: nat := if at < i then i else at;
    ClockNeverRunsBack(c, states, actions, at, due);
    j := WorkOrStill(c, states, actions, i, due);
    if !(i <= j && Cost(actions(j)) >= 1) {
      assert DueAt(states(due), id) && DueEnds(states, due, id);
      var gone: nat :| due <= gone && !DueAt(states(gone), id);
      ClockNeverRunsBack(c, states, actions, due, gone);
      j := WorkOrStill(c, states, actions, due, gone);
    }
  }

  /** Until everything is resolved there is always work to come. */
  lemma WorkGoesOn(c: CB.Config, states: nat -> State, actions: nat -> Action, i: nat) returns (j: nat)
    requires Fair(c, states, actions) && Healthy(states(i)) && !Drained(states(i))
    ensures i <= j && Cost(actions(j)) >= 1
  {
    if states(i).topic != multiset{} {
      assert FetchComes(states, actions, i);
      j :| i <= j && actions(j).Dispatch?;
    } else {
      IdleMeansDrained(states(i));
      var id :| id in states(i).events && states(i).events[id].status == Retrying;
      j := WaitingBringsWork(c, states, actions, i, id);
    }
  }

  lemma WorkLowers(c: CB.Config, states: nat -> State, actions: nat -> Action, ids: seq<string>, i: nat, j: nat)
    requires Endless(c, states, actions) && Healthy(states(i)) && Lists(ids, states(i).events)
    requires i <= j && Cost(actions(j)) >= 1
    ensures Healthy(states(j + 1)) && Lists(ids, states(j + 1).events)
    ensures Measure(states(j + 1), ids) < Measure(states(i), ids)
  {
    MeasureNeverRises(c, states, actions, ids, i, j);
    assert StepAt(c, states, actions, j);
    StepLowers(c, states, actions, ids, j);
  }

  lemma {:induction false} DrainedWithin(c: CB.Config, states: nat -> State, actions: nat -> Action,
                                         ids: seq<string>, i: nat, budget: nat) returns (n: nat)
    requires Fair(c, states, actions) && Healthy(states(i)) && Lists(ids, states(i).events)
    requires Measure(states(i), ids) <= budget
    ensures i <= n && Drained(states(n)) && Healthy(states(n))
    decreases budget
  {
    if Drained(states(i)) {
      n := i;
    } else {
      var j := WorkGoesOn(c, states, actions, i);
      WorkLowers(c, states, actions, ids, i, j);
      TotalRankNatural(states(j + 1).events, ids);
      n := DrainedWithin(c, states, actions, ids, j + 1, budget - 1);
    }
  }

  lemma {:induction false} StaysDrained(c: CB.Config, states: nat -> State, actions: nat -> Action, n: nat, k: nat)
    requires Endless(c, states, actions) && n <= k && Drained(states(n)) && Healthy(states(n))
    ensures Drained(states(k)) && Healthy(states(k)) && states(k).events == states(n).events
    decreases k
  {
    if n < k {
      StaysDrained(c, states, actions, n, k - 1);
      assert StepAt(c, states, actions, k - 1);
      StepLeavesDrained(c, states(k - 1), actions(k - 1));
    }
  }

  lemma StepLeavesDrained(c: CB.Config, s: State, a: Action)
    requires Healthy(s) && Drained(s) && Enabled(s, a) && Works(c, s, a)
    ensures Healthy(Apply(c, s, a)) && Apply(c, s, a).events == s.events
  {
    var ids := Listing(s.events.Keys);
    WorkLowersMeasure(c, s, a, ids);
    forall id | id in s.events
      ensures Apply(c, s, a).events[id] == s.events[id]
    {
      EffectLowersRank(c, s, a, id);
    }
  }

  /** Every endless run from a state with no event lost drains, whichever messages the fleet picked first and
      whatever the endpoints replied: from some instant on every event is resolved for good. All it takes is
      that the clock runs, that fetching goes on while messages are out, and that no event stays due for ever. */
  lemma FairRunsDrain(c: CB.Config, states: nat -> State, actions: nat -> Action) returns (n: nat)
    requires Fair(c, states, actions) && Healthy(states(0))
    ensures forall k: nat :: n <= k ==> Drained(states(k)) && states(k).events == states(n).events
  {
    var ids := Listing(states(0).events.Keys);
    TotalRankNatural(states(0).events, ids);
    n := DrainedWithin(c, states, actions, ids, 0, Measure(states(0), ids));
    forall k: nat | n <= k
      ensures Drained(states(k)) && states(k).events == states(n).events
    {
      StaysDrained(c, states, actions, n, k);
    }
  }
}
