/** The scheduler's batches: which events a tick takes, and how many ticks empty the backlog. */
module Scheduling {
  import opened Prelude
  import opened Domain
  import opened Lifecycle

  ghost predicate AllDueSet(events: Events, ids: set<string>) {
    forall id :: id in ids ==> id in events && events[id].nextRetryAt.Some?
  }

  function DueAt(events: Events, id: string): int
    requires id in events && events[id].nextRetryAt.Some?
  {
    events[id].nextRetryAt.value
  }

  lemma {:induction false} EarliestOf(events: Events, ids: set<string>) returns (first: string)
    requires AllDueSet(events, ids) && ids != {}
    ensures first in ids && forall id :: id in ids ==> DueAt(events, first) <= DueAt(events, id)
    decreases |ids|
  {
    var some :| some in ids;
    var rest := ids - {some};
    first := some;
    if rest != {} {
      var other := EarliestOf(events, rest);
      if DueAt(events, other) < DueAt(events, some) {
        first := other;
      }
    }
    forall id | id in ids
      ensures DueAt(events, first) <= DueAt(events, id)
    {
      assert id in rest || id == some;
    }
  }

  /** The due query half way: `batch` are the earliest of the due events, `remaining` the others. */
  ghost predicate Selecting(events: Events, due: set<string>, batch: seq<string>, remaining: set<string>) {
    && AllDueSet(events, due) && remaining <= due && Distinct(batch) && |batch| + |remaining| == |due|
    && (forall id :: id in batch ==> id in due && id !in remaining)
    && (forall id :: id in due ==> id in remaining || id in batch)
    && (forall i, j :: 0 <= i < j < |batch| ==> DueAt(events, batch[i]) <= DueAt(events, batch[j]))
    && (forall i, id :: 0 <= i < |batch| && id in remaining ==> DueAt(events, batch[i]) <= DueAt(events, id))
  }

  lemma SelectOneMore(events: Events, due: set<string>, batch: seq<string>, remaining: set<string>, first: string)
    requires Selecting(events, due, batch, remaining) && first in remaining
    requires forall id :: id in remaining ==> DueAt(events, first) <= DueAt(events, id)
    ensures Selecting(events, due, batch + [first], remaining - {first})
  {
    var longer := batch + [first];
    assert forall i :: 0 <= i < |batch| ==> longer[i] == batch[i] && batch[i] in batch;
    assert forall id :: id in longer <==> id in batch || id == first;
  }

  lemma SelectedAreEarliest(events: Events, now: int, limit: nat, batch: seq<string>, remaining: set<string>)
    requires Selecting(events, DueIds(events, now), batch, remaining)
    requires |batch| == limit || (|batch| <= limit && remaining == {})
    ensures EarliestDue(events, now, limit, batch)
  {
    assert forall i :: 0 <= i < |batch| ==> batch[i] in batch;
  }

  /** The due query always has an answer, for every limit and every pattern of ties. */
  lemma EarliestDueExists(events: Events, now: int, limit: nat) returns (batch: seq<string>)
    ensures EarliestDue(events, now, limit, batch)
  {
    var due := DueIds(events, now);
    var remaining := due;
    batch := [];
    while |batch| < limit && remaining != {}
      invariant |batch| <= limit && Selecting(events, due, batch, remaining)
      decreases |remaining|
    {
      var first := EarliestOf(events, remaining);
      SelectOneMore(events, due, batch, remaining, first);
      batch, remaining := batch + [first], remaining - {first};
    }
    SelectedAreEarliest(events, now, limit, batch, remaining);
  }

  // Ticks ----------------------------------------------------------------------------------------

  function Ids(batch: seq<string>): set<string> { set id | id in batch }

  /** A tick whose publishes and updates all succeed. */
  function Tick(s: State, batch: seq<string>): State { Requeue(s, batch, Ids(batch), Ids(batch)) }

  lemma {:induction false} DistinctSize(ids: seq<string>)
    requires Distinct(ids)
    ensures |Ids(ids)| == |ids|
  {
    if ids != [] {
      var front, last := ids[..|ids| - 1], ids[|ids| - 1];
      DistinctSize(front);
      assert last !in front;
      assert Ids(ids) == Ids(front) + {last};
    }
  }

  /** One tick takes out of the backlog exactly the events it published, min(limit, due) of them. */
  lemma TickTakesBatch(s: State, limit: nat, batch: seq<string>)
    requires EarliestDue(s.events, s.now, limit, batch)
    ensures var s' := Tick(s, batch);
            && s'.topic == s.topic + multiset(batch)
            && DueIds(s'.events, s.now) == DueIds(s.events, s.now) - Ids(batch)
            && |DueIds(s'.events, s.now)| == Max(0, |DueIds(s.events, s.now)| - limit)
            && (forall id, left :: id in batch && left in DueIds(s'.events, s.now) ==>
                  DueAt(s.events, id) <= DueAt(s.events, left))
  {
    var s' := Tick(s, batch);
    var due := DueIds(s.events, s.now);
    assert Ids(batch) <= due;
    DistinctSize(batch);
    DistinctMultiset(batch);
    assert (set id | id in batch && id in Ids(batch)) == Ids(batch);
    assert DueIds(s'.events, s.now) == due - Ids(batch);
  }

  lemma {:induction false} DistinctMultiset(ids: seq<string>)
    requires Distinct(ids)
    ensures multiset(ids) == multiset(Ids(ids))
  {
    if ids != [] {
      var front, last := ids[..|ids| - 1], ids[|ids| - 1];
      DistinctMultiset(front);
      assert last !in front;
      assert ids == front + [last];
      assert Ids(ids) == Ids(front) + {last};
    }
  }

  /** One turn of the ticker: some time goes by, then a batch is published. */
  datatype Turn = Turn(wait: nat, batch: seq<string>)

  function Later(s: State, wait: nat): State { s.(now := s.now + wait) }

  function Turns(s: State, turns: seq<Turn>): State {
    if turns == [] then s
    else
      var last := turns[|turns| - 1];
      Tick(Later(Turns(s, turns[..|turns| - 1]), last.wait), last.batch)
  }

  /** Each batch is what the due query may answer at its own instant. */
  ghost predicate TurnsLegal(s: State, limit: nat, turns: seq<Turn>) {
    turns == [] ||
    (var front, last := turns[..|turns| - 1], turns[|turns| - 1];
     var at := Later(Turns(s, front), last.wait);
     TurnsLegal(s, limit, front) && EarliestDue(at.events, at.now, limit, last.batch))
  }

  /** From s on, time has passed, and the only change to any row is that ones due by now became queued. */
  ghost predicate OnlyQueued(s: State, s': State) {
    && s.now <= s'.now && s'.events.Keys == s.events.Keys
    && forall id :: id in s.events ==>
         || s'.events[id] == s.events[id]
         || (id in DueIds(s.events, s'.now) && s'.events[id] == s.events[id].(status := Queued))
  }

  lemma TickOnlyQueues(s: State, s': State, limit: nat, batch: seq<string>)
    requires OnlyQueued(s, s') && EarliestDue(s'.events, s'.now, limit, batch)
    ensures OnlyQueued(s, Tick(s', batch))
  {
    forall id | id in s.events && id in batch
      ensures id in DueIds(s.events, s'.now) && s'.events[id] == s.events[id]
    {
      assert id in DueIds(s'.events, s'.now);
    }
  }

  lemma WaitingOnlyQueues(s: State, s': State, wait: nat)
    requires OnlyQueued(s, s')
    ensures OnlyQueued(s, Later(s', wait))
  {
    assert DueIds(s.events, s'.now) <= DueIds(s.events, s'.now + wait);
  }

  lemma {:induction false} TurnsOnlyQueue(s: State, limit: nat, turns: seq<Turn>)
    requires TurnsLegal(s, limit, turns)
    ensures OnlyQueued(s, Turns(s, turns))
    decreases |turns|
  {
    if turns != [] {
      var front, last := turns[..|turns| - 1], turns[|turns| - 1];
      TurnsOnlyQueue(s, limit, front);
      WaitingOnlyQueues(s, Turns(s, front), last.wait);
      TickOnlyQueues(s, Later(Turns(s, front), last.wait), limit, last.batch);
    }
  }

  function Backlog(s: State): nat { |DueIds(s.events, s.now)| }

  lemma TickShrinksBacklog(s: State, limit: nat, batch: seq<string>)
    requires EarliestDue(s.events, s.now, limit, batch)
    ensures Backlog(Tick(s, batch)) == Max(0, Backlog(s) - limit)
  {
    TickTakesBatch(s, limit, batch);
  }

  /** Nothing that was not due in s becomes due by the instant `until`. */
  ghost predicate NoneComesDue(s: State, until: int) {
    DueIds(s.events, until) == DueIds(s.events, s.now)
  }

  /** If nothing new comes due, waiting does not add to what is left. */
  lemma WaitingKeepsBacklog(s: State, s': State, wait: nat)
    requires OnlyQueued(s, s') && NoneComesDue(s, s'.now + wait)
    ensures Backlog(Later(s', wait)) == Backlog(s')
    ensures NoneComesDue(s, s'.now)
  {
    var later := s'.now + wait;
    assert forall id :: id in DueIds(s.events, s'.now) ==> id in DueIds(s.events, later);
    forall id | id in DueIds(s'.events, later)
      ensures id in DueIds(s'.events, s'.now)
    {
      assert id in DueIds(s.events, later);
      assert id in DueIds(s.events, s.now);
    }
    assert DueIds(s'.events, later) == DueIds(s'.events, s'.now);
  }

  lemma OneMoreTick(backlog: nat, k: nat, limit: nat)
    ensures Max(0, Max(0, backlog - k * limit) - limit) == Max(0, backlog - (k + 1) * limit)
  {
    assert (k + 1) * limit == k * limit + limit;
  }

  lemma {:induction false} BacklogAfter(s: State, limit: nat, turns: seq<Turn>)
    requires TurnsLegal(s, limit, turns) && NoneComesDue(s, Turns(s, turns).now)
    ensures Backlog(Turns(s, turns)) == Max(0, Backlog(s) - |turns| * limit)
    decreases |turns|
  {
    if turns != [] {
      var front, last := turns[..|turns| - 1], turns[|turns| - 1];
      TurnsOnlyQueue(s, limit, front);
      WaitingKeepsBacklog(s, Turns(s, front), last.wait);
      BacklogAfter(s, limit, front);
      TickShrinksBacklog(Later(Turns(s, front), last.wait), limit, last.batch);
      OneMoreTick(Backlog(s), |front|, limit);
    }
  }

  /** However far apart the ticks are, if nothing new comes due by the last one: ceil(due / limit) successful
      ticks, and never fewer, leave nothing due; then every event that was due is queued and no other row has
      changed, however the query broke its ties. */
  lemma BacklogDrains(s: State, limit: nat, turns: seq<Turn>)
    requires limit >= 1 && TurnsLegal(s, limit, turns) && NoneComesDue(s, Turns(s, turns).now)
    ensures var n, s' := |DueIds(s.events, s.now)|, Turns(s, turns);
            && (DueIds(s'.events, s'.now) == {} <==> |turns| >= (n + limit - 1) / limit)
            && s'.events.Keys == s.events.Keys
            && (DueIds(s'.events, s'.now) == {} ==>
                  forall id :: id in s.events ==>
                    s'.events[id] == if id in DueIds(s.events, s.now) then s.events[id].(status := Queued) else s.events[id])
  {
    TurnsOnlyQueue(s, limit, turns);
    BacklogAfter(s, limit, turns);
    var n, s' := |DueIds(s.events, s.now)|, Turns(s, turns);
    CeilingDivision(n, limit, |turns|);
    forall id | id in s.events && DueIds(s'.events, s'.now) == {}
      ensures s'.events[id] == if id in DueIds(s.events, s.now) then s.events[id].(status := Queued) else s.events[id]
    {
      assert id !in DueIds(s'.events, s'.now);
      assert id in DueIds(s.events, s'.now) <==> id in DueIds(s.events, s.now);
    }
  }

  lemma CeilingDivision(n: nat, limit: nat, k: nat)
    requires limit >= 1
    ensures n <= k * limit <==> k >= (n + limit - 1) / limit
  {
    var q := (n + limit - 1) / limit;
    assert q * limit <= n + limit - 1 < q * limit + limit;
    if k >= q {
      assert k * limit >= q * limit;
    } else {
      assert (k + 1) * limit <= q * limit;
    }
  }
}
