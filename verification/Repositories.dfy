/** internal/repository/postgres and internal/kafka: the tables and the topic the services change in place.
    Each command either happens or is reported as failed. */
module Repositories {
  import opened Prelude
  import opened Domain
  import opened Lifecycle
  import Scheduling

  datatype Read = Row(event: Event) | NoRow | ReadError

  class EventRepo {
    var rows: Events

    constructor ()
      ensures rows == map[]
    {
      rows := map[];
    }

    method Create(id: string, e: Event, fails: bool) returns (ok: bool)
      modifies this
      ensures ok <==> !fails && id !in old(rows)
      ensures rows == if ok then old(rows)[id := e] else old(rows)
    {
      ok := !fails && id !in rows;
      if ok {
        rows := rows[id := e];
      }
    }

    method GetByID(id: string, fails: bool) returns (r: Read)
      ensures r == if fails then ReadError else if id in rows then Row(rows[id]) else NoRow
    {
      if fails {
        return ReadError;
      }
      if id !in rows {
        return NoRow;
      }
      return Row(rows[id]);
    }

    method UpdateStatus(id: string, status: Status, stored: bool) returns (ok: bool)
      modifies this
      ensures ok <==> stored && id in old(rows)
      ensures rows == if ok then old(rows)[id := old(rows)[id].(status := status)] else old(rows)
    {
      ok := stored && id in rows;
      if ok {
        rows := rows[id := rows[id].(status := status)];
      }
    }

    method UpdateForRetry(id: string, status: Status, attemptCount: int32, nextRetryAt: int, stored: bool) returns (ok: bool)
      modifies this
      ensures ok <==> stored && id in old(rows)
      ensures rows ==
        if ok then old(rows)[id := old(rows)[id].(status := status, attemptCount := attemptCount,
                                                 nextRetryAt := Some(nextRetryAt))]
        else old(rows)
    {
      ok := stored && id in rows;
      if ok {
        rows := rows[id := rows[id].(status := status, attemptCount := attemptCount, nextRetryAt := Some(nextRetryAt))];
      }
    }

    /** The due query: filter, order by due time, cut at the limit. */
    method FindRetryable(limit: nat, now: int) returns (batch: seq<string>)
      ensures EarliestDue(rows, now, limit, batch)
    {
      var remaining := set id | id in rows && Due(rows[id], now);
      batch := [];
      while |batch| < limit && remaining != {}
        invariant |batch| <= limit && Scheduling.Selecting(rows, DueIds(rows, now), batch, remaining)
        decreases |remaining|
      {
        ghost var least := Scheduling.EarliestOf(rows, remaining);
        assert forall id :: id in remaining ==> Scheduling.DueAt(rows, least) <= Scheduling.DueAt(rows, id);
        var first :| first in remaining && forall id :: id in remaining ==>
                       Scheduling.DueAt(rows, first) <= Scheduling.DueAt(rows, id);
        Scheduling.SelectOneMore(rows, DueIds(rows, now), batch, remaining, first);
        batch := batch + [first];
        remaining := remaining - {first};
      }
      Scheduling.SelectedAreEarliest(rows, now, limit, batch, remaining);
    }
  }

  /** What the due query answers, in full. */
  lemma EarliestDueInFull(rows: Events, now: int, limit: nat, batch: seq<string>)
    requires EarliestDue(rows, now, limit, batch)
    ensures |batch| <= limit
    ensures forall id :: id in batch ==>
              id in rows && rows[id].status == Retrying && rows[id].nextRetryAt.Some? && rows[id].nextRetryAt.value <= now
    ensures |batch| < limit ==>
              forall id :: (id in rows && rows[id].status == Retrying && rows[id].nextRetryAt.Some?
                            && rows[id].nextRetryAt.value <= now) ==> id in batch
  {
    var due := DueIds(rows, now);
    if |batch| < limit {
      Scheduling.DistinctSize(batch);
      assert Scheduling.Ids(batch) <= due;
      if id :| id in due && id !in batch {
        assert Scheduling.Ids(batch) < due;
        SmallerSet(Scheduling.Ids(batch), due);
      }
      assert forall id :: id in due ==> id in batch;
    }
  }

  lemma {:induction false} SmallerSet(a: set<string>, b: set<string>)
    requires a < b
    ensures |a| < |b|
  {
    var x :| x in b && x !in a;
    assert a <= b - {x};
    SubsetSize(a, b - {x});
  }

  lemma {:induction false} SubsetSize(a: set<string>, b: set<string>)
    requires a <= b
    ensures |a| <= |b|
    decreases |a|
  {
    if a != {} {
      var x :| x in a;
      SubsetSize(a - {x}, b - {x});
    }
  }

  class DeliveryAttemptRepo {
    var rows: seq<Attempt>

    constructor ()
      ensures rows == []
    {
      rows := [];
    }

    method Create(row: Attempt, stored: bool)
      modifies this
      ensures rows == if stored then old(rows) + [row] else old(rows)
    {
      if stored {
        rows := rows + [row];
      }
    }
  }

  class DeadLetterEventRepo {
    var rows: seq<DeadLetter>

    constructor ()
      ensures rows == []
    {
      rows := [];
    }

    method Create(row: DeadLetter, stored: bool)
      modifies this
      ensures rows == if stored then old(rows) + [row] else old(rows)
    {
      if stored {
        rows := rows + [row];
      }
    }
  }

  class Topic {
    var messages: multiset<string>

    constructor ()
      ensures messages == multiset{}
    {
      messages := multiset{};
    }

    method PublishEvent(id: string, sent: bool) returns (ok: bool)
      modifies this
      ensures ok == sent
      ensures messages == if sent then old(messages) + multiset{id} else old(messages)
    {
      if sent {
        messages := messages + multiset{id};
      }
      ok := sent;
    }

    method CommitMessages(id: string, committed: bool)
      modifies this
      ensures messages == if committed then old(messages) - multiset{id} else old(messages)
    {
      if committed {
        messages := messages - multiset{id};
      }
    }
  }
}
