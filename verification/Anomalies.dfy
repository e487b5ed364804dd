/** Concrete runs of two workers: what the protocol does not promise once reads are stale or locks are
    overstayed. None of them loses a write. */
module Anomalies {
  import opened Prelude
  import opened Domain
  import opened Interleaving
  import Lifecycle
  import opened Lock

  /** No worker has outstayed its lock. */
  predicate Timely(s: State) {
    forall w :: 0 <= w < |s.workers| && s.workers[w].Critical() ==> s.now < s.workers[w].deadline
  }

  /** Nobody was late in any state of the run but perhaps the last. */
  ghost predicate Punctual(r: Run) {
    |r.states| == |r.steps| + 1 && forall i :: 0 <= i < |r.steps| ==> Timely(r.states[i])
  }

  /** Two workers can get to s, by a punctual run if `timely`. */
  ghost predicate Reachable(s: State, timely: bool) {
    exists r: Run :: Legal(2, r) && Last(r) == s && (timely ==> Punctual(r))
  }

  lemma PunctualOneMore(r: Run, st: Step, s': State)
    requires Punctual(r) && Timely(r.states[|r.steps|])
    ensures Punctual(Run(r.states + [s'], r.steps + [st]))
  {
    var r' := Run(r.states + [s'], r.steps + [st]);
    forall i | 0 <= i < |r'.steps|
      ensures Timely(r'.states[i])
    {
      assert r'.states[i] == r.states[i];
    }
  }

  lemma Next(s: State, st: Step, s': State, timely: bool)
    requires Reachable(s, timely) && (timely ==> Timely(s)) && Enabled(s, st) && s' == Apply(s, st)
    ensures Reachable(s', timely)
  {
    var r: Run :| Legal(2, r) && Last(r) == s && (timely ==> Punctual(r));
    ExtendIsLinked(r, st);
    if timely {
      PunctualOneMore(r, st, s');
    }
    assert Last(Extend(r, st)) == s';
  }

  /** Two workers and one event with its queue mark outstanding. */
  function Pair(now: int, id: string, row: Event, attempts: seq<Attempt>, locks: Locks,
                a: Worker, b: Worker, tokens: nat): State {
    State(now, map[id := row], attempts, [], locks, [a, b], tokens, multiset{id})
  }

  function Lease0(id: string): Locks { map[id := Lease(0, LOCK_TTL)] }

  /** Worker 0, which holds the first lock, at pc. */
  function First(pc: Pc, id: string, e: Event): Worker { At(pc, id, e, 0, LOCK_TTL) }

  /** Worker 1 has read the row and asked for nothing yet. */
  function Reader(id: string, e: Event): Worker { At(Fetched, id, e, 0, 0) }

  lemma SetWorker(a: Worker, b: Worker, x: Worker)
    ensures [a, b][0 := x] == [x, b] && [a, b][1 := x] == [a, x]
  {
  }

  lemma BothRead(id: string, e: Event)
    requires Fresh(e)
    ensures Reachable(Pair(0, id, e, [], map[], Reader(id, e), Reader(id, e), 0), true)
  {
    var s0 := Start(2);
    assert Legal(2, Run([s0], []));
    assert s0.workers == [Idle, Idle];
    var s1 := Pair(0, id, e, [], map[], Idle, Idle, 0);
    assert map[][id := e] == map[id := e];
    Next(s0, Insert(id, e, true), s1, true);
    SetWorker(Idle, Idle, Reader(id, e));
    var s2 := Pair(0, id, e, [], map[], Reader(id, e), Idle, 0);
    Next(s1, Fetch(0, id), s2, true);
    SetWorker(Reader(id, e), Idle, Reader(id, e));
    Next(s2, Fetch(1, id), Pair(0, id, e, [], map[], Reader(id, e), Reader(id, e), 0), true);
  }

  /** Worker 0 holds the lock while worker 1 has already read the row. */
  lemma FirstHolds(id: string, e: Event)
    requires Fresh(e)
    ensures Reachable(Pair(0, id, e, [], Lease0(id), First(Holding, id, e), Reader(id, e), 1), true)
  {
    BothRead(id, e);
    var r := Reader(id, e);
    SetWorker(r, r, First(Holding, id, e));
    assert map[][id := Lease(0, LOCK_TTL)] == Lease0(id);
    Next(Pair(0, id, e, [], map[], r, r, 0), Acquire(0, false),
         Pair(0, id, e, [], Lease0(id), First(Holding, id, e), r, 1), true);
  }

  lemma FirstSends(id: string, e: Event)
    requires Fresh(e)
    ensures Reachable(Pair(0, id, e, [], Lease0(id), First(Sending, id, e), Reader(id, e), 1), true)
  {
    FirstHolds(id, e);
    var r := Reader(id, e);
    var s1 := Pair(0, id, e, [], Lease0(id), First(Holding, id, e), r, 1);
    SetWorker(First(Holding, id, e), r, First(Admitted, id, e));
    var s2 := Pair(0, id, e, [], Lease0(id), First(Admitted, id, e), r, 1);
    Next(s1, Admit(0), s2, true);
    SetWorker(First(Admitted, id, e), r, First(Sending, id, e));
    Next(s2, Look(0, Lifecycle.Active), Pair(0, id, e, [], Lease0(id), First(Sending, id, e), r, 1), true);
  }

  /** Once the lock is free, or has run out, worker 1 takes it with the row it read before, and sends. */
  lemma SecondSends(now: int, id: string, row: Event, attempts: seq<Attempt>, locks: Locks, a: Worker, e: Event,
                    timely: bool)
    requires Reachable(Pair(now, id, row, attempts, locks, a, Reader(id, e), 1), timely) && !Held(locks, id, now)
    requires timely ==> !a.Critical()
    ensures Reachable(Pair(now, id, row, attempts, locks[id := Lease(1, now + LOCK_TTL)], a,
                           At(Sending, id, e, 1, now + LOCK_TTL), 2), timely)
  {
    var locks' := locks[id := Lease(1, now + LOCK_TTL)];
    var h, d, x := At(Holding, id, e, 1, now + LOCK_TTL), At(Admitted, id, e, 1, now + LOCK_TTL),
                   At(Sending, id, e, 1, now + LOCK_TTL);
    var s0 := Pair(now, id, row, attempts, locks, a, Reader(id, e), 1);
    var s1 := Pair(now, id, row, attempts, locks', a, h, 2);
    SetWorker(a, Reader(id, e), h);
    Next(s0, Acquire(1, false), s1, timely);
    var s2 := Pair(now, id, row, attempts, locks', a, d, 2);
    SetWorker(a, h, d);
    Next(s1, Admit(1), s2, timely);
    SetWorker(a, d, x);
    Next(s2, Look(1, Lifecycle.Active), Pair(now, id, row, attempts, locks', a, x, 2), timely);
  }

  /** A lock outstayed is no lock: five minutes into one delivery a second one of the same event begins. */
  lemma OverstayedLockOverlaps(id: string, e: Event) returns (s: State)
    requires Fresh(e)
    ensures Reachable(s, false) && !Timely(s)
    ensures IsSending(s, 0) && IsSending(s, 1) && s.workers[0].id == s.workers[1].id
  {
    FirstSendsUntimed(id, e);
    var a, x := First(Sending, id, e), At(Sending, id, e, 1, 2 * LOCK_TTL);
    Next(Pair(0, id, e, [], Lease0(id), a, Reader(id, e), 1), Wait(LOCK_TTL),
         Pair(LOCK_TTL, id, e, [], Lease0(id), a, Reader(id, e), 1), false);
    SecondSends(LOCK_TTL, id, e, [], Lease0(id), a, e, false);
    s := Pair(LOCK_TTL, id, e, [], Lease0(id)[id := Lease(1, 2 * LOCK_TTL)], a, x, 2);
    Overlapping(s, a, x);
  }

  lemma FirstSendsUntimed(id: string, e: Event)
    requires Fresh(e)
    ensures Reachable(Pair(0, id, e, [], Lease0(id), First(Sending, id, e), Reader(id, e), 1), false)
  {
    FirstSends(id, e);
    var s := Pair(0, id, e, [], Lease0(id), First(Sending, id, e), Reader(id, e), 1);
  }

  lemma Overlapping(s: State, a: Worker, x: Worker)
    requires s.workers == [a, x] && a.At? && x.At? && a.pc == x.pc == Sending && a.id == x.id && s.now >= a.deadline
    ensures !Timely(s) && IsSending(s, 0) && IsSending(s, 1) && s.workers[0].id == s.workers[1].id
  {
    assert s.workers[0].Critical();
  }

  const OK_REPLY := Reply(200, None)

  function FirstRow(id: string, e: Event): Attempt { Attempt(id, e.endpoint, e.attemptCount + 1, OK_REPLY, 0) }

  /** Worker 0 with the event's row and log, at pc, worker 1 still waiting with its old row. */
  function Turn(id: string, e: Event, row: Event, attempts: seq<Attempt>, pc: Pc): State {
    Pair(0, id, row, attempts, Lease0(id), First(pc, id, e), Reader(id, e), 1)
  }

  lemma AnswerTurn(id: string, e: Event)
    ensures Timely(Turn(id, e, e, [], Sending))
    ensures Apply(Turn(id, e, e, [], Sending), Answer(0, OK_REPLY)) == Turn(id, e, e, [], Answered(OK_REPLY))
  {
    SetWorker(First(Sending, id, e), Reader(id, e), First(Answered(OK_REPLY), id, e));
  }

  lemma LogTurn(id: string, e: Event)
    ensures Timely(Turn(id, e, e, [], Answered(OK_REPLY)))
    ensures Apply(Turn(id, e, e, [], Answered(OK_REPLY)), Log(0, true)) ==
            Turn(id, e, e, [FirstRow(id, e)], Logged(OK_REPLY))
  {
    SetWorker(First(Answered(OK_REPLY), id, e), Reader(id, e), First(Logged(OK_REPLY), id, e));
    assert [] + [FirstRow(id, e)] == [FirstRow(id, e)];
  }

  lemma SettleTurn(id: string, e: Event, log: seq<Attempt>)
    ensures Timely(Turn(id, e, e, log, Logged(OK_REPLY)))
    ensures Apply(Turn(id, e, e, log, Logged(OK_REPLY)), Settle(0, DEFAULT_RETRY_BASE, 0, true)) ==
            Turn(id, e, e.(status := Delivered), log, Leaving)
  {
    SetWorker(First(Logged(OK_REPLY), id, e), Reader(id, e), First(Leaving, id, e));
    assert map[id := e][id := e.(status := Delivered)] == map[id := e.(status := Delivered)];
  }

  lemma CheckTurn(id: string, e: Event, row: Event, log: seq<Attempt>)
    ensures Timely(Turn(id, e, row, log, Leaving))
    ensures Apply(Turn(id, e, row, log, Leaving), CheckOwner(0, false)) == Turn(id, e, row, log, Deleting)
  {
    SetWorker(First(Leaving, id, e), Reader(id, e), First(Deleting, id, e));
  }

  lemma DeleteTurn(id: string, e: Event, row: Event, log: seq<Attempt>)
    ensures Timely(Turn(id, e, row, log, Deleting))
    ensures Apply(Turn(id, e, row, log, Deleting), Delete(0, false)) ==
            Pair(0, id, row, log, map[], Idle, Reader(id, e), 1)
  {
    SetWorker(First(Deleting, id, e), Reader(id, e), Idle);
    assert Lease0(id) - {id} == map[];
  }

  /** Worker 0 has stored the delivery and is about to release. */
  lemma FirstDelivers(id: string, e: Event)
    requires Fresh(e)
    ensures Reachable(Turn(id, e, e.(status := Delivered), [FirstRow(id, e)], Leaving), true)
  {
    FirstSends(id, e);
    AnswerTurn(id, e);
    Next(Turn(id, e, e, [], Sending), Answer(0, OK_REPLY), Turn(id, e, e, [], Answered(OK_REPLY)), true);
    LogTurn(id, e);
    var log := [FirstRow(id, e)];
    Next(Turn(id, e, e, [], Answered(OK_REPLY)), Log(0, true), Turn(id, e, e, log, Logged(OK_REPLY)), true);
    SettleTurn(id, e, log);
    Next(Turn(id, e, e, log, Logged(OK_REPLY)), Settle(0, DEFAULT_RETRY_BASE, 0, true),
         Turn(id, e, e.(status := Delivered), log, Leaving), true);
  }

  lemma FirstReleases(id: string, e: Event)
    requires Fresh(e)
    ensures Reachable(Pair(0, id, e.(status := Delivered), [FirstRow(id, e)], map[], Idle, Reader(id, e), 1), true)
  {
    FirstDelivers(id, e);
    var row, log := e.(status := Delivered), [FirstRow(id, e)];
    CheckTurn(id, e, row, log);
    Next(Turn(id, e, row, log, Leaving), CheckOwner(0, false), Turn(id, e, row, log, Deleting), true);
    DeleteTurn(id, e, row, log);
    Next(Turn(id, e, row, log, Deleting), Delete(0, false), Pair(0, id, row, log, map[], Idle, Reader(id, e), 1), true);
  }

  /** The row is read before the lock is taken: with every lock respected and nobody late, a worker that read
      early sends an event that is already delivered, as attempt number 1 a second time. */
  lemma StaleReadSendsAgain(id: string, e: Event) returns (s: State)
    requires Fresh(e)
    ensures Reachable(s, true) && Timely(s)
    ensures id in s.events && s.events[id].status == Delivered && s.attempts == [FirstRow(id, e)]
    ensures IsSending(s, 1) && s.workers[1].id == id && s.workers[1].ev.attemptCount + 1 == s.attempts[0].number
  {
    FirstReleases(id, e);
    var row, log := e.(status := Delivered), [FirstRow(id, e)];
    SecondSends(0, id, row, log, map[], Idle, e, true);
    s := Pair(0, id, row, log, map[][id := Lease(1, LOCK_TTL)], Idle, At(Sending, id, e, 1, LOCK_TTL), 2);
  }

  /** Create publishes before it marks the event queued: a mark that comes late turns a delivered event back
      into a queued one, so a resolved status is not final here. */
  lemma LateMarkRevives(id: string, e: Event) returns (s: State, st: Step)
    requires Fresh(e)
    ensures Reachable(s, true) && Timely(s) && Enabled(s, st)
    ensures id in s.events && s.events[id].status == Delivered && Apply(s, st).events[id].status == Queued
  {
    FirstDelivers(id, e);
    s := Turn(id, e, e.(status := Delivered), [FirstRow(id, e)], Leaving);
    st := Mark(id, true);
  }

  /** Worker 0, refused by the breaker, has seen its own value and is about to delete the key. */
  lemma FirstIsDeleting(id: string, e: Event)
    requires Fresh(e)
    ensures Reachable(Turn(id, e, e, [], Deleting), false)
  {
    FirstHolds(id, e);
    SetWorker(First(Holding, id, e), Reader(id, e), First(Leaving, id, e));
    assert Timely(Turn(id, e, e, [], Holding));
    Next(Turn(id, e, e, [], Holding), GiveUp(0), Turn(id, e, e, [], Leaving), true);
    CheckTurn(id, e, e, []);
    Next(Turn(id, e, e, [], Leaving), CheckOwner(0, false), Turn(id, e, e, [], Deleting), true);
    var s := Turn(id, e, e, [], Deleting);
  }

  function Lease1(id: string): Locks { map[id := Lease(1, 2 * LOCK_TTL)] }

  function Second(id: string, e: Event): Worker { At(Holding, id, e, 1, 2 * LOCK_TTL) }

  /** The key expires before the DEL arrives; worker 1 takes the lock, and the late DEL removes it. */
  lemma LateDeleteFreesForeignLock(id: string, e: Event)
    requires Fresh(e)
    ensures Reachable(Pair(LOCK_TTL, id, e, [], map[], Idle, Second(id, e), 2), false)
  {
    FirstIsDeleting(id, e);
    var d, r := First(Deleting, id, e), Reader(id, e);
    var s1 := Pair(LOCK_TTL, id, e, [], Lease0(id), d, r, 1);
    Next(Turn(id, e, e, [], Deleting), Wait(LOCK_TTL), s1, false);
    SetWorker(d, r, Second(id, e));
    assert Lease0(id)[id := Lease(1, 2 * LOCK_TTL)] == Lease1(id);
    var s2 := Pair(LOCK_TTL, id, e, [], Lease1(id), d, Second(id, e), 2);
    Next(s1, Acquire(1, false), s2, false);
    SetWorker(d, Second(id, e), Idle);
    assert Lease1(id) - {id} == map[];
    Next(s2, Delete(0, false), Pair(LOCK_TTL, id, e, [], map[], Idle, Second(id, e), 2), false);
  }

  /** So one late release is enough for two workers to hold the lock of one event at the same time, both well
      within their own five minutes: GET and DEL are two commands. */
  lemma LateReleaseBreaksExclusion(id: string, e: Event) returns (s: State)
    requires Fresh(e)
    ensures Reachable(s, false) && Timely(s)
    ensures |s.workers| == 2 && s.workers[0].Critical() && s.workers[1].Critical()
    ensures s.workers[0].id == s.workers[1].id
  {
    LateDeleteFreesForeignLock(id, e);
    var b := Second(id, e);
    var s0 := Pair(LOCK_TTL, id, e, [], map[], Idle, b, 2);
    SetWorker(Idle, b, Reader(id, e));
    var s1 := Pair(LOCK_TTL, id, e, [], map[], Reader(id, e), b, 2);
    Next(s0, Fetch(0, id), s1, false);
    var a := At(Holding, id, e, 2, 2 * LOCK_TTL);
    SetWorker(Reader(id, e), b, a);
    s := Pair(LOCK_TTL, id, e, [], map[][id := Lease(2, 2 * LOCK_TTL)], a, b, 3);
    Next(s1, Acquire(0, false), s, false);
  }
}
