/** internal/service/dispatcher.go: the consumer loop and its message handler over the shared stores; each
    message is proved to be one Dispatch step of the Lifecycle, and a whole session a legal run of it. */
module Dispatcher {
  import opened Prelude
  import opened Domain
  import opened Lifecycle
  import opened Repositories
  import Backoff
  import CB = CircuitBreaker
  import EC = EndpointCache
  import Lock

  function LockKey(id: string): string { "dispatch:" + id }

  /** Every event has a lock of its own. */
  lemma LockKeysDiffer(a: string, b: string)
    ensures LockKey(a) == LockKey(b) <==> a == b
  {
    assert LockKey(a)[9..] == a && LockKey(b)[9..] == b;
  }

  /** What the table's history must show for an attempt made, or a letter written, after a lookup at `at`: the
      endpoint was switched on, or off, at some instant of the last minute, or has no row now. */
  ghost predicate BornOut(sent: bool, letters: seq<DeadLetter>, ep: string, rows: EC.Rows, history: seq<EC.Version>, at: int) {
    && (sent ==> EC.WasThere(history, ep, true, at - 60_000_000_000, at))
    && forall l :: l in letters ==>
         && (l.reason == EndpointNotFound ==> ep !in rows)
         && (l.reason == EndpointInactive ==> EC.WasThere(history, ep, false, at - 60_000_000_000, at))
  }

  /** What one message meets that the stores do not determine: failing commands, the lock value drawn, the
      endpoint's reply and how long it took, the tenant's retry base and the random draw. */
  datatype Conditions = Conditions(
    readFails: bool, lockFails: bool, token: nat, breakerStateFails: bool, breakerLastFails: bool, setLost: bool,
    lookup: EC.Faults, reply: Reply, took: nat, retryBase: RetryBase, draw: nat,
    attemptStored: bool, breakerFaults: CB.Faults, letterStored: bool, statusStored: bool,
    ownerReadFails: bool, deleteLost: bool)

  /** The environment's failures, reply and write outcomes are those of the conditions, and nothing is committed
      yet. */
  predicate Reports(env: Env, k: Conditions) {
    && env.readFails == k.readFails && env.setLost == k.setLost
    && env.reply == k.reply && env.took == k.took && env.retryBase == k.retryBase && env.draw == k.draw
    && env.attemptStored == k.attemptStored && env.breakerFaults == k.breakerFaults
    && env.letterStored == k.letterStored && env.statusStored == k.statusStored && !env.committed
  }

  /** Redis answers, and stores no live lease of this event. */
  predicate Granted(locks: Lock.Locks, id: string, now: int, k: Conditions) {
    !k.lockFails && !("dispatch:" + id in locks && now < locks["dispatch:" + id].expires)
  }

  /** A stored, unresolved event that can be read is skipped if and only if Redis fails or stores a live lease of
      that very event; leases of other events never stand in its way. */
  lemma SkippedIff(c: CB.Config, s: State, id: string, env: Env, locks: Lock.Locks, now: int, k: Conditions)
    requires id in s.events && s.events[id].status != Delivered && s.events[id].status != Failed && !env.readFails
    requires env.locked == Granted(locks, id, now, k)
    ensures Judge(c, s, id, env) == Skip <==>
            k.lockFails || exists key :: key in locks && key == LockKey(id) && now < locks[key].expires
    ensures !k.lockFails && (forall key :: key in locks ==> exists other :: other != id && key == LockKey(other)) ==>
              Judge(c, s, id, env) != Skip
  {
    if LockKey(id) in locks {
      if other :| other != id && LockKey(id) == LockKey(other) {
        LockKeysDiffer(id, other);
      }
    }
  }

  /** No other event's lease is touched. An open event's lease, if granted, is for five minutes, and is left
      behind only if its owner could not read it, could not delete it, or came too late. */
  predicate LeavesLocks(before: Lock.Locks, after: Lock.Locks, id: string, now: int, done: int, k: Conditions, open: bool) {
    var key := "dispatch:" + id;
    if !open || !Granted(before, id, now, k) then after == before
    else if k.ownerReadFails || k.deleteLost || now + 300_000_000_000 <= done
    then after == before[key := Lock.Lease(k.token, now + 300_000_000_000)]
    else after == before - {key}
  }

  lemma ReleaseLeaves(before: Lock.Locks, held: Lock.Locks, after: Lock.Locks, id: string, now: int, done: int, k: Conditions)
    requires Granted(before, id, now, k) && held == before[LockKey(id) := Lock.Lease(k.token, now + Lock.LOCK_TTL)]
    requires after == if !k.ownerReadFails && Lock.Owns(held, LockKey(id), k.token, done) && !k.deleteLost
                      then held - {LockKey(id)} else held
    ensures LeavesLocks(before, after, id, now, done, k, true)
  {
  }

  function TargetOf(r: EC.Lookup): Target {
    match r
    case Found(e) => if e.active then Active else Inactive
    case Missing => NotFound
    case Broken => Unreadable
  }

  class DispatcherService {
    const eventRepo: EventRepo
    const attemptRepo: DeliveryAttemptRepo
    const letterRepo: DeadLetterEventRepo
    const topic: Topic
    const breaker: CB.CircuitBreakerRepo
    const lockRepo: Lock.LockRepo
    const endpointRepo: EC.EndpointRepo
    const cache: EC.EndpointCache

    constructor (eventRepo: EventRepo, attemptRepo: DeliveryAttemptRepo, letterRepo: DeadLetterEventRepo, topic: Topic,
                 breaker: CB.CircuitBreakerRepo, lockRepo: Lock.LockRepo, endpointRepo: EC.EndpointRepo,
                 cache: EC.EndpointCache)
      ensures this.eventRepo == eventRepo && this.attemptRepo == attemptRepo && this.letterRepo == letterRepo
      ensures this.topic == topic && this.breaker == breaker && this.lockRepo == lockRepo
      ensures this.endpointRepo == endpointRepo && this.cache == cache
    {
      this.eventRepo, this.attemptRepo, this.letterRepo, this.topic := eventRepo, attemptRepo, letterRepo, topic;
      this.breaker, this.lockRepo, this.endpointRepo, this.cache := breaker, lockRepo, endpointRepo, cache;
    }

    /** The protocol state the stores hold at `now`. */
    function View(now: int): State
      reads eventRepo, attemptRepo, letterRepo, topic, breaker
    {
      State(now, eventRepo.rows, topic.messages, attemptRepo.rows, letterRepo.rows, breaker.Stored())
    }

    predicate BreakerUnreadable(ep: string, k: Conditions)
      reads breaker
    {
      k.breakerStateFails || (k.breakerLastFails && ep in breaker.state && breaker.state[ep] == CB.Open)
    }

    /** The answers a message of an event of endpoint `ep` gets. */
    function Meets(ep: string, now: int, locked: bool, k: Conditions): Env
      reads breaker, endpointRepo, cache
    {
      Env(k.readFails, locked, BreakerUnreadable(ep, k), k.setLost,
          TargetOf(EC.LookupResult(endpointRepo.rows, cache.entries, ep, now, k.lookup)),
          k.reply, k.took, k.retryBase, k.draw, k.attemptStored, k.breakerFaults, k.letterStored, k.statusStored, false)
    }

    /** The table is the last version of its history, and the cache holds nothing that history does not bear out. */
    ghost predicate Informed(now: int, history: seq<EC.Version>)
      reads endpointRepo, cache
    {
      EC.Sound(EC.State(now, history, cache.entries)) && endpointRepo.rows == history[|history| - 1].rows
    }

    function EndpointOf(id: string): string
      reads eventRepo
    {
      if id in eventRepo.rows then eventRepo.rows[id].endpoint else ""
    }

    method HandleDeadLetter(id: string, event: Event, reason: Reason, code: int, k: Conditions)
      modifies letterRepo, eventRepo
      ensures letterRepo.rows == old(letterRepo.rows) + if k.letterStored then [NewLetter(id, event, reason, code)] else []
      ensures eventRepo.rows ==
        if k.statusStored && id in old(eventRepo.rows)
        then old(eventRepo.rows)[id := old(eventRepo.rows)[id].(status := Failed)] else old(eventRepo.rows)
    {
      var letter := DeadLetter(id, event.tenant, event.endpoint, event.eventType, event.payload, reason, code,
                               event.attemptCount);
      letterRepo.Create(letter, k.letterStored);
      var _ := eventRepo.UpdateStatus(id, Failed, k.statusStored);
    }

    method HandleFailure(id: string, event: Event, done: int, k: Conditions, ghost env: Env)
      requires id in eventRepo.rows && eventRepo.rows[id] == event && !k.reply.Success()
      requires env.reply == k.reply && env.draw == k.draw && env.retryBase == k.retryBase
      modifies letterRepo, eventRepo
      ensures letterRepo.rows == old(letterRepo.rows) +
        if Exhausts(event, env) && k.letterStored
        then [NewLetter(id, event, FailureReason(k.reply), k.reply.statusCode)] else []
      ensures eventRepo.rows ==
        if k.statusStored then old(eventRepo.rows)[id := Answered(event, env, done)] else old(eventRepo.rows)
    {
      if event.attemptCount + 1 >= event.maxAttempts {
        HandleDeadLetter(id, event, FailureReason(k.reply), k.reply.statusCode, k);
        return;
      }
      var newAttemptCount: int32 := event.attemptCount + 1;
      WindowIsPositive(newAttemptCount, k.retryBase);
      var jitter := Backoff.CalculateBackoff(newAttemptCount, k.retryBase, k.draw);
      var _ := eventRepo.UpdateForRetry(id, Retrying, newAttemptCount, done + jitter.value, k.statusStored);
    }

    /** The reply is in: log the attempt, tell the breaker, settle the event. */
    method Conclude(id: string, event: Event, done: int, k: Conditions, ghost env: Env)
      requires id in eventRepo.rows && eventRepo.rows[id] == event
      requires env.reply == k.reply && env.draw == k.draw && env.retryBase == k.retryBase
      modifies eventRepo, attemptRepo, letterRepo, breaker
      ensures attemptRepo.rows == old(attemptRepo.rows) +
        if k.attemptStored then [Attempt(id, event.endpoint, event.attemptCount + 1, k.reply, done)] else []
      ensures breaker.Stored() ==
        CB.AfterOutcome(breaker.config, old(breaker.Stored()), event.endpoint, Unix(done), k.reply.Success(), k.breakerFaults)
      ensures letterRepo.rows == old(letterRepo.rows) +
        if Exhausts(event, env) && k.letterStored
        then [NewLetter(id, event, FailureReason(k.reply), k.reply.statusCode)] else []
      ensures eventRepo.rows ==
        if k.statusStored then old(eventRepo.rows)[id := Answered(event, env, done)] else old(eventRepo.rows)
      ensures k.statusStored ==>
        (eventRepo.rows[id].status == Delivered <==> 200 <= k.reply.statusCode <= 299 && k.reply.error == None)
    {
      attemptRepo.Create(Attempt(id, event.endpoint, event.attemptCount + 1, k.reply, done), k.attemptStored);
      if k.reply.Success() {
        var _ := breaker.RecordSuccess(event.endpoint, k.breakerFaults.close);
        var _ := eventRepo.UpdateStatus(id, Delivered, k.statusStored);
      } else {
        var _ := breaker.RecordFailure(event.endpoint, Unix(done), k.breakerFaults);
        HandleFailure(id, event, done, k, env);
      }
    }

    /** Once the breaker has passed the event of state s and its endpoint was looked up. */
    method Attend(id: string, event: Event, now: int, k: Conditions, found: EC.Lookup, ghost s: State, ghost env: Env)
        returns (done: int)
      requires s.now == now && id in s.events && s.events[id] == event
      requires Judge(breaker.config, s, id, env) != Skip && Judge(breaker.config, s, id, env) != Refuse
      requires Reports(env, k) && env.target == TargetOf(found)
      requires View(now) ==
        s.(breaker := CB.AfterAllow(breaker.config, s.breaker, event.endpoint, Unix(now), env.setLost))
      modifies eventRepo, attemptRepo, letterRepo, breaker
      ensures View(done) == Process(breaker.config, s, id, env) && now <= done
      ensures attemptRepo.rows != old(attemptRepo.rows) ==> found.Found? && found.endpoint.active
      ensures forall l :: l in letterRepo.rows[|old(letterRepo.rows)|..] ==>
                && (l.reason == EndpointNotFound ==> found.Missing?)
                && (l.reason == EndpointInactive ==> found.Found? && !found.endpoint.active)
    {
      if found.Missing? {
        BurialShape(breaker.config, s, id, env);
        HandleDeadLetter(id, event, EndpointNotFound, 0, k);
        return now;
      }
      if found.Broken? {
        RefusalShape(breaker.config, s, id, env);
        return now;
      }
      if !found.endpoint.active {
        BurialShape(breaker.config, s, id, env);
        HandleDeadLetter(id, event, EndpointInactive, 0, k);
        return now;
      }
      DeliveryShape(breaker.config, s, id, env);
      done := now + k.took;
      Conclude(id, event, done, k, env);
    }

    /** Once the breaker has passed the event of state s: look up its endpoint, and act on what is found. */
    method DeliverAdmitted(id: string, event: Event, now: int, k: Conditions, ghost history: seq<EC.Version>,
                           ghost s: State, ghost env: Env) returns (done: int)
      requires Informed(now, history) && s.now == now && id in s.events && s.events[id] == event
      requires Judge(breaker.config, s, id, env) != Skip && Judge(breaker.config, s, id, env) != Refuse
      requires Reports(env, k)
      requires env.target == TargetOf(EC.LookupResult(endpointRepo.rows, cache.entries, event.endpoint, now, k.lookup))
      requires View(now) ==
        s.(breaker := CB.AfterAllow(breaker.config, s.breaker, event.endpoint, Unix(now), env.setLost))
      modifies eventRepo, attemptRepo, letterRepo, breaker, cache
      ensures View(done) == Process(breaker.config, s, id, env)
      ensures Informed(now, history) && now <= done
      ensures BornOut(attemptRepo.rows != old(attemptRepo.rows), letterRepo.rows[|old(letterRepo.rows)|..],
                      event.endpoint, endpointRepo.rows, history, now)
    {
      LookupIsBornOut(EC.State(now, history, cache.entries), event.endpoint, k.lookup);
      var found := EC.GetEndpoint(cache, endpointRepo, event.endpoint, now, k.lookup);
      done := Attend(id, event, now, k, found, s, env);
    }

    /** From the granted lock to its release. */
    method DeliverLocked(id: string, event: Event, now: int, k: Conditions, ghost history: seq<EC.Version>)
        returns (done: int)
      requires Informed(now, history)
      requires id in eventRepo.rows && eventRepo.rows[id] == event && !event.Resolved() && !k.readFails
      modifies eventRepo, attemptRepo, letterRepo, breaker, cache
      ensures View(done) == Process(breaker.config, old(View(now)), id, old(Meets(event.endpoint, now, true, k)))
      ensures Informed(now, history) && now <= done
      ensures BornOut(attemptRepo.rows != old(attemptRepo.rows), letterRepo.rows[|old(letterRepo.rows)|..],
                      event.endpoint, endpointRepo.rows, history, now)
    {
      ghost var env := Meets(event.endpoint, now, true, k);
      ghost var s := View(now);
      var allowed := breaker.Allow(event.endpoint, Unix(now), k.breakerStateFails, k.breakerLastFails, k.setLost);
      if allowed.None? || !allowed.value {
        RefusalShape(breaker.config, s, id, env);
        return now;
      }
      done := DeliverAdmitted(id, event, now, k, history, s, env);
    }

    /** The delivery with its deferred release. */
    method DeliverAndRelease(id: string, event: Event, now: int, k: Conditions, ghost history: seq<EC.Version>,
                             ghost before: Lock.Locks) returns (done: int)
      requires Informed(now, history)
      requires id in eventRepo.rows && eventRepo.rows[id] == event && !event.Resolved() && !k.readFails
      requires Granted(before, id, now, k)
      requires lockRepo.locks == before[LockKey(id) := Lock.Lease(k.token, now + Lock.LOCK_TTL)]
      modifies eventRepo, attemptRepo, letterRepo, breaker, lockRepo, cache
      ensures View(done) == Process(breaker.config, old(View(now)), id, old(Meets(event.endpoint, now, true, k)))
      ensures LeavesLocks(before, lockRepo.locks, id, now, done, k, true)
      ensures Informed(now, history) && now <= done
      ensures BornOut(attemptRepo.rows != old(attemptRepo.rows), letterRepo.rows[|old(letterRepo.rows)|..],
                      event.endpoint, endpointRepo.rows, history, now)
    {
      done := DeliverLocked(id, event, now, k, history);
      var _ := lockRepo.Release(LockKey(id), k.token, done, k.ownerReadFails, k.deleteLost);
      ReleaseLeaves(before, old(lockRepo.locks), lockRepo.locks, id, now, done, k);
    }

    /** One message is one Dispatch step, commit aside. It is refused the lock if and only if Redis fails or holds
        a live lease of that very event; no other event's lease stands in its way, or is touched. Its own lease
        is for five minutes; an undisturbed call that is done in time leaves none. */
    method ProcessMessage(id: string, now: int, k: Conditions, ghost history: seq<EC.Version>) returns (done: int)
      requires Informed(now, history)
      modifies eventRepo, attemptRepo, letterRepo, breaker, lockRepo, cache
      ensures View(done) == Process(breaker.config, old(View(now)), id,
                                    old(Meets(EndpointOf(id), now, Granted(lockRepo.locks, id, now, k), k)))
      ensures LeavesLocks(old(lockRepo.locks), lockRepo.locks, id, now, done, k,
                          old(!k.readFails && id in eventRepo.rows && !eventRepo.rows[id].Resolved()))
      ensures Informed(now, history) && now <= done
      ensures BornOut(attemptRepo.rows != old(attemptRepo.rows), letterRepo.rows[|old(letterRepo.rows)|..],
                      old(EndpointOf(id)), endpointRepo.rows, history, now)
    {
      ghost var s := View(now);
      ghost var env := Meets(EndpointOf(id), now, Granted(lockRepo.locks, id, now, k), k);
      var read := eventRepo.GetByID(id, k.readFails);
      if !read.Row? {
        SkipShape(breaker.config, s, id, env);
        return now;
      }
      var event := read.event;
      if event.status == Delivered || event.status == Failed {
        SkipShape(breaker.config, s, id, env);
        return now;
      }
      var locked := lockRepo.Acquire(LockKey(id), k.token, now, Lock.LOCK_TTL, k.lockFails);
      if !locked {
        SkipShape(breaker.config, s, id, env);
        return now;
      }
      done := DeliverAndRelease(id, event, now, k, history, old(lockRepo.locks));
    }

    /** What consuming the message of round `r` from time `start` on meets. */
    function Answers(start: int, r: Round): Env
      reads breaker, endpointRepo, cache, lockRepo, eventRepo
    {
      Meets(EndpointOf(r.id), start, Granted(lockRepo.locks, r.id, start, r.k), r.k).(committed := r.committed)
    }

    /** Process one fetched message, then commit it whatever processing returned. */
    method ConsumeMessage(start: int, r: Round, ghost history: seq<EC.Version>) returns (now: int)
      requires Informed(start, history) && r.id in topic.messages
      modifies eventRepo, attemptRepo, letterRepo, topic, breaker, lockRepo, cache
      ensures View(now) == Apply(breaker.config, old(View(start)), Dispatch(r.id, old(Answers(start, r))))
      ensures Informed(start, history) && start <= now
      ensures BornOut(attemptRepo.rows != old(attemptRepo.rows), letterRepo.rows[|old(letterRepo.rows)|..],
                      old(EndpointOf(r.id)), endpointRepo.rows, history, start)
    {
      ghost var env := Meets(EndpointOf(r.id), start, Granted(lockRepo.locks, r.id, start, r.k), r.k);
      CommitEffect(breaker.config, View(start), r.id, env, r.committed);
      now := ProcessMessage(r.id, start, r.k, history);
      topic.CommitMessages(r.id, r.committed);
    }

    /** One turn of the loop, the wait over: if the fetch yields the message, consume it. */
    method TakeTurn(start: int, r: Round, ghost history: seq<EC.Version>) returns (now: int, ghost action: Action)
      requires Informed(start, history)
      modifies eventRepo, attemptRepo, letterRepo, topic, breaker, lockRepo, cache
      ensures action == if r.id in old(topic.messages) then Dispatch(r.id, old(Answers(start, r))) else Tick(0)
      ensures Consumes(old(View(start)), r, action) && View(now) == Apply(breaker.config, old(View(start)), action)
      ensures Informed(start, history) && start <= now
      ensures SentToSwitchedOn(old(View(start)), View(now), r.id, history)
    {
      now := start;
      action := Tick(0);
      if r.id in topic.messages {
        action := Dispatch(r.id, Answers(start, r));
        now := ConsumeMessage(start, r, history);
      }
    }

    /** The other services change the endpoints table, at any instants since `seen` and up to `now`. */
    method TableChanges(ghost seen: int, ghost now: int, changes: seq<EC.Change>, ghost history: seq<EC.Version>)
        returns (ghost history': seq<EC.Version>)
      requires Informed(seen, history) && seen <= now
      modifies endpointRepo
      ensures history' == history + EC.Stamped(seen, now, changes) && Informed(now, history')
    {
      EC.StampedInOrder(seen, now, changes);
      EC.ChangesKeepSound(EC.State(seen, history, cache.entries), now, changes);
      history' := history + EC.Stamped(seen, now, changes);
      if |changes| > 0 {
        endpointRepo.rows := changes[|changes| - 1].rows;
      }
    }

    method PlayRound(start: int, r: Round, ghost seen: int, ghost history: seq<EC.Version>)
        returns (now: int, ghost action: Action, ghost history': seq<EC.Version>)
      requires Informed(seen, history) && seen <= start
      modifies eventRepo, attemptRepo, letterRepo, topic, breaker, lockRepo, cache, endpointRepo
      ensures history' == history + EC.Stamped(seen, start + r.idle, r.changes)
      ensures Informed(start + r.idle, history') && start + r.idle <= now
      ensures var waited := Apply(breaker.config, old(View(start)), Tick(r.idle));
              && Consumes(waited, r, action) && View(now) == Apply(breaker.config, waited, action)
              && SentToSwitchedOn(waited, View(now), r.id, history')
    {
      history' := TableChanges(seen, start + r.idle, r.changes, history);
      assert View(start + r.idle) == Apply(breaker.config, old(View(start)), Tick(r.idle));
      now, action := TakeTurn(start + r.idle, r, history');
    }

    /** The consumer loop over any finite series of fetches. A fetch of what is not there is an error and is
        skipped. The session is a legal run from what the stores held to what they hold, and each of its
        fetches is answered in it. Meanwhile others change the endpoints; still, whenever an attempt is logged
        the endpoint was switched on at some instant of the minute before the fetch. */
    method Start(from: int, rounds: seq<Round>, ghost past: seq<EC.Version>)
        returns (now: int, ghost trace: Run, ghost history: seq<EC.Version>)
      requires Informed(from, past)
      modifies eventRepo, attemptRepo, letterRepo, topic, breaker, lockRepo, cache, endpointRepo
      ensures Session(breaker.config, rounds, trace)
      ensures trace.states[0] == old(View(from)) && Last(trace) == View(now)
      ensures history == Chronicle(past, from, trace.states, rounds)
      ensures forall i: nat :: i < |rounds| ==> SentAt(from, rounds, trace.states, history, i)
    {
      now, trace, history := from, Run([View(from)], []), past;
      ghost var seen := from;
      for i := 0 to |rounds|
        invariant Recorded(breaker.config, past, from, rounds[..i], trace, history) == true
        invariant trace.states[0] == old(View(from)) && Last(trace) == View(now)
        invariant seen == Seen(from, trace.states, i) <= now && Informed(seen, history)
      {
        ghost var action, longer;
        var fetched := now + rounds[i].idle;
        now, action, longer := PlayRound(now, rounds[i], seen, history);
        trace := RecordOneMore(breaker.config, past, from, rounds, i, trace, action, history, longer);
        seen, history := fetched, longer;
      }
      assert rounds[..|rounds|] == rounds;
    }
  }

  /** One turn of the loop: an idle spell, what becomes of the endpoints table since the last fetch, the message
      fetched, what it meets, and whether the commit works. */
  datatype Round = Round(idle: nat, changes: seq<EC.Change>, id: string, k: Conditions, committed: bool)

  /** What round `r` makes of state s: the message's dispatch under the round's conditions if it is on the topic,
      and otherwise nothing. */
  ghost predicate Consumes(s: State, r: Round, a: Action) {
    if r.id in s.topic
    then && a.Dispatch? && a.id == r.id && Reports(a.env.(committed := false), r.k)
         && a.env.committed == r.committed && (r.k.lockFails ==> !a.env.locked)
    else a == Tick(0)
  }

  /** Steps 2i and 2i + 1 of the run are the wait of round i, and what its fetch led to. */
  ghost predicate RoundAt(rounds: seq<Round>, r: Run, i: nat)
    requires i < |rounds| && |r.actions| == 2 * |rounds| && |r.states| == |r.actions| + 1
  {
    r.actions[2 * i] == Tick(rounds[i].idle) && Consumes(r.states[2 * i + 1], rounds[i], r.actions[2 * i + 1])
  }

  /** A legal run of two steps a round. */
  ghost predicate Session(c: CB.Config, rounds: seq<Round>, r: Run) {
    && Legal(c, r) && |r.actions| == 2 * |rounds|
    && forall i: nat :: i < |rounds| ==> RoundAt(rounds, r, i)
  }

  /** The instant of the fetch before round i. */
  function Seen(from: int, states: seq<State>, i: nat): int
    requires 2 * i <= |states|
  {
    if i == 0 then from else states[2 * i - 1].now
  }

  /** The history of the endpoints table over the rounds. */
  function Chronicle(past: seq<EC.Version>, from: int, states: seq<State>, rounds: seq<Round>): seq<EC.Version>
    requires 2 * |rounds| <= |states|
  {
    if rounds == [] then past
    else
      var n := |rounds| - 1;
      Chronicle(past, from, states, rounds[..n])
      + EC.Stamped(Seen(from, states, n), states[2 * n + 1].now, rounds[n].changes)
  }

  /** If an attempt was logged between the two states, it is one of that event, and its endpoint was switched on
      at some instant of the minute before. */
  ghost predicate SentToSwitchedOn(before: State, after: State, id: string, history: seq<EC.Version>) {
    after.attempts != before.attempts ==>
      && id in before.events && after.attempts != []
      && after.attempts[|after.attempts| - 1].eventId == id
      && after.attempts[|after.attempts| - 1].endpoint == before.events[id].endpoint
      && EC.WasThere(history, before.events[id].endpoint, true, before.now - 60_000_000_000, before.now)
  }

  lemma {:induction false} SwitchedOnStays(before: State, after: State, id: string, history: seq<EC.Version>, more: seq<EC.Version>)
    requires SentToSwitchedOn(before, after, id, history) && forall i :: 0 <= i < |more| ==> before.now <= more[i].since
    ensures SentToSwitchedOn(before, after, id, history + more)
  {
    if after.attempts != before.attempts {
      EC.WasThereStays(history, more, before.events[id].endpoint, true, before.now - 60_000_000_000, before.now);
    }
  }

  lemma {:induction false} ChroniclePrefix(past: seq<EC.Version>, from: int, states: seq<State>, more: seq<State>, rounds: seq<Round>)
    requires 2 * |rounds| <= |states|
    ensures Chronicle(past, from, states + more, rounds) == Chronicle(past, from, states, rounds)
    decreases |rounds|
  {
    if rounds != [] {
      ChroniclePrefix(past, from, states, more, rounds[..|rounds| - 1]);
    }
  }

  /** In round i: if an attempt was logged, it is of that event, and its endpoint was switched on. */
  ghost predicate SentAt(from: int, rounds: seq<Round>, states: seq<State>, history: seq<EC.Version>, i: nat)
    requires i < |rounds| && |states| == 2 * |rounds| + 1
  {
    && states[2 * i + 1].now <= Seen(from, states, |rounds|)
    && SentToSwitchedOn(states[2 * i + 1], states[2 * i + 2], rounds[i].id, history)
  }

  /** A session with the history of the endpoints table over it. */
  ghost predicate Recorded(c: CB.Config, past: seq<EC.Version>, from: int, rounds: seq<Round>, r: Run, history: seq<EC.Version>) {
    && Session(c, rounds, r) && history == Chronicle(past, from, r.states, rounds)
    && forall i: nat :: i < |rounds| ==> SentAt(from, rounds, r.states, history, i)
  }

  lemma RecordOneMore(c: CB.Config, past: seq<EC.Version>, from: int, rounds: seq<Round>, i: nat, r: Run, a: Action,
                      history: seq<EC.Version>, history': seq<EC.Version>) returns (r': Run)
    requires i < |rounds| && Recorded(c, past, from, rounds[..i], r, history)
    requires Seen(from, r.states, i) <= Last(r).now
    requires history' == history + EC.Stamped(Seen(from, r.states, i), Last(r).now + rounds[i].idle, rounds[i].changes)
    requires var waited := Apply(c, Last(r), Tick(rounds[i].idle));
             Consumes(waited, rounds[i], a) && SentToSwitchedOn(waited, Apply(c, waited, a), rounds[i].id, history')
    ensures Recorded(c, past, from, rounds[..i + 1], r', history') && r'.states[0] == r.states[0]
    ensures Last(r') == Apply(c, Apply(c, Last(r), Tick(rounds[i].idle)), a)
    ensures Seen(from, r'.states, i + 1) == Last(r).now + rounds[i].idle
  {
    r' := SessionOneMore(c, rounds, i, r, a);
    var made := EC.Stamped(Seen(from, r.states, i), Last(r).now + rounds[i].idle, rounds[i].changes);
    RecordChronicle(past, from, rounds, i, r.states, r'.states, made);
    EC.StampedInOrder(Seen(from, r.states, i), Last(r).now + rounds[i].idle, rounds[i].changes);
    RecordSent(c, past, from, rounds, i, r, r', history, made);
  }

  lemma RecordSent(c: CB.Config, past: seq<EC.Version>, from: int, rounds: seq<Round>, i: nat, r: Run, r': Run,
                   history: seq<EC.Version>, made: seq<EC.Version>)
    requires i < |rounds| && Recorded(c, past, from, rounds[..i], r, history)
    requires |r'.states| == 2 * i + 3 && r'.states[..|r.states|] == r.states
    requires Seen(from, r.states, i) <= r'.states[2 * i + 1].now
    requires forall k :: 0 <= k < |made| ==> Seen(from, r.states, i) <= made[k].since
    requires SentToSwitchedOn(r'.states[2 * i + 1], r'.states[2 * i + 2], rounds[i].id, history + made)
    ensures forall j: nat {:trigger SentAt(from, rounds[..i + 1], r'.states, history + made, j)} ::
              j < i + 1 ==> SentAt(from, rounds[..i + 1], r'.states, history + made, j)
  {
    forall j: nat {:trigger SentAt(from, rounds[..i + 1], r'.states, history + made, j)} | j < i + 1
      ensures SentAt(from, rounds[..i + 1], r'.states, history + made, j)
    {
      if j < i {
        assert SentAt(from, rounds[..i], r.states, history, j);
        SentAtStays(from, rounds, i, r.states, r'.states, history, made, j);
      }
    }
  }

  lemma SentAtStays(from: int, rounds: seq<Round>, i: nat, states: seq<State>, states': seq<State>,
                    history: seq<EC.Version>, made: seq<EC.Version>, j: nat)
    requires j < i < |rounds| && |states| == 2 * i + 1 && |states'| == 2 * i + 3 && states'[..|states|] == states
    requires SentAt(from, rounds[..i], states, history, j)
    requires Seen(from, states, i) <= states'[2 * i + 1].now
    requires forall k :: 0 <= k < |made| ==> Seen(from, states, i) <= made[k].since
    ensures SentAt(from, rounds[..i + 1], states', history + made, j)
  {
    assert states[2 * j + 1] == states'[2 * j + 1] && states[2 * j + 2] == states'[2 * j + 2];
    SwitchedOnStays(states[2 * j + 1], states[2 * j + 2], rounds[j].id, history, made);
  }

  lemma RecordChronicle(past: seq<EC.Version>, from: int, rounds: seq<Round>, i: nat, states: seq<State>,
                        states': seq<State>, made: seq<EC.Version>)
    requires i < |rounds| && |states| == 2 * i + 1 && |states'| == 2 * i + 3 && states'[..|states|] == states
    requires made == EC.Stamped(Seen(from, states, i), states'[2 * i + 1].now, rounds[i].changes)
    ensures Chronicle(past, from, states', rounds[..i + 1]) == Chronicle(past, from, states, rounds[..i]) + made
  {
    ChroniclePrefix(past, from, states, states'[|states|..], rounds[..i]);
    assert states' == states + states'[|states|..];
    assert rounds[..i + 1][..i] == rounds[..i];
  }

  /** A lookup leaves the cache sound, and its answer is borne out by the table's history. */
  lemma LookupIsBornOut(s: EC.State, ep: string, f: EC.Faults)
    requires EC.Sound(s)
    ensures EC.Sound(s.(entries := EC.LookupEntries(EC.Current(s), s.entries, ep, s.now, f)))
    ensures match EC.LookupResult(EC.Current(s), s.entries, ep, s.now, f)
            case Found(e) => EC.WasThere(s.history, ep, e.active, s.now - 60_000_000_000, s.now)
            case Missing => ep !in EC.Current(s)
            case Broken => true
  {
    EC.StepKeepsSound(s, EC.Read(ep, f));
    EC.AnswerIsRecent(s, ep, f);
    var r := EC.LookupResult(EC.Current(s), s.entries, ep, s.now, f);
    if r.Found? {
      EC.CurrentWasThere(s.history, ep, r.endpoint, s.now - 60_000_000_000, s.now);
    }
  }

  lemma SessionOneMore(c: CB.Config, rounds: seq<Round>, i: nat, r: Run, a: Action) returns (r': Run)
    requires i < |rounds| && Session(c, rounds[..i], r)
    requires Consumes(Apply(c, Last(r), Tick(rounds[i].idle)), rounds[i], a)
    ensures Session(c, rounds[..i + 1], r') && r'.states[..|r.states|] == r.states
    ensures r'.states[|r.states|..] == [Apply(c, Last(r), Tick(rounds[i].idle)),
                                        Apply(c, Apply(c, Last(r), Tick(rounds[i].idle)), a)]
  {
    var wait := Tick(rounds[i].idle);
    var waited := Extend(c, r, wait);
    ExtendIsLegal(c, r, wait);
    ExtendIsLegal(c, waited, a);
    r' := Extend(c, waited, a);
    forall j: nat {:trigger RoundAt(rounds[..i + 1], r', j)} | j < i + 1
      ensures RoundAt(rounds[..i + 1], r', j)
    {
      if j < i {
        assert RoundAt(rounds[..i], r, j);
      }
    }
  }

  lemma CommitEffect(c: CB.Config, s: State, id: string, env: Env, committed: bool)
    requires !env.committed
    ensures Process(c, s, id, env.(committed := committed)) ==
            Process(c, s, id, env).(topic := if committed then s.topic - multiset{id} else s.topic)
  {
  }

  /** The random source never gets a window it would panic on. */
  lemma WindowIsPositive(attempt: int32, base: RetryBase)
    ensures Backoff.Delay(attempt, base) > 0
  {
    if attempt >= 1 {
      Backoff.DelayIsCeiling(attempt, base);
    } else {
      Backoff.AttemptZeroIsUncapped(attempt, base);
    }
  }
}
