/** The delivery protocol with each call of Create, processMessage and processRetryableEvents as one step:
    internal/service/event.go, dispatcher.go and scheduler.go over the tables, the topic and the breaker. */
module Lifecycle {
  import opened Prelude
  import opened Domain
  import Backoff
  import CB = CircuitBreaker

  type Events = map<string, Event>

  /** The topic holds event ids; a multiset, because messages may be repeated and overtake each other. */
  datatype State = State(now: int, events: Events, topic: multiset<string>, attempts: seq<Attempt>,
                         deadLetters: seq<DeadLetter>, breaker: CB.Keys)

  const START := State(0, map[], multiset{}, [], [], CB.NO_KEYS)

  datatype Target = Active | Inactive | NotFound | Unreadable

  /** Everything one processMessage finds outside: what its reads answer, what the endpoint replies and how
      long that takes, and which of its writes are stored. */
  datatype Env = Env(
    readFails: bool, locked: bool, breakerReadFails: bool, setLost: bool, target: Target,
    reply: Reply, took: nat, retryBase: RetryBase, draw: nat,
    attemptStored: bool, breakerFaults: CB.Faults, letterStored: bool, statusStored: bool, committed: bool)

  datatype Verdict =
    | Skip               // unknown, resolved, unreadable, or locked elsewhere
    | Refuse             // the breaker says no, or cannot be read
    | Abort              // the endpoint cannot be read
    | Bury(reason: Reason, code: int)    // dead letter without a delivery
    | Deliver

  function Judge(c: CB.Config, s: State, id: string, env: Env): Verdict {
    if env.readFails || id !in s.events || s.events[id].Resolved() || !env.locked then Skip
    else if env.breakerReadFails || !CB.Passes(c, s.breaker, s.events[id].endpoint, Unix(s.now)) then Refuse
    else match env.target
      case Unreadable => Abort
      case NotFound => Bury(EndpointNotFound, 0)
      case Inactive => Bury(EndpointInactive, 0)
      case Active => Deliver
  }

  /** The event row after a delivery was answered at `done` and every write was stored. */
  function Answered(e: Event, env: Env, done: int): Event {
    if env.reply.Success() then e.(status := Delivered)
    else if e.attemptCount + 1 >= e.maxAttempts then e.(status := Failed)
    else e.(status := Retrying, attemptCount := e.attemptCount + 1,
            nextRetryAt := Some(done + Jitter(e.attemptCount + 1, env)))
  }

  function Jitter(attempt: int32, env: Env): nat { Backoff.Drawn(attempt, env.retryBase, env.draw) }

  /** The delivery failed and was the last one allowed. */
  predicate Exhausts(e: Event, env: Env) {
    !env.reply.Success() && e.attemptCount + 1 >= e.maxAttempts
  }

  function BreakerAfter(c: CB.Config, s: State, id: string, env: Env): CB.Keys {
    var v := Judge(c, s, id, env);
    if v == Skip || env.breakerReadFails then s.breaker
    else
      var ep := s.events[id].endpoint;
      var allowed := CB.AfterAllow(c, s.breaker, ep, Unix(s.now), env.setLost);
      if v != Deliver then allowed
      else CB.AfterOutcome(c, allowed, ep, Unix(s.now + env.took), env.reply.Success(), env.breakerFaults)
  }

  function LettersAfter(c: CB.Config, s: State, id: string, env: Env): seq<DeadLetter> {
    match Judge(c, s, id, env)
    case Bury(reason, code) =>
      if env.letterStored then s.deadLetters + [NewLetter(id, s.events[id], reason, code)] else s.deadLetters
    case Deliver =>
      if Exhausts(s.events[id], env) && env.letterStored
      then s.deadLetters + [NewLetter(id, s.events[id], FailureReason(env.reply), env.reply.statusCode)]
      else s.deadLetters
    case _ => s.deadLetters
  }

  function RowAfter(c: CB.Config, s: State, id: string, env: Env): Event
    requires id in s.events
  {
    var e := s.events[id];
    if !env.statusStored then e
    else match Judge(c, s, id, env)
      case Bury(_, _) => e.(status := Failed)
      case Deliver => Answered(e, env, s.now + env.took)
      case _ => e
  }

  function TopicAfter(s: State, id: string, env: Env): multiset<string> {
    if env.committed then s.topic - multiset{id} else s.topic
  }

  /** processMessage, and the commit that follows it whatever it returned. */
  function Process(c: CB.Config, s: State, id: string, env: Env): State {
    var delivers := Judge(c, s, id, env) == Deliver;
    var done := if delivers then s.now + env.took else s.now;
    State(
      done,
      if id in s.events then s.events[id := RowAfter(c, s, id, env)] else s.events,
      TopicAfter(s, id, env),
      if delivers && env.attemptStored
      then s.attempts + [Attempt(id, s.events[id].endpoint, s.events[id].attemptCount + 1, env.reply, done)]
      else s.attempts,
      LettersAfter(c, s, id, env),
      BreakerAfter(c, s, id, env))
  }

  // The four shapes a Dispatch step can have -----------------------------------------------------------

  function RowUpdate(s: State, id: string, e: Event, env: Env): Events {
    if env.statusStored then s.events[id := e] else s.events
  }

  lemma SkipShape(c: CB.Config, s: State, id: string, env: Env)
    requires Judge(c, s, id, env) == Skip
    ensures Process(c, s, id, env) == s.(topic := TopicAfter(s, id, env))
  {
    if id in s.events {
      assert s.events[id := s.events[id]] == s.events;
    }
  }

  lemma RefusalShape(c: CB.Config, s: State, id: string, env: Env)
    requires Judge(c, s, id, env) == Refuse || Judge(c, s, id, env) == Abort
    ensures Process(c, s, id, env) == s.(topic := TopicAfter(s, id, env), breaker := BreakerAfter(c, s, id, env))
  {
    assert s.events[id := s.events[id]] == s.events;
  }

  lemma BurialShape(c: CB.Config, s: State, id: string, env: Env)
    requires Judge(c, s, id, env).Bury?
    ensures var v, e := Judge(c, s, id, env), s.events[id];
            Process(c, s, id, env) ==
              s.(events := RowUpdate(s, id, e.(status := Failed), env),
                 topic := TopicAfter(s, id, env),
                 deadLetters := if env.letterStored then s.deadLetters + [NewLetter(id, e, v.reason, v.code)]
                                else s.deadLetters,
                 breaker := CB.AfterAllow(c, s.breaker, e.endpoint, Unix(s.now), env.setLost))
  {
    assert s.events[id := s.events[id]] == s.events;
  }

  lemma DeliveryShape(c: CB.Config, s: State, id: string, env: Env)
    requires Judge(c, s, id, env) == Deliver
    ensures var e, done := s.events[id], s.now + env.took;
            var allowed := CB.AfterAllow(c, s.breaker, e.endpoint, Unix(s.now), env.setLost);
            Process(c, s, id, env) == State(
              done,
              RowUpdate(s, id, Answered(e, env, done), env),
              TopicAfter(s, id, env),
              if env.attemptStored
              then s.attempts + [Attempt(id, e.endpoint, e.attemptCount + 1, env.reply, done)] else s.attempts,
              if Exhausts(e, env) && env.letterStored
              then s.deadLetters + [NewLetter(id, e, FailureReason(env.reply), env.reply.statusCode)] else s.deadLetters,
              CB.AfterOutcome(c, allowed, e.endpoint, Unix(done), env.reply.Success(), env.breakerFaults))
  {
    assert s.events[id := s.events[id]] == s.events;
  }

  /** One processMessage in full: who is attended to, what is sent, which replies are accepted, what is logged,
      what is written to the dead letters, and what becomes of the row. */
  lemma ProcessInFull(c: CB.Config, s: State, id: string, env: Env)
    requires id in s.events
    ensures var e, s' := s.events[id], Process(c, s, id, env);
            var attended := !env.readFails && e.status != Delivered && e.status != Failed && env.locked
                            && !env.breakerReadFails && CB.Passes(c, s.breaker, e.endpoint, s.now / 1_000_000_000);
            var sent := attended && env.target == Active;
            var accepted := 200 <= env.reply.statusCode <= 299 && env.reply.error == None;
            var last := e.attemptCount + 1 >= e.maxAttempts;
            && s'.now == s.now + (if sent then env.took else 0)
            && s'.attempts == s.attempts +
                 (if sent && env.attemptStored
                  then [Attempt(id, e.endpoint, e.attemptCount + 1, env.reply, s.now + env.took)] else [])
            && s'.deadLetters == s.deadLetters +
                 (if !attended || !env.letterStored then []
                  else match env.target
                    case NotFound =>
                      [DeadLetter(id, e.tenant, e.endpoint, e.eventType, e.payload, EndpointNotFound, 0, e.attemptCount)]
                    case Inactive =>
                      [DeadLetter(id, e.tenant, e.endpoint, e.eventType, e.payload, EndpointInactive, 0, e.attemptCount)]
                    case Unreadable => []
                    case Active =>
                      if accepted || !last then []
                      else [DeadLetter(id, e.tenant, e.endpoint, e.eventType, e.payload,
                                       if env.reply.error.Some? then ConnectionError(env.reply.error.value)
                                       else HttpStatus(env.reply.statusCode),
                                       env.reply.statusCode, e.attemptCount)])
            && s'.events == s.events[id :=
                 if !attended || !env.statusStored || env.target == Unreadable then e
                 else if env.target != Active then e.(status := Failed)
                 else if accepted then e.(status := Delivered)
                 else if last then e.(status := Failed)
                 else e.(status := Retrying, attemptCount := e.attemptCount + 1, nextRetryAt := s'.events[id].nextRetryAt)]
            && s'.topic == if env.committed then s.topic - multiset{id} else s.topic
  {
    assert s.events[id := s.events[id]] == s.events;
    assert s.attempts + [] == s.attempts && s.deadLetters + [] == s.deadLetters;
  }

  // The scheduler ---------------------------------------------------------------------------------

  predicate Due(e: Event, now: int) {
    e.status == Retrying && e.nextRetryAt.Some? && e.nextRetryAt.value <= now
  }

  function DueIds(events: Events, now: int): set<string> {
    set id | id in events && Due(events[id], now)
  }

  ghost predicate Distinct(ids: seq<string>) {
    forall i, j :: 0 <= i < j < |ids| ==> ids[i] != ids[j]
  }

  /** What the due query may return: at most `limit` distinct due events in order of their due time, as many
      as there are, and none left behind that is due earlier than one returned. Ties may fall either way. */
  ghost predicate EarliestDue(events: Events, now: int, limit: nat, batch: seq<string>) {
    && Distinct(batch)
    && (forall i :: 0 <= i < |batch| ==> batch[i] in DueIds(events, now))
    && |batch| == Min(limit, |DueIds(events, now)|)
    && (forall i, j :: 0 <= i < j < |batch| ==>
          events[batch[i]].nextRetryAt.value <= events[batch[j]].nextRetryAt.value)
    && (forall i, id :: 0 <= i < |batch| && id in DueIds(events, now) && id !in batch ==>
          events[batch[i]].nextRetryAt.value <= events[id].nextRetryAt.value)
  }

  function Published(batch: seq<string>, sent: set<string>): set<string> { set id | id in batch && id in sent }

  /** processRetryableEvents: publish each, and mark queued only those published. */
  function Requeue(s: State, batch: seq<string>, published: set<string>, stored: set<string>): State {
    s.(events := map id | id in s.events ::
         if id in batch && id in published && id in stored then s.events[id].(status := Queued) else s.events[id],
       topic := s.topic + multiset(Published(batch, published)))
  }

  // Runs ------------------------------------------------------------------------------------------

  function NewEvent(tenant: string, endpoint: string, eventType: string, payload: string, signature: string): Event {
    Event(tenant, endpoint, eventType, payload, signature, Pending, 0, MAX_ATTEMPTS, None)
  }

  /** An accepted Create: insert, publish, and mark queued if published. */
  function Accept(s: State, id: string, e: Event, published: bool, stored: bool): State {
    s.(events := s.events[id := if published && stored then e.(status := Queued) else e],
       topic := if published then s.topic + multiset{id} else s.topic)
  }

  datatype Action =
    | Create(id: string, tenant: string, endpoint: string, eventType: string, payload: string, signature: string,
             published: bool, stored: bool)
    | Dispatch(id: string, env: Env)
    | Schedule(limit: nat, batch: seq<string>, publishedIds: set<string>, storedIds: set<string>)
    | Redeliver(id: string)
    | Tick(ns: nat)

  ghost predicate Enabled(s: State, a: Action) {
    match a
    case Create(id, _, _, _, _, _, _, _) => id !in s.events
    case Dispatch(id, _) => id in s.topic
    case Schedule(limit, batch, _, _) => EarliestDue(s.events, s.now, limit, batch)
    case Redeliver(_) => true
    case Tick(_) => true
  }

  function Apply(c: CB.Config, s: State, a: Action): State {
    match a
    case Create(id, tenant, endpoint, eventType, payload, signature, published, stored) =>
      Accept(s, id, NewEvent(tenant, endpoint, eventType, payload, signature), published, stored)
    case Dispatch(id, env) => Process(c, s, id, env)
    case Schedule(_, batch, published, stored) => Requeue(s, batch, published, stored)
    case Redeliver(id) => s.(topic := s.topic + multiset{id})
    case Tick(ns) => s.(now := s.now + ns)
  }

  /** States with the actions between them. */
  datatype Run = Run(states: seq<State>, actions: seq<Action>)

  /** Every action was possible where it was taken, and led to the next state. */
  ghost predicate Legal(c: CB.Config, r: Run) {
    && |r.states| == |r.actions| + 1
    && forall i {:trigger r.actions[i]} :: 0 <= i < |r.actions| ==>
         Enabled(r.states[i], r.actions[i]) && r.states[i + 1] == Apply(c, r.states[i], r.actions[i])
  }

  ghost predicate LegalFromStart(c: CB.Config, r: Run) {
    Legal(c, r) && r.states[0] == START
  }

  function Last(r: Run): State
    requires r.states != []
  {
    r.states[|r.states| - 1]
  }

  function Extend(c: CB.Config, r: Run, a: Action): Run
    requires r.states != []
  {
    Run(r.states + [Apply(c, Last(r), a)], r.actions + [a])
  }

  lemma ExtendIsLegal(c: CB.Config, r: Run, a: Action)
    requires Legal(c, r) && Enabled(Last(r), a)
    ensures Legal(c, Extend(c, r, a))
    ensures Last(Extend(c, r, a)) == Apply(c, Last(r), a) && Extend(c, r, a).states[0] == r.states[0]
  {
    var r' := Extend(c, r, a);
    forall i | 0 <= i < |r'.actions|
      ensures Enabled(r'.states[i], r'.actions[i]) && r'.states[i + 1] == Apply(c, r'.states[i], r'.actions[i])
    {
      if i < |r.actions| {
        assert r'.actions[i] == r.actions[i];
      }
    }
  }
}
