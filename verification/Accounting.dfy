/** What the attempt log and the dead-letter table say about each event, over whole runs of the protocol with
    repeated and reordered messages, as long as the rows a message writes are stored. */
module Accounting {
  import opened Prelude
  import opened Domain
  import opened Lifecycle
  import CB = CircuitBreaker

  /** The attempt rows of one event, in the order they were inserted. */
  function RowsOf(attempts: seq<Attempt>, id: string): seq<Attempt> {
    if attempts == [] then []
    else
      var rows := RowsOf(attempts[..|attempts| - 1], id);
      if attempts[|attempts| - 1].eventId == id then rows + [attempts[|attempts| - 1]] else rows
  }

  function LettersOf(letters: seq<DeadLetter>, id: string): seq<DeadLetter> {
    if letters == [] then []
    else
      var found := LettersOf(letters[..|letters| - 1], id);
      if letters[|letters| - 1].eventId == id then found + [letters[|letters| - 1]] else found
  }

  lemma RowAppended(attempts: seq<Attempt>, row: Attempt, id: string)
    ensures RowsOf(attempts + [row], id) == RowsOf(attempts, id) + if row.eventId == id then [row] else []
  {
    assert (attempts + [row])[..|attempts|] == attempts;
    assert RowsOf(attempts, id) + [] == RowsOf(attempts, id);
  }

  lemma LetterAppended(letters: seq<DeadLetter>, letter: DeadLetter, id: string)
    ensures LettersOf(letters + [letter], id) == LettersOf(letters, id) + if letter.eventId == id then [letter] else []
  {
    assert (letters + [letter])[..|letters|] == letters;
    assert LettersOf(letters, id) + [] == LettersOf(letters, id);
  }

  /** The event was given up on after its last allowed delivery, not for want of an endpoint. */
  predicate Exhausted(letters: seq<DeadLetter>) {
    letters != [] && (letters[0].reason.ConnectionError? || letters[0].reason.HttpStatus?)
  }

  /** How many deliveries of the event there must have been. */
  function Spent(e: Event, letters: seq<DeadLetter>): int {
    e.attemptCount + if e.status == Delivered || Exhausted(letters) then 1 else 0
  }

  predicate Describes(letter: DeadLetter, id: string, e: Event) {
    letter == NewLetter(id, e, letter.reason, letter.lastStatusCode)
  }

  /** The letter says what the log says: of a last attempt, how it failed; without one, nothing. */
  predicate Explains(letter: DeadLetter, rows: seq<Attempt>) {
    match letter.reason
    case ConnectionError(message) =>
      rows != [] && rows[|rows| - 1].reply == Reply(letter.lastStatusCode, Some(message))
    case HttpStatus(code) =>
      rows != [] && rows[|rows| - 1].reply == Reply(code, None) && letter.lastStatusCode == code
    case _ => letter.lastStatusCode == 0
  }

  ghost predicate Accounted(id: string, e: Event, rows: seq<Attempt>, letters: seq<DeadLetter>) {
    && e.status != Delivering
    && 0 <= e.attemptCount < e.maxAttempts == MAX_ATTEMPTS
    && (e.nextRetryAt.Some? <==> e.attemptCount >= 1)
    && (e.status == Retrying ==> e.attemptCount >= 1)
    && |rows| == Spent(e, letters)
    && (forall i :: 0 <= i < |rows| ==> rows[i].number == i + 1 && rows[i].endpoint == e.endpoint)
    && (forall i :: 0 <= i < |rows| ==>
          (rows[i].reply.Success() <==> e.status == Delivered && i == e.attemptCount))
    && (e.status == Failed <==> |letters| == 1)
    && (e.status != Failed <==> letters == [])
    && (e.status == Failed ==> Describes(letters[0], id, e) && Explains(letters[0], rows))
    && (Exhausted(letters) ==> e.attemptCount + 1 == e.maxAttempts)
  }

  ghost predicate AccountedIn(s: State, id: string) {
    id in s.events && Accounted(id, s.events[id], RowsOf(s.attempts, id), LettersOf(s.deadLetters, id))
  }

  ghost predicate Unmentioned(s: State, id: string) {
    id !in s.events && RowsOf(s.attempts, id) == [] && LettersOf(s.deadLetters, id) == []
  }

  ghost predicate AllAccounted(s: State) {
    forall id :: AccountedIn(s, id) || Unmentioned(s, id)
  }

  /** The three rows that processing a message writes are stored; queue marks and publishes may fail. */
  predicate RowsStored(a: Action) {
    a.Dispatch? ==> a.env.attemptStored && a.env.letterStored && a.env.statusStored
  }

  /** Processing a message of one event leaves every other event's row, attempts and letters alone. */
  lemma OthersUntouched(c: CB.Config, s: State, id: string, env: Env, x: string)
    requires x != id
    ensures var s' := Process(c, s, id, env);
            && (x in s'.events <==> x in s.events)
            && (x in s.events ==> s'.events[x] == s.events[x])
            && RowsOf(s'.attempts, x) == RowsOf(s.attempts, x)
            && LettersOf(s'.deadLetters, x) == LettersOf(s.deadLetters, x)
  {
    var s' := Process(c, s, id, env);
    if s'.attempts != s.attempts {
      RowAppended(s.attempts, s'.attempts[|s.attempts|], x);
    }
    if s'.deadLetters != s.deadLetters {
      LetterAppended(s.deadLetters, s'.deadLetters[|s.deadLetters|], x);
    }
  }

  lemma DeliveryKeepsAccount(id: string, e: Event, env: Env, done: int, rows: seq<Attempt>, letters: seq<DeadLetter>)
    requires Accounted(id, e, rows, letters) && !e.Resolved()
    ensures Accounted(id, Answered(e, env, done),
                      rows + [Attempt(id, e.endpoint, e.attemptCount + 1, env.reply, done)],
                      if Exhausts(e, env)
                      then letters + [NewLetter(id, e, FailureReason(env.reply), env.reply.statusCode)] else letters)
  {
    assert letters == [] && |rows| == e.attemptCount;
  }

  lemma BurialKeepsAccount(id: string, e: Event, reason: Reason, rows: seq<Attempt>, letters: seq<DeadLetter>)
    requires Accounted(id, e, rows, letters) && !e.Resolved() && (reason.EndpointNotFound? || reason.EndpointInactive?)
    ensures Accounted(id, e.(status := Failed), rows, letters + [NewLetter(id, e, reason, 0)])
  {
    assert letters == [];
  }

  lemma DeliveryAppends(s: State, id: string, e: Event, env: Env, done: int, s': State)
    requires s'.attempts == s.attempts + [Attempt(id, e.endpoint, e.attemptCount + 1, env.reply, done)]
    requires s'.deadLetters == if Exhausts(e, env)
               then s.deadLetters + [NewLetter(id, e, FailureReason(env.reply), env.reply.statusCode)]
               else s.deadLetters
    ensures RowsOf(s'.attempts, id) ==
            RowsOf(s.attempts, id) + [Attempt(id, e.endpoint, e.attemptCount + 1, env.reply, done)]
    ensures LettersOf(s'.deadLetters, id) == if Exhausts(e, env)
              then LettersOf(s.deadLetters, id) + [NewLetter(id, e, FailureReason(env.reply), env.reply.statusCode)]
              else LettersOf(s.deadLetters, id)
  {
    RowAppended(s.attempts, Attempt(id, e.endpoint, e.attemptCount + 1, env.reply, done), id);
    if Exhausts(e, env) {
      LetterAppended(s.deadLetters, NewLetter(id, e, FailureReason(env.reply), env.reply.statusCode), id);
    }
  }

  lemma DeliveryAccounted(s: State, id: string, e: Event, env: Env, done: int, s': State)
    requires id in s.events && s.events[id] == e && AccountedIn(s, id) && !e.Resolved()
    requires s'.events == s.events[id := Answered(e, env, done)]
    requires s'.attempts == s.attempts + [Attempt(id, e.endpoint, e.attemptCount + 1, env.reply, done)]
    requires s'.deadLetters == if Exhausts(e, env)
               then s.deadLetters + [NewLetter(id, e, FailureReason(env.reply), env.reply.statusCode)]
               else s.deadLetters
    ensures AccountedIn(s', id)
  {
    DeliveryKeepsAccount(id, e, env, done, RowsOf(s.attempts, id), LettersOf(s.deadLetters, id));
    DeliveryAppends(s, id, e, env, done, s');
  }

  lemma BurialAccounted(s: State, id: string, reason: Reason, s': State)
    requires AccountedIn(s, id) && !s.events[id].Resolved() && (reason.EndpointNotFound? || reason.EndpointInactive?)
    requires s'.events == s.events[id := s.events[id].(status := Failed)] && s'.attempts == s.attempts
    requires s'.deadLetters == s.deadLetters + [NewLetter(id, s.events[id], reason, 0)]
    ensures AccountedIn(s', id)
  {
    LetterAppended(s.deadLetters, NewLetter(id, s.events[id], reason, 0), id);
    BurialKeepsAccount(id, s.events[id], reason, RowsOf(s.attempts, id), LettersOf(s.deadLetters, id));
  }

  lemma DispatchKeepsAccount(c: CB.Config, s: State, id: string, env: Env)
    requires AccountedIn(s, id) && RowsStored(Dispatch(id, env))
    ensures AccountedIn(Process(c, s, id, env), id)
  {
    var v := Judge(c, s, id, env);
    if v == Deliver {
      DeliveryShape(c, s, id, env);
      DeliveryAccounted(s, id, s.events[id], env, s.now + env.took, Process(c, s, id, env));
    } else if v.Bury? {
      BurialShape(c, s, id, env);
      BurialAccounted(s, id, v.reason, Process(c, s, id, env));
    } else if v == Skip {
      SkipShape(c, s, id, env);
    } else {
      RefusalShape(c, s, id, env);
    }
  }

  lemma ScheduleKeepsAccount(s: State, limit: nat, batch: seq<string>, published: set<string>, stored: set<string>, x: string)
    requires AccountedIn(s, x) && EarliestDue(s.events, s.now, limit, batch)
    ensures AccountedIn(Requeue(s, batch, published, stored), x)
  {
    if x in batch {
      assert x in DueIds(s.events, s.now);
    }
  }

  lemma StepKeepsAccountOf(c: CB.Config, s: State, a: Action, x: string)
    requires (AccountedIn(s, x) || Unmentioned(s, x)) && Enabled(s, a) && RowsStored(a)
    ensures AccountedIn(Apply(c, s, a), x) || Unmentioned(Apply(c, s, a), x)
  {
    match a {
      case Dispatch(id, env) =>
        if x != id {
          OthersUntouched(c, s, id, env, x);
        } else if id in s.events {
          DispatchKeepsAccount(c, s, id, env);
        }
      case Schedule(limit, batch, published, stored) =>
        if x in s.events {
          ScheduleKeepsAccount(s, limit, batch, published, stored, x);
        }
      case _ =>
    }
  }

  lemma StepKeepsAccounts(c: CB.Config, s: State, a: Action)
    requires AllAccounted(s) && Enabled(s, a) && RowsStored(a)
    ensures AllAccounted(Apply(c, s, a))
  {
    forall x
      ensures AccountedIn(Apply(c, s, a), x) || Unmentioned(Apply(c, s, a), x)
    {
      assert AccountedIn(s, x) || Unmentioned(s, x);
      StepKeepsAccountOf(c, s, a, x);
    }
  }

  lemma {:induction false} RunKeepsAccounts(c: CB.Config, r: Run, k: nat)
    requires LegalFromStart(c, r) && k < |r.states|
    requires forall i :: 0 <= i < |r.actions| ==> RowsStored(r.actions[i])
    ensures AllAccounted(r.states[k])
  {
    if k > 0 {
      RunKeepsAccounts(c, r, k - 1);
      StepKeepsAccounts(c, r.states[k - 1], r.actions[k - 1]);
    }
  }

  /** The attempt rows of every event are numbered 1, 2, ... without gap or repeat, one per delivery; there
      are never more than five; an event is delivered if and only if its last row has a status from 200 to 299
      and no error, and no earlier row has. */
  lemma AttemptsAreNumbered(c: CB.Config, r: Run, k: nat, id: string)
    requires LegalFromStart(c, r) && k < |r.states|
    requires forall i :: 0 <= i < |r.actions| ==> RowsStored(r.actions[i])
    ensures var s := r.states[k];
            var rows := RowsOf(s.attempts, id);
            && (forall i :: 0 <= i < |rows| ==> rows[i].number == i + 1)
            && |rows| <= 5
            && (id in s.events ==>
                 && |rows| == Spent(s.events[id], LettersOf(s.deadLetters, id))
                 && (s.events[id].status == Delivered <==>
                       rows != [] && 200 <= rows[|rows| - 1].reply.statusCode <= 299 && rows[|rows| - 1].reply.error == None)
                 && (forall i :: 0 <= i < |rows| - 1 ==>
                       !(200 <= rows[i].reply.statusCode <= 299 && rows[i].reply.error == None)))
  {
    RunKeepsAccounts(c, r, k);
    assert AccountedIn(r.states[k], id) || Unmentioned(r.states[k], id);
  }

  /** An event is failed exactly when one dead-letter row names it, and that row is the only one; it copies
      the event. If the endpoint was missing or inactive, its total is the number of deliveries made. Otherwise
      there were five, none of them accepted; its total is four, and its reason and status are those of the
      last one: the transport's error if there was one, and the status if not. */
  lemma DeadLettersAreConserved(c: CB.Config, r: Run, k: nat, id: string)
    requires LegalFromStart(c, r) && k < |r.states|
    requires forall i :: 0 <= i < |r.actions| ==> RowsStored(r.actions[i])
    ensures var s := r.states[k];
            var letters := LettersOf(s.deadLetters, id);
            && |letters| <= 1
            && (|letters| == 1 <==> id in s.events && s.events[id].status == Failed)
            && (|letters| == 1 ==>
                 var l, e, rows := letters[0], s.events[id], RowsOf(s.attempts, id);
                 && l.eventId == id && l.tenant == e.tenant && l.endpoint == e.endpoint
                 && l.eventType == e.eventType && l.payload == e.payload
                 && match l.reason
                    case EndpointNotFound => l.lastStatusCode == 0 && l.totalAttempts == |rows|
                    case EndpointInactive => l.lastStatusCode == 0 && l.totalAttempts == |rows|
                    case ConnectionError(message) =>
                      |rows| == 5 && l.totalAttempts == 4 && rows[4].reply == Reply(l.lastStatusCode, Some(message))
                    case HttpStatus(code) =>
                      |rows| == 5 && l.totalAttempts == 4 && rows[4].reply == Reply(code, None)
                      && l.lastStatusCode == code && !(200 <= code <= 299))
  {
    RunKeepsAccounts(c, r, k);
    assert AccountedIn(r.states[k], id) || Unmentioned(r.states[k], id);
  }

  lemma ResolvedStays(c: CB.Config, s: State, a: Action, id: string)
    requires Enabled(s, a) && id in s.events && s.events[id].Resolved()
    ensures id in Apply(c, s, a).events && Apply(c, s, a).events[id] == s.events[id]
  {
    assert a.Schedule? && id in a.batch ==> id in DueIds(s.events, s.now);
  }

  /** In any legal run, from any state and whichever writes are lost: once an event is delivered or failed, its
      row never changes again. */
  lemma {:induction false} ResolvedForGood(c: CB.Config, r: Run, j: nat, k: nat, id: string)
    requires Legal(c, r) && j <= k < |r.states|
    requires id in r.states[j].events && r.states[j].events[id].Resolved()
    ensures id in r.states[k].events && r.states[k].events[id] == r.states[j].events[id]
    decreases k
  {
    if j < k {
      ResolvedForGood(c, r, j, k - 1, id);
      ResolvedStays(c, r.states[k - 1], r.actions[k - 1], id);
    }
  }
}
