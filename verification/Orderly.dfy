/** What makes the interleaved dispatchers keep the books of the atomic ones: an event whose handlings do not
    overlap, and meet no outstanding queue mark, has its attempts numbered and its dead letter conserved,
    whatever the workers at other events do. */
module Orderly {
  import opened Prelude
  import opened Domain
  import opened Interleaving
  import opened Accounting
  import Lifecycle
  import Refinement

  /** From reading the row to the last write to it. */
  predicate Active(me: Worker, id: string) {
    me.At? && me.id == id && !me.pc.Leaving? && !me.pc.Deleting?
  }

  /** At most one worker is handling the event, and none while a queue mark for it is outstanding. */
  ghost predicate InTurn(s: State, id: string) {
    && (forall v, w :: 0 <= v < w < |s.workers| ==> !(Active(s.workers[v], id) && Active(s.workers[w], id)))
    && (forall w :: 0 <= w < |s.workers| && Active(s.workers[w], id) ==> id !in s.marks)
  }

  ghost predicate Handled(s: State, id: string) {
    exists w :: 0 <= w < |s.workers| && Active(s.workers[w], id)
  }

  predicate Owner(s: State, st: Step, id: string) {
    ByWorker(st) && !st.Fetch? && Busy(s, st.w) && s.workers[st.w].id == id
  }

  /** The rows a handling of the event writes are stored, and no worker crashes between its attempt row and its
      status write. */
  predicate Stores(s: State, st: Step, id: string) {
    Owner(s, st, id) ==>
      match st
      case Log(_, stored) => stored
      case Settle(_, _, _, stored) => stored
      case Bury(_, stored) => stored
      case MarkFailed(_, stored) => stored
      case Crash(w) => !s.workers[w].pc.Logged? && !s.workers[w].pc.Burying? && !s.workers[w].pc.Buried?
      case _ => true
  }

  ghost predicate Open(id: string, e: Event, rows: seq<Attempt>, letters: seq<DeadLetter>) {
    !e.Resolved() && Accounted(id, e, rows, letters)
  }

  /** The last row is the attempt the worker has just logged; the books balance without it. */
  ghost predicate JustLogged(me: Worker, reply: Reply, rows: seq<Attempt>, letters: seq<DeadLetter>)
    requires me.At?
  {
    && rows != []
    && rows[|rows| - 1] == Attempt(me.id, me.ev.endpoint, me.ev.attemptCount + 1, reply, rows[|rows| - 1].createdAt)
    && Open(me.id, me.ev, rows[..|rows| - 1], letters)
  }

  /** What the log and the letters hold while the worker is at its pc. */
  ghost predicate Books(me: Worker, rows: seq<Attempt>, letters: seq<DeadLetter>)
    requires me.At?
  {
    match me.pc
    case Logged(reply) => JustLogged(me, reply, rows, letters)
    case Burying(reason, code) =>
      || ((reason.EndpointNotFound? || reason.EndpointInactive?) && code == 0 && Open(me.id, me.ev, rows, letters))
      || (rows != [] && !rows[|rows| - 1].reply.Success() && me.ev.attemptCount + 1 >= me.ev.maxAttempts
          && reason == FailureReason(rows[|rows| - 1].reply) && code == rows[|rows| - 1].reply.statusCode
          && JustLogged(me, rows[|rows| - 1].reply, rows, letters))
    case Buried => Accounted(me.id, me.ev.(status := Failed), rows, letters)
    case _ => Open(me.id, me.ev, rows, letters)
  }

  /** The event's books, at rest or in the hands of the one worker that handles it. */
  ghost predicate Balanced(s: State, id: string) {
    var rows, letters := RowsOf(s.attempts, id), LettersOf(s.deadLetters, id);
    if id in s.events then
      && (id in s.marks ==> !s.events[id].Resolved())
      && (!Handled(s, id) ==> Accounted(id, s.events[id], rows, letters))
      && (forall w :: 0 <= w < |s.workers| && Active(s.workers[w], id) ==>
            s.workers[w].ev == s.events[id] && !s.events[id].Resolved() && Books(s.workers[w], rows, letters))
    else
      && rows == [] && letters == [] && id !in s.marks
      && forall w :: 0 <= w < |s.workers| && s.workers[w].At? ==> s.workers[w].id != id
  }

  // Steps that have nothing to do with the event ---------------------------------------------------------

  predicate Concerns(s: State, st: Step, id: string) {
    match st
    case Insert(x, _, _) => x == id
    case Republish(x) => x == id
    case Mark(x, _) => x == id
    case Fetch(_, x) => x == id
    case Wait(_) => false
    case _ => Owner(s, st, id)
  }

  predicate IsAt(me: Worker, id: string) { me.At? && me.id == id }

  /** The workers at the event are where they were. */
  ghost predicate SameWorkers(s: State, s': State, id: string) {
    && |s'.workers| == |s.workers|
    && (forall v :: 0 <= v < |s.workers| ==>
          (s'.workers[v] == s.workers[v]
           || (!IsAt(s.workers[v], id) && !IsAt(s'.workers[v], id))))
  }

  ghost predicate SameTables(s: State, s': State, id: string) {
    && (id in s'.events <==> id in s.events) && (id in s.events ==> s'.events[id] == s.events[id])
    && RowsOf(s'.attempts, id) == RowsOf(s.attempts, id)
    && LettersOf(s'.deadLetters, id) == LettersOf(s.deadLetters, id)
  }

  ghost predicate Spared(s: State, s': State, id: string) {
    SameTables(s, s', id) && SameWorkers(s, s', id) && (id in s'.marks <==> id in s.marks)
  }

  lemma SparedStaysBalanced(s: State, s': State, id: string)
    requires Balanced(s, id) && Spared(s, s', id)
    ensures Balanced(s', id)
  {
    assert forall v :: 0 <= v < |s.workers| ==> (Active(s.workers[v], id) <==> Active(s'.workers[v], id));
    assert Handled(s', id) <==> Handled(s, id);
  }

  /** Only worker w may have changed. */
  ghost predicate OthersStay(s: State, s': State, w: nat) {
    && |s'.workers| == |s.workers| && w < |s.workers| && s'.marks == s.marks
    && forall v :: 0 <= v < |s.workers| && v != w ==> s'.workers[v] == s.workers[v]
  }

  /** Worker w moved on to pc, or dropped out. */
  ghost predicate Moved(s: State, s': State, w: nat, me': Worker) {
    OthersStay(s, s', w) && s'.workers[w] == me'
  }

  lemma EarlyEffect(s: State, st: Step)
    requires Enabled(s, st) && Early(st) && !st.Fetch?
    ensures var s', me := Apply(s, st), s.workers[st.w];
            && Moved(s, s', st.w, s'.workers[st.w])
            && s'.events == s.events && s'.attempts == s.attempts && s'.deadLetters == s.deadLetters
            && (me.pc.Fetched? || me.pc.Holding? || me.pc.Admitted? || me.pc.Sending?)
            && (s'.workers[st.w].At? ==>
                  var me' := s'.workers[st.w];
                  && me'.id == me.id && me'.ev == me.ev && !me'.pc.Logged? && !me'.pc.Buried?
                  && (me'.pc.Burying? ==> (me'.pc.reason.EndpointNotFound? || me'.pc.reason.EndpointInactive?)
                                          && me'.pc.code == 0))
  {
  }

  lemma LateEffect(s: State, st: Step)
    requires Enabled(s, st) && Late(st)
    ensures var s', me := Apply(s, st), s.workers[st.w];
            && OthersStay(s, s', st.w) && s'.attempts == s.attempts && s'.deadLetters == s.deadLetters
            && (s'.workers[st.w].At? ==> me.At? && s'.workers[st.w].id == me.id
                                         && (s'.workers[st.w].pc.Leaving? || s'.workers[st.w].pc.Deleting?))
            && s'.events == if st.MarkFailed? && st.stored && me.id in s.events
                            then s.events[me.id := s.events[me.id].(status := Failed)] else s.events
  {
  }

  lemma EarlySpares(s: State, st: Step, id: string)
    requires Enabled(s, st) && !Concerns(s, st, id) && Early(st)
    ensures Spared(s, Apply(s, st), id)
  {
    if !st.Fetch? {
      EarlyEffect(s, st);
    }
  }

  lemma LogSpares(s: State, st: Step, id: string)
    requires Enabled(s, st) && !Concerns(s, st, id) && st.Log?
    ensures Spared(s, Apply(s, st), id)
  {
    if st.stored {
      Accounting.RowAppended(s.attempts, Apply(s, st).attempts[|s.attempts|], id);
    }
  }

  lemma BurySpares(s: State, st: Step, id: string)
    requires Enabled(s, st) && !Concerns(s, st, id) && st.Bury?
    ensures Spared(s, Apply(s, st), id)
  {
    if st.stored {
      LetterAppended(s.deadLetters, Apply(s, st).deadLetters[|s.deadLetters|], id);
    }
  }

  lemma SettleTouches(s: State, st: Step)
    requires Enabled(s, st) && st.Settle?
    ensures var s', me := Apply(s, st), s.workers[st.w];
            && OthersStay(s, s', st.w) && s'.attempts == s.attempts && s'.deadLetters == s.deadLetters
            && s'.workers[st.w].At? && s'.workers[st.w].id == me.id
            && s'.events - {me.id} == s.events - {me.id} && s'.events.Keys == s.events.Keys
  {
  }

  lemma SettleSpares(s: State, st: Step, id: string)
    requires Enabled(s, st) && !Concerns(s, st, id) && st.Settle?
    ensures Spared(s, Apply(s, st), id)
  {
    SettleTouches(s, st);
    var me := s.workers[st.w].id;
    assert id in s.events ==> Apply(s, st).events[id] == (Apply(s, st).events - {me})[id];
    assert id in s.events ==> s.events[id] == (s.events - {me})[id];
  }

  lemma LateSpares(s: State, st: Step, id: string)
    requires Enabled(s, st) && !Concerns(s, st, id) && Late(st)
    ensures Spared(s, Apply(s, st), id)
  {
    LateEffect(s, st);
  }

  lemma UnconcernedStep(s: State, st: Step, id: string)
    requires Balanced(s, id) && Enabled(s, st) && !Concerns(s, st, id)
    ensures Balanced(Apply(s, st), id)
  {
    if Early(st) {
      EarlySpares(s, st, id);
    } else if st.Log? {
      LogSpares(s, st, id);
    } else if st.Bury? {
      BurySpares(s, st, id);
    } else if st.Settle? {
      SettleSpares(s, st, id);
    } else if Late(st) {
      LateSpares(s, st, id);
    }
    SparedStaysBalanced(s, Apply(s, st), id);
  }

  // Steps that have -------------------------------------------------------------------------------------

  lemma NoOtherIsActive(s: State, s': State, w: nat, id: string, v: nat)
    requires InTurn(s, id) && OthersStay(s, s', w) && Active(s.workers[w], id) && v < |s.workers| && v != w
    ensures !Active(s'.workers[v], id)
  {
    assert s'.workers[v] == s.workers[v];
  }

  /** The handling worker is done with the event: the books must balance as they are. */
  lemma AtRest(s: State, s': State, w: nat, id: string)
    requires InTurn(s, id) && OthersStay(s, s', w) && Active(s.workers[w], id) && !Active(s'.workers[w], id)
    requires id in s'.events
    requires Accounted(id, s'.events[id], RowsOf(s'.attempts, id), LettersOf(s'.deadLetters, id))
    ensures Balanced(s', id)
  {
    forall v | 0 <= v < |s'.workers|
      ensures !Active(s'.workers[v], id)
    {
      if v != w {
        NoOtherIsActive(s, s', w, id, v);
      }
    }
  }

  /** The handling worker goes on: only it must agree with the books. */
  lemma InHand(s: State, s': State, w: nat, id: string)
    requires InTurn(s, id) && OthersStay(s, s', w) && Active(s.workers[w], id) && Active(s'.workers[w], id)
    requires id in s'.events && s'.workers[w].ev == s'.events[id] && !s'.events[id].Resolved()
    requires Books(s'.workers[w], RowsOf(s'.attempts, id), LettersOf(s'.deadLetters, id))
    ensures Balanced(s', id)
  {
    forall v | 0 <= v < |s'.workers| && v != w
      ensures !Active(s'.workers[v], id)
    {
      NoOtherIsActive(s, s', w, id, v);
    }
    assert Handled(s', id);
  }

  lemma EarlyBalances(s: State, st: Step, id: string)
    requires Balanced(s, id) && InTurn(s, id) && Enabled(s, st) && Owner(s, st, id) && Early(st)
    ensures Balanced(Apply(s, st), id)
  {
    EarlyEffect(s, st);
    var s' := Apply(s, st);
    assert Active(s.workers[st.w], id);
    EarlyBooks(s, s', st.w, id);
  }

  lemma EarlyBooks(s: State, s': State, w: nat, id: string)
    requires Balanced(s, id) && InTurn(s, id) && OthersStay(s, s', w) && Active(s.workers[w], id)
    requires s'.events == s.events && s'.attempts == s.attempts && s'.deadLetters == s.deadLetters
    requires Open(id, s.workers[w].ev, RowsOf(s.attempts, id), LettersOf(s.deadLetters, id))
    requires IsAt(s'.workers[w], id) ==>
               && s'.workers[w].ev == s.workers[w].ev
               && (Active(s'.workers[w], id) ==>
                     Books(s'.workers[w], RowsOf(s.attempts, id), LettersOf(s.deadLetters, id)))
    ensures Balanced(s', id)
  {
    if Active(s'.workers[w], id) {
      InHand(s, s', w, id);
    } else {
      AtRest(s, s', w, id);
    }
  }

  lemma LogEffect(s: State, st: Step)
    requires Enabled(s, st) && st.Log? && st.stored
    ensures var s', me := Apply(s, st), s.workers[st.w];
            && Moved(s, s', st.w, me.(pc := Logged(me.pc.reply)))
            && s'.events == s.events && s'.deadLetters == s.deadLetters
            && s'.attempts == s.attempts + [Attempt(me.id, me.ev.endpoint, me.ev.attemptCount + 1, me.pc.reply, s.now)]
  {
  }

  lemma LogBooks(me: Worker, rows: seq<Attempt>, letters: seq<DeadLetter>, reply: Reply, row: Attempt)
    requires me.At? && Open(me.id, me.ev, rows, letters)
    requires row == Attempt(me.id, me.ev.endpoint, me.ev.attemptCount + 1, reply, row.createdAt)
    ensures JustLogged(me, reply, rows + [row], letters)
  {
    assert (rows + [row])[..|rows|] == rows;
  }

  lemma LogBalances(s: State, st: Step, id: string)
    requires Balanced(s, id) && InTurn(s, id) && Enabled(s, st) && Owner(s, st, id) && st.Log? && st.stored
    ensures Balanced(Apply(s, st), id)
  {
    LogEffect(s, st);
    assert Active(s.workers[st.w], id);
    LoggedInHand(s, Apply(s, st), st.w, id, s.workers[st.w].pc.reply);
  }

  lemma LoggedInHand(s: State, s': State, w: nat, id: string, reply: Reply)
    requires Balanced(s, id) && InTurn(s, id) && w < |s.workers| && Active(s.workers[w], id)
    requires s.workers[w].pc == Answered(reply) && Moved(s, s', w, s.workers[w].(pc := Logged(reply)))
    requires s'.events == s.events && s'.deadLetters == s.deadLetters && id in s.events
    requires s'.attempts == s.attempts +
               [Attempt(id, s.workers[w].ev.endpoint, s.workers[w].ev.attemptCount + 1, reply, s.now)]
    ensures Balanced(s', id)
  {
    var me := s.workers[w];
    var row := s'.attempts[|s.attempts|];
    Accounting.RowAppended(s.attempts, row, id);
    LogBooks(me, RowsOf(s.attempts, id), LettersOf(s.deadLetters, id), reply, row);
    InHand(s, s', w, id);
  }

  lemma RetimedAccount(id: string, e: Event, at: int, rows: seq<Attempt>, letters: seq<DeadLetter>)
    requires Accounted(id, e, rows, letters) && e.nextRetryAt.Some? && e.status != Failed
    ensures Accounted(id, e.(nextRetryAt := Some(at)), rows, letters)
  {
  }

  /** The books once a logged reply is acted on. */
  lemma LoggedAccount(me: Worker, reply: Reply, rows: seq<Attempt>, letters: seq<DeadLetter>, env: Lifecycle.Env)
    requires me.At? && JustLogged(me, reply, rows, letters) && env.reply == reply
    ensures Accounted(me.id, Lifecycle.Answered(me.ev, env, rows[|rows| - 1].createdAt), rows,
                      if Lifecycle.Exhausts(me.ev, env)
                      then letters + [NewLetter(me.id, me.ev, FailureReason(reply), reply.statusCode)] else letters)
  {
    var front, last := rows[..|rows| - 1], rows[|rows| - 1];
    DeliveryKeepsAccount(me.id, me.ev, env, last.createdAt, front, letters);
    assert front + [last] == rows;
  }

  lemma SettleEffect(s: State, st: Step)
    requires Enabled(s, st) && st.Settle? && st.stored && s.workers[st.w].id in s.events
    requires s.workers[st.w].ev == s.events[s.workers[st.w].id]
    ensures var s', me := Apply(s, st), s.workers[st.w];
            var env := Met(me.pc.reply, st.base, st.draw);
            && OthersStay(s, s', st.w) && s'.attempts == s.attempts && s'.deadLetters == s.deadLetters
            && if Lifecycle.Exhausts(me.ev, env)
               then s'.events == s.events
                    && s'.workers[st.w] == me.(pc := Burying(FailureReason(me.pc.reply), me.pc.reply.statusCode))
               else s'.events == s.events[me.id := Lifecycle.Answered(me.ev, env, s.now)]
                    && s'.workers[st.w] == me.(pc := Leaving)
  {
  }

  /** The environment of a dispatch with this reply. */
  function Met(reply: Reply, base: RetryBase, draw: nat): Lifecycle.Env {
    Refinement.UNSEEN.(reply := reply, retryBase := base, draw := draw)
  }

  lemma AnsweredAccount(me: Worker, reply: Reply, rows: seq<Attempt>, letters: seq<DeadLetter>, env: Lifecycle.Env, at: int)
    requires me.At? && JustLogged(me, reply, rows, letters) && env.reply == reply && !Lifecycle.Exhausts(me.ev, env)
    ensures Accounted(me.id, Lifecycle.Answered(me.ev, env, at), rows, letters)
  {
    LoggedAccount(me, reply, rows, letters, env);
    var e := Lifecycle.Answered(me.ev, env, rows[|rows| - 1].createdAt);
    if e.status == Retrying {
      RetimedAccount(me.id, e, Lifecycle.Answered(me.ev, env, at).nextRetryAt.value, rows, letters);
    }
  }

  lemma SettleBalances(s: State, st: Step, id: string)
    requires Balanced(s, id) && InTurn(s, id) && Enabled(s, st) && Owner(s, st, id) && st.Settle? && st.stored
    requires id in s.events
    ensures Balanced(Apply(s, st), id)
  {
    var s', me := Apply(s, st), s.workers[st.w];
    assert Active(me, id);
    SettleEffect(s, st);
    var env := Met(me.pc.reply, st.base, st.draw);
    if Lifecycle.Exhausts(me.ev, env) {
      InHand(s, s', st.w, id);
    } else {
      AnsweredAccount(me, me.pc.reply, RowsOf(s.attempts, id), LettersOf(s.deadLetters, id), env, s.now);
      AtRest(s, s', st.w, id);
    }
  }

  lemma BuryEffect(s: State, st: Step)
    requires Enabled(s, st) && st.Bury? && st.stored
    ensures var s', me := Apply(s, st), s.workers[st.w];
            && Moved(s, s', st.w, me.(pc := Buried))
            && s'.events == s.events && s'.attempts == s.attempts
            && s'.deadLetters == s.deadLetters + [NewLetter(me.id, me.ev, me.pc.reason, me.pc.code)]
  {
  }

  lemma BuriedAccount(me: Worker, rows: seq<Attempt>, letters: seq<DeadLetter>)
    requires me.At? && me.pc.Burying? && Books(me, rows, letters)
    ensures Accounted(me.id, me.ev.(status := Failed), rows, letters + [NewLetter(me.id, me.ev, me.pc.reason, me.pc.code)])
  {
    if me.pc.reason.EndpointNotFound? || me.pc.reason.EndpointInactive? {
      BurialKeepsAccount(me.id, me.ev, me.pc.reason, rows, letters);
    } else {
      var reply := rows[|rows| - 1].reply;
      LoggedAccount(me, reply, rows, letters, Met(reply, DEFAULT_RETRY_BASE, 0));
    }
  }

  lemma BuryBalances(s: State, st: Step, id: string)
    requires Balanced(s, id) && InTurn(s, id) && Enabled(s, st) && Owner(s, st, id) && st.Bury? && st.stored
    requires id in s.events
    ensures Balanced(Apply(s, st), id)
  {
    var s', me := Apply(s, st), s.workers[st.w];
    assert Active(me, id);
    BuryEffect(s, st);
    LetterAppended(s.deadLetters, NewLetter(id, me.ev, me.pc.reason, me.pc.code), id);
    BuriedAccount(me, RowsOf(s.attempts, id), LettersOf(s.deadLetters, id));
    InHand(s, s', st.w, id);
  }

  /** A worker that was done with the event stays so. */
  lemma DoneBalances(s: State, s': State, w: nat, id: string)
    requires Balanced(s, id) && OthersStay(s, s', w) && !Active(s.workers[w], id) && !Active(s'.workers[w], id)
    requires SameTables(s, s', id) && id in s.events
    ensures Balanced(s', id)
  {
    assert forall v :: 0 <= v < |s.workers| ==> (Active(s'.workers[v], id) <==> Active(s.workers[v], id));
    assert Handled(s', id) <==> Handled(s, id);
  }

  lemma LateBalances(s: State, st: Step, id: string)
    requires Balanced(s, id) && InTurn(s, id) && Enabled(s, st) && Owner(s, st, id) && Late(st) && Stores(s, st, id)
    requires id in s.events
    ensures Balanced(Apply(s, st), id)
  {
    var s', me := Apply(s, st), s.workers[st.w];
    LateEffect(s, st);
    if Active(me, id) {
      AtRest(s, s', st.w, id);
    } else {
      DoneBalances(s, s', st.w, id);
    }
  }

  lemma FetchBalances(s: State, w: nat, id: string)
    requires Balanced(s, id) && Enabled(s, Fetch(w, id)) && InTurn(Apply(s, Fetch(w, id)), id)
    ensures Balanced(Apply(s, Fetch(w, id)), id)
  {
    var s' := Apply(s, Fetch(w, id));
    assert Active(s'.workers[w], id);
    forall v | 0 <= v < |s.workers|
      ensures !Active(s.workers[v], id)
    {
      if v != w {
        assert s'.workers[v] == s.workers[v];
      }
    }
    forall v | 0 <= v < |s.workers| && v != w
      ensures !Active(s'.workers[v], id)
    {
      assert s'.workers[v] == s.workers[v];
    }
  }

  /** Insert, publish for a retry, and mark: nobody is at work on the event. */
  lemma QueueBalances(s: State, st: Step, id: string)
    requires Balanced(s, id) && InTurn(s, id) && Enabled(s, st) && InTurn(Apply(s, st), id)
    requires (st.Insert? || st.Republish? || st.Mark?) && st.id == id
    ensures Balanced(Apply(s, st), id)
  {
    var s' := Apply(s, st);
    assert s'.workers == s.workers;
    assert Handled(s', id) <==> Handled(s, id);
  }

  lemma OwnStep(s: State, st: Step, id: string)
    requires Balanced(s, id) && Enabled(s, st) && Owner(s, st, id) && Stores(s, st, id) && InTurn(s, id)
    ensures Balanced(Apply(s, st), id)
  {
    assert id in s.events;
    if Late(st) {
      LateBalances(s, st, id);
    } else if Early(st) {
      EarlyBalances(s, st, id);
    } else if st.Log? {
      LogBalances(s, st, id);
    } else if st.Settle? {
      SettleBalances(s, st, id);
    } else {
      BuryBalances(s, st, id);
    }
  }

  lemma StepStaysBalanced(s: State, st: Step, id: string)
    requires Balanced(s, id) && Enabled(s, st) && Stores(s, st, id)
    requires InTurn(s, id) && InTurn(Apply(s, st), id)
    ensures Balanced(Apply(s, st), id)
  {
    if !Concerns(s, st, id) {
      UnconcernedStep(s, st, id);
    } else if Owner(s, st, id) {
      OwnStep(s, st, id);
    } else if st.Fetch? {
      FetchBalances(s, st.w, id);
    } else {
      QueueBalances(s, st, id);
    }
  }

  ghost predicate StepInTurn(s: State, st: Step, s': State, id: string) {
    InTurn(s, id) && InTurn(s', id) && Stores(s, st, id)
  }

  /** Every handling of the event keeps its turn and its writes. */
  ghost predicate Undisturbed(r: Run, id: string)
    requires |r.states| == |r.steps| + 1
  {
    forall i {:trigger r.steps[i]} :: 0 <= i < |r.steps| ==> StepInTurn(r.states[i], r.steps[i], r.states[i + 1], id)
  }

  lemma StartIsBalanced(n: nat, id: string)
    ensures Balanced(Start(n), id)
  {
  }

  lemma {:induction false} RunStaysBalanced(n: nat, r: Run, k: nat, id: string)
    requires Legal(n, r) && k < |r.states| && Undisturbed(r, id)
    ensures Balanced(r.states[k], id)
  {
    if k == 0 {
      StartIsBalanced(n, id);
    } else {
      RunStaysBalanced(n, r, k - 1, id);
      assert StepInTurn(r.states[k - 1], r.steps[k - 1], r.states[k], id);
      StepStaysBalanced(r.states[k - 1], r.steps[k - 1], id);
    }
  }

  lemma BooksNumber(me: Worker, rows: seq<Attempt>, letters: seq<DeadLetter>)
    requires me.At? && Books(me, rows, letters)
    ensures (forall i :: 0 <= i < |rows| ==> rows[i].number == i + 1) && |rows| <= MAX_ATTEMPTS
    ensures forall i :: 0 <= i < |rows| - 1 ==> !rows[i].reply.Success()
  {
    if rows != [] {
      var front := rows[..|rows| - 1];
      assert forall i :: 0 <= i < |front| ==> rows[i] == front[i];
    }
  }

  /** With any number of workers, every interleaving, crashes and outstayed locks: if the handlings of an event do
      not overlap, meet no outstanding mark and store what they write, then in every state its attempts are
      numbered 1, 2, ... without gap or repeat, at most five, and only the last can be a success; and whenever
      nobody is handling it, it is delivered if and only if that one is, and failed if and only if exactly one
      dead letter names it, which copies it. */
  lemma NumberedInTurn(n: nat, r: Run, k: nat, id: string)
    requires Legal(n, r) && k < |r.states| && Undisturbed(r, id)
    ensures var s := r.states[k];
            var rows, letters := RowsOf(s.attempts, id), LettersOf(s.deadLetters, id);
            && (forall i :: 0 <= i < |rows| ==> rows[i].number == i + 1)
            && |rows| <= MAX_ATTEMPTS
            && (forall i :: 0 <= i < |rows| - 1 ==> !rows[i].reply.Success())
            && (id in s.events && !Handled(s, id) ==>
                 var e := s.events[id];
                 && |rows| == Spent(e, letters)
                 && (e.status == Delivered <==> rows != [] && rows[|rows| - 1].reply.Success())
                 && |letters| <= 1 && (e.status == Failed <==> |letters| == 1)
                 && (|letters| == 1 ==> Describes(letters[0], id, e)))
  {
    RunStaysBalanced(n, r, k, id);
    var s := r.states[k];
    if Handled(s, id) {
      var w :| 0 <= w < |s.workers| && Active(s.workers[w], id);
      BooksNumber(s.workers[w], RowsOf(s.attempts, id), LettersOf(s.deadLetters, id));
    }
  }
}
